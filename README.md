# Kanban board store

A Dafny model of the board store behind the single-page kanban app in
`src/App.jsx`. The store is a sequence of boards (columns). Each board holds a
sequence of cards, and each card has a title, a description, a priority, a due
date and tags. Every handler of the app computes a new board sequence with
`map`, `filter` and spread-append, then replaces the component state.

The model has three layers:

- `BoardStore` and `Tags` hold the pure part. Each handler is a function from
  the old board sequence (or tag list) to the new one. `addBoard`,
  `deleteBoard`, `addCard`, `deleteCard`, `updateCard`, the move inside
  `handleDrop`, the editor's `addTag` and `removeTag`, and `getTagColor` each
  become one function.
- `AppState` holds the state-changing part. It has two classes:
  - `App`: the board screen's state (`boards`, `newBoardTitle`, `showNewBoard`,
    `editingCard`, `draggedCard`, `draggedOverBoard`). Each handler is a method
    that replaces the fields the source's setters replace.
  - `CardEditor`: the card editor's working copy (`title`, `description`,
    `priority`, `dueDate`, `tags`, `newTag`). Its `Save` writes the copy back
    through `App.UpdateCard`.
- `BoardLaws` relates the handlers to one another: undoing an addition,
  idempotence, and conservation of cards under a drag-and-drop move.

The supporting modules are:

- `Model`: the data and the seed store.
- `Seqs`: `filter` as `Without`, `map` as `Map`, subsequences and duplicate
  freedom.
- `JsText`: JavaScript's `trim` and the UTF-16 code unit sum that
  `getTagColor` folds.
- `Scenarios`: client code that drives the two classes through whole
  interactions.

Ids come from `Date.now()` in the source, so they are parameters here, and no
member assumes they are unique. `addCard` reads the clock inside its `boards.map`
callback, once per board whose id matches, so `BoardStore.AddCard` takes one
clock reading per board position: when two boards share an id, their new cards
may get different ids. A handler that filters or maps by id therefore
acts on every board or card carrying that id.

The answer of `prompt` is an `Option<string>`: `None` stands for a cancelled
prompt (`null`). `addCard` tests only the answer's truthiness (`Truthy`), so a
title made of blanks is accepted.

`addBoard` tests the trimmed title but stores the title as typed.

A drop on a board id that no board has takes the card out of its source board
and adds it nowhere, so the card is lost. `MoveCard`'s contract states this,
and `Scenarios.DropOnMissingBoard` shows it.

Two editor behaviours are easy to misread:

- `removeTag` filters, so it removes every occurrence of the tag, not only the
  first one.
- `addTag` clears the input only when the tag was accepted. A refused tag stays
  in the input.

## Model

| member | source | states |
|---|---|---|
| Seqs.Without | src/App.jsx:104 | `filter(x => key(x) !== k)`: the kept elements are exactly those of the input whose key differs from k; the length drops by the number of matches |
| Seqs.WithoutIsSubsequence | src/App.jsx:104 | filtering keeps the relative order of what it keeps: the result is a subsequence of the input |
| Seqs.WithoutAbsent | src/App.jsx:104 | filtering by a key no element has returns the sequence unchanged |
| Seqs.WithoutIdempotent | src/App.jsx:104 | filtering twice by the same key is filtering once |
| Seqs.WithoutConcat | src/App.jsx:234 | filtering distributes over concatenation |
| Seqs.WithoutOnlySplit | src/App.jsx:182 | what the filter keeps and what it drops together make up the input, as multisets |
| Seqs.WithoutNoDuplicates | src/App.jsx:234 | filtering a duplicate-free sequence leaves it duplicate-free |
| Seqs.WithoutOnlyAt | src/App.jsx:234 | filtering out the one element whose key matches removes exactly its position and keeps the rest in order |
| Seqs.WithoutDropsLast | src/App.jsx:234 | filtering out a matching last element, when nothing before it matches, leaves exactly what came before |
| Seqs.WithoutFacts | src/App.jsx:134 | the three facts the handlers use about `filter` together: order kept, nothing matched means unchanged, duplicate freedom kept |
| Seqs.Map | src/App.jsx:130 | `map(f)`: same length, and each element is `f` of the element at the same position |
| JsText.IsWhiteSpace | src/App.jsx:92 | the WhiteSpace and LineTerminator code points `trim` removes (tab to carriage return, space, no-break space, U+1680, U+2000 to U+200A, the line and paragraph separators, U+202F, U+205F, U+3000, the byte order mark); each is one UTF-16 code unit, so trimming scalar values trims the same code units |
| JsText.TrimStart | src/App.jsx:227 | the leading white space is removed: the result is a suffix of the input, the removed prefix is all white space, and the result does not start with white space |
| JsText.TrimEnd | src/App.jsx:227 | the trailing white space is removed: the result is a prefix of the input, the removed suffix is all white space, and the result does not end with white space |
| JsText.Trim | src/App.jsx:92 | `trim()`: no longer than the input, and a non-empty result neither starts nor ends with white space |
| JsText.TrimEmptyIff | src/App.jsx:92 | `trim()` is empty exactly when every character is JavaScript white space or a line terminator (both directions) |
| JsText.TrimIsInfix | src/App.jsx:227 | `trim()` returns a contiguous block of its input |
| JsText.TrimIdempotent | src/App.jsx:227 | trimming twice is trimming once |
| JsText.TrimUnpadded | src/App.jsx:227 | a string without white space at either end is its own `trim()` |
| JsText.CodeUnits | src/App.jsx:87 | the UTF-16 code units `split('')` yields for one character: a single unit equal to the code point below U+10000, otherwise a high surrogate (0xD800-0xDBFF) followed by a low surrogate (0xDC00-0xDFFF) that decode back to the code point; each unit is below 0x10000 |
| JsText.CharCodeSum | src/App.jsx:87 | the `charCodeAt` sum of one character's code units: its code point below U+10000, and at most 0x1FFFF |
| JsText.CodeUnitSum | src/App.jsx:87 | the `reduce` of `charCodeAt` over the code units, left to right from 0; at most 0x1FFFF per character |
| JsText.CodeUnitSumConcat | src/App.jsx:87 | the `charCodeAt` sum of a concatenation is the sum of the parts' sums |
| JsText.CodeUnitSumPermutation | src/App.jsx:87 | the `charCodeAt` sum does not depend on the order of the characters |
| BoardStore.AddBoard | src/App.jsx:91-101 | a title that trims to empty leaves the boards unchanged; otherwise exactly one board is appended, with the given id, the untrimmed title and no cards, and the earlier boards are unchanged |
| BoardStore.DeleteBoard | src/App.jsx:103-105 | the result holds exactly the boards whose id differs, in their order (a subsequence); the count drops by the number of matches; an absent id changes nothing |
| BoardStore.Truthy | src/App.jsx:109 | JavaScript truthiness of the prompt's answer: not `null` and not the empty string (a string of blanks is truthy) |
| BoardStore.AppendCard | src/App.jsx:111-124 | the `boards.map` callback of `addCard`: a board with the id gets the card at the end; id and title stay; other boards stay |
| BoardStore.AddCard | src/App.jsx:107-127 | a null or empty answer changes nothing; otherwise the board at each position i with the id gets exactly the card (clock reading i, answer, "", medium, "", []) at the end; other boards, board ids, titles and the board count are unchanged; an absent id changes nothing |
| BoardStore.RemoveCard | src/App.jsx:131-137 | the `boards.map` callback of `deleteCard`: in a matching board exactly the cards with another id remain, in their order (a subsequence of the right length); no matching card means the board is unchanged |
| BoardStore.DeleteCard | src/App.jsx:129-139 | board count, order, ids and titles are kept; other boards are unchanged; in each matching board exactly the cards with another id remain, in their order (a subsequence whose length drops by the number of matches); a board without the card id is unchanged |
| Model.Updated | src/App.jsx:147 | the effect of `{ ...card, ...updates }` on a card with the id: each supplied field is taken, each omitted field kept; a card with another id is left as it was |
| Model.Merge | src/App.jsx:147 | `{ ...card, ...updates }`: the result is related to the card by `Updated` |
| BoardStore.UpdateIfMatch | src/App.jsx:146-148 | the inner `cards.map` callback of `updateCard`: a card with the id is merged, any other card kept, as `Updated` states |
| BoardStore.UpdateCardsOf | src/App.jsx:142-151 | the outer `map` callback: a board keeps its id, title and number of cards; in a board with the id every card is updated as `Updated` describes, and a board with another id is unchanged |
| BoardStore.UpdateCard | src/App.jsx:141-153 | board count and every board's card count are kept; in matching boards a card with the id takes each supplied field and keeps each omitted one (including its id); every other card and board is unchanged |
| BoardStore.MoveStep | src/App.jsx:178-191 | the `boards.map` callback of `handleDrop`: a source board keeps exactly the cards with another id than the moved card's, in their order; otherwise a target board gets the card at the end; any other board stays; id and title always stay |
| BoardStore.MoveCard | src/App.jsx:178-192 | source boards keep exactly the cards with another id than the moved card's, in their order (a subsequence whose length drops by the number of matches), and are unchanged when they hold no such card; a target board distinct from the source gets the card at the end; all other boards are unchanged |
| BoardStore.Drop | src/App.jsx:166-196 | no tracked card, or a drop on the source board, leaves the boards unchanged; otherwise the boards are the move of the tracked card from its source to the target |
| BoardLaws.AllCardsConcat | src/App.jsx:93 | the cards of a concatenated store are the cards of the first part followed by those of the second |
| BoardLaws.AddBoardKeepsCards | src/App.jsx:91-101 | adding a board adds no card and removes none |
| BoardLaws.DeleteBoardUndoesAddBoard | src/App.jsx:91-105 | deleting a freshly added board, by an id no other board had, restores the store |
| BoardLaws.DeleteBoardIdempotent | src/App.jsx:103-105 | deleting a board twice is deleting it once |
| BoardLaws.AppendCardCount | src/App.jsx:110-125 | appending a card (any card per position) to every matching board adds one card per matching board to the store |
| BoardLaws.AddCardCount | src/App.jsx:107-127 | a truthy answer adds exactly one card per board with the id |
| BoardLaws.DeleteCardUndoesAddCard | src/App.jsx:107-139 | deleting a freshly added card restores the store, when every matching board gave it the deleted id (as when one board has the id) and none of its cards had that id |
| BoardLaws.SeedStoreShape | src/App.jsx:12-54 | the seed store has three boards with the distinct ids 1, 2 and 3 and three cards in all |
| BoardLaws.UpdateCardIdempotent | src/App.jsx:141-153 | applying the same update twice is applying it once |
| BoardLaws.SaveUneditedIsNoOp | src/App.jsx:221-224 | saving the editor without edits writes the card's own fields back, and the store is unchanged |
| BoardLaws.CopiesOfUnique | src/App.jsx:185-189 | when at most one board has the target id, the card is appended at most once |
| BoardLaws.MoveStepMultiset | src/App.jsx:178-192 | board by board, a move's cards plus what the source boards lost equal the old cards plus the copies appended to target boards |
| BoardLaws.MoveCardMultiset | src/App.jsx:178-192 | a move between distinct boards loses exactly what the source boards filter out and gains exactly one copy of the card per target board |
| BoardLaws.TakenSize | src/App.jsx:182 | when the card occurs once in each source board, the filter removes one card per source board |
| BoardLaws.TakenExactly | src/App.jsx:182 | when the only card with the moved card's id in each source board is that card itself, the filter removes exactly one copy of it per source board |
| BoardLaws.MoveCardKeepsCount | src/App.jsx:166-196 | with one source board holding the card once and one existing target board, a move keeps the total card count |
| BoardLaws.MoveCardKeepsCards | src/App.jsx:166-196 | under the same conditions the move keeps the store's cards as a multiset: nothing is lost or duplicated |
| Tags.CanAddTag | src/App.jsx:227 | `addTag`'s guard: the trimmed input is non-empty and not yet a tag |
| Tags.AddTag | src/App.jsx:226-231 | an input that trims to empty, or whose trimmed form is already a tag, leaves the tags unchanged; otherwise exactly the trimmed input is appended; a duplicate-free list stays duplicate-free |
| Tags.RemoveTag | src/App.jsx:233-235 | the result contains no occurrence of the tag, is shorter by exactly the number of its occurrences, equals the list when the tag is absent, keeps every other tag, is a subsequence of the list and keeps duplicate freedom |
| Tags.RemoveTagUndoesAddTag | src/App.jsx:226-235 | removing a tag that was just accepted gives back the list as it was |
| Tags.AddTagIdempotent | src/App.jsx:226-231 | adding the same input twice is adding it once |
| Tags.RemoveTagOnDistinct | src/App.jsx:233-235 | on a duplicate-free list, removing a tag removes exactly its one position |
| Tags.TagColor | src/App.jsx:81-89 | the colour is always one of the eight palette entries; the empty tag gets `bg-blue-500` |
| Tags.TagColorOfAnagram | src/App.jsx:86-89 | tags made of the same characters in any order get the same colour |
| Tags.TagColorOfPadded | src/App.jsx:86-89 | appending characters whose code units sum to a multiple of eight keeps a tag's colour |
| AppState.App.constructor | src/App.jsx:6-62 | the boards are the saved store when there is one and the seed store otherwise; the input is empty and hidden; nothing is being edited or dragged |
| AppState.App.AddBoard | src/App.jsx:91-101 | the boards become `BoardStore.AddBoard` of the old ones; the input is cleared and hidden only when a board was added, and is kept as typed otherwise |
| AppState.App.DeleteBoard | src/App.jsx:103-105 | the boards become `BoardStore.DeleteBoard` of the old ones; nothing else changes |
| AppState.App.AddCard | src/App.jsx:107-127 | the boards become `BoardStore.AddCard` of the old ones with the prompt's answer and one clock reading per board; nothing else changes |
| AppState.App.DeleteCard | src/App.jsx:129-139 | the boards become `BoardStore.DeleteCard` of the old ones; nothing else changes |
| AppState.App.UpdateCard | src/App.jsx:141-153 | the boards become `BoardStore.UpdateCard` of the old ones; nothing else changes |
| AppState.App.HandleDragStart | src/App.jsx:155-158 | the tracked card becomes the card with its source board, replacing any earlier one |
| AppState.App.HandleDragOver | src/App.jsx:160-164 | the highlighted board becomes the one under the pointer |
| AppState.App.HandleDrop | src/App.jsx:166-196 | the boards become `BoardStore.Drop` of the old ones; with no tracked card the highlight is kept; after a drop with a tracked card both the tracked card and the highlight are cleared |
| AppState.App.OpenEditor | src/App.jsx:446 | the editor is opened on the card and its board |
| AppState.App.CloseEditor | src/App.jsx:523 | the editor is closed |
| AppState.CardEditor.constructor | src/App.jsx:213-219 | the working copy starts as the card's title, description, priority, due date and tags, with an empty tag input |
| AppState.CardEditor.AddTag | src/App.jsx:226-231 | the tags become `Tags.AddTag` of the old ones; the input is cleared exactly when the tag was accepted; a duplicate-free list stays duplicate-free |
| AppState.CardEditor.RemoveTag | src/App.jsx:233-235 | the tags become `Tags.RemoveTag` of the old ones, which no longer contain the tag |
| AppState.CardEditor.Save | src/App.jsx:221-224 | the boards become `BoardStore.UpdateCard` with the five working fields and no id, for the edited card's board and id; the editor is closed |

## Left out

- Persistence is not modelled. `localStorage` reads and writes and the JSON round trip (src/App.jsx:6-10 and 65-67) are browser calls. The store read at start-up is the constructor's `saved` parameter.
- Id generation with `Date.now()` (src/App.jsx:94, 115) reads the clock. Ids are parameters, and they are not assumed to be unique.
- The blocking `prompt` (src/App.jsx:108) is user I/O. Its answer is a parameter.
- `clearAllData` (src/App.jsx:206-211) consists only of `window.confirm`, a storage removal and a page reload. All of these are browser I/O.
- `isOverdue` (src/App.jsx:198-204) depends on `Date` parsing and on the wall clock.
- `dataTransfer.effectAllowed`, `dropEffect` and `preventDefault` (src/App.jsx:157, 161-162, 167) are DOM event plumbing with no effect on the store.
- The JSX rendering and the style maps `priorityColors` and `priorityLabels` (src/App.jsx:69-79, 237-527) are presentation only. So are the controlled inputs' setters: in the model they are plain assignments to the public fields of `App` and `CardEditor`.
- AppState.CardEditor.constructor: `card.tags || []` (src/App.jsx:218) substitutes an empty list when a card loaded from storage has no `tags` key. A card here always has a tag list, so that case does not arise.
- JsText.CodeUnits: a Dafny `char` is a Unicode scalar value. A JavaScript string holding a lone surrogate therefore cannot be expressed, and the model does not capture it.
- Tags.TagColor: JavaScript numbers are doubles, but the sum is modelled as an unbounded integer. By `JsText.CodeUnitSum`'s bound of 0x1FFFF per character, the two agree for every tag of fewer than 2^36 characters.
- Scenarios take their card titles, tags and cards as parameters rather than as fixed strings, so none of them replays the seed store itself (`Model.SeedBoards`). With fixed strings the verifier evaluates `trim` and `map` character by character, which is too slow.
