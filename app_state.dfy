// The component state of the board screen (`App`) and of the card editor
// (`EditCardModal`). Each state setter of the source is an assignment to a
// field; each handler is a method that computes the new board sequence with
// the functions of BoardStore and Tags and replaces the fields it sets.
module AppState {
  import opened Model
  import BoardStore
  import Tags
  import JsText
  import Seqs

  class App {
    var boards: seq<Board>
    var newBoardTitle: string        // the "new board" input
    var showNewBoard: bool           // whether that input is shown
    var editingCard: Option<CardRef> // the card open in the editor
    var draggedCard: Option<CardRef> // the card being dragged and its source board
    var draggedOverBoard: Option<int> // the board under the pointer (highlight only)

    /** Start-up: the saved store when there is one, the seed store otherwise.
        `saved` is what reading and parsing the storage slot produced. */
    constructor(saved: Option<seq<Board>>)
      ensures boards == (if saved.Some? then saved.value else SeedBoards)
      ensures newBoardTitle == "" && !showNewBoard
      ensures editingCard.None? && draggedCard.None? && draggedOverBoard.None?
    {
      boards := if saved.Some? then saved.value else SeedBoards;
      newBoardTitle := "";
      showNewBoard := false;
      editingCard := None;
      draggedCard := None;
      draggedOverBoard := None;
    }

    /** `addBoard`, with `id` the value `Date.now()` gave. A title that is all white space
        changes nothing; otherwise the board is added and the input is cleared and hidden. */
    method AddBoard(id: int)
      modifies this`boards, this`newBoardTitle, this`showNewBoard
      ensures boards == BoardStore.AddBoard(old(boards), old(newBoardTitle), id)
      ensures JsText.AllWhiteSpace(old(newBoardTitle)) ==>
        newBoardTitle == old(newBoardTitle) && showNewBoard == old(showNewBoard)
      ensures !JsText.AllWhiteSpace(old(newBoardTitle)) ==> newBoardTitle == "" && !showNewBoard
    {
      JsText.TrimEmptyIff(newBoardTitle);
      if JsText.Trim(newBoardTitle) != [] {
        boards := BoardStore.AddBoard(boards, newBoardTitle, id);
        newBoardTitle := "";
        showNewBoard := false;
      }
    }

    /** `deleteBoard`. */
    method DeleteBoard(boardId: int)
      modifies this`boards
      ensures boards == BoardStore.DeleteBoard(old(boards), boardId)
    {
      boards := BoardStore.DeleteBoard(boards, boardId);
    }

    /** `addCard`, with `answer` what `prompt` returned (`None` when cancelled) and
        `cardIds[i]` the value `Date.now()` gives when the callback reaches board i. */
    method AddCard(boardId: int, answer: Option<string>, cardIds: seq<int>)
      requires |cardIds| == |boards|
      modifies this`boards
      ensures boards == BoardStore.AddCard(old(boards), boardId, answer, cardIds)
    {
      if BoardStore.Truthy(answer) {
        boards := BoardStore.AddCard(boards, boardId, answer, cardIds);
      }
    }

    /** `deleteCard`. */
    method DeleteCard(boardId: int, cardId: int)
      modifies this`boards
      ensures boards == BoardStore.DeleteCard(old(boards), boardId, cardId)
    {
      boards := BoardStore.DeleteCard(boards, boardId, cardId);
    }

    /** `updateCard`. */
    method UpdateCard(boardId: int, cardId: int, u: CardUpdate)
      modifies this`boards
      ensures boards == BoardStore.UpdateCard(old(boards), boardId, cardId, u)
    {
      boards := BoardStore.UpdateCard(boards, boardId, cardId, u);
    }

    /** `handleDragStart`: remember the card and the board it is dragged from; a new drag
        replaces any earlier one. */
    method HandleDragStart(card: Card, boardId: int)
      modifies this`draggedCard
      ensures draggedCard == Some(CardRef(card, boardId))
    {
      draggedCard := Some(CardRef(card, boardId));
    }

    /** `handleDragOver`: highlight the board under the pointer. */
    method HandleDragOver(boardId: int)
      modifies this`draggedOverBoard
      ensures draggedOverBoard == Some(boardId)
    {
      draggedOverBoard := Some(boardId);
    }

    /** `handleDrop`: with nothing tracked it returns at once and changes nothing, not
        even the highlight. Otherwise the card moves (unless dropped on its own board)
        and both pieces of drag state are cleared. */
    method HandleDrop(targetId: int)
      modifies this`boards, this`draggedCard, this`draggedOverBoard
      ensures boards == BoardStore.Drop(old(boards), old(draggedCard), targetId)
      ensures old(draggedCard).None? ==> draggedCard.None? && draggedOverBoard == old(draggedOverBoard)
      ensures old(draggedCard).Some? ==> draggedCard.None? && draggedOverBoard.None?
    {
      if draggedCard.None? {
        return;
      }
      var card, sourceBoardId := draggedCard.value.card, draggedCard.value.boardId;
      if sourceBoardId == targetId {
        draggedCard := None;
        draggedOverBoard := None;
        return;
      }
      boards := BoardStore.MoveCard(boards, card, sourceBoardId, targetId);
      draggedCard := None;
      draggedOverBoard := None;
    }

    /** The edit button: open the editor on a card of a board. */
    method OpenEditor(card: Card, boardId: int)
      modifies this`editingCard
      ensures editingCard == Some(CardRef(card, boardId))
    {
      editingCard := Some(CardRef(card, boardId));
    }

    /** The editor's `onClose`. */
    method CloseEditor()
      modifies this`editingCard
      ensures editingCard.None?
    {
      editingCard := None;
    }
  }

  /** `EditCardModal`: a working copy of one card's fields, written back only by `Save`.
      The text inputs assign the public fields directly. */
  class CardEditor {
    const card: Card
    const boardId: int
    var title: string
    var description: string
    var priority: Priority
    var dueDate: string
    var tags: seq<string>
    var newTag: string

    constructor(card: Card, boardId: int)
      ensures this.card == card && this.boardId == boardId
      ensures title == card.title && description == card.description && priority == card.priority
      ensures dueDate == card.dueDate && tags == card.tags && newTag == ""
    {
      this.card := card;
      this.boardId := boardId;
      title := card.title;
      description := card.description;
      priority := card.priority;
      dueDate := card.dueDate;
      tags := card.tags;
      newTag := "";
    }

    /** `addTag`: the trimmed input joins the tags unless it is empty or already there;
        the input is cleared only when it joined. A list without duplicates keeps none. */
    method AddTag()
      modifies this`tags, this`newTag
      ensures tags == Tags.AddTag(old(tags), old(newTag))
      ensures newTag == if Tags.CanAddTag(old(tags), old(newTag)) then "" else old(newTag)
      ensures Seqs.NoDuplicates(old(tags)) ==> Seqs.NoDuplicates(tags)
    {
      var trimmed := JsText.Trim(newTag);
      if trimmed != [] && trimmed !in tags {
        tags := tags + [trimmed];
        newTag := "";
      }
    }

    /** `removeTag`: drop every tag equal to `t`. */
    method RemoveTag(t: string)
      modifies this`tags
      ensures tags == Tags.RemoveTag(old(tags), t)
      ensures t !in tags
    {
      tags := Tags.RemoveTag(tags, t);
    }

    /** `handleSave`: write the five working fields over the card (its id stays), then close. */
    method Save(app: App)
      modifies app`boards, app`editingCard
      ensures app.boards == BoardStore.UpdateCard(old(app.boards), boardId, card.id,
                                                  EditorUpdate(title, description, priority, dueDate, tags))
      ensures app.editingCard.None?
    {
      app.UpdateCard(boardId, card.id, EditorUpdate(title, description, priority, dueDate, tags));
      app.CloseEditor();
    }
  }
}
