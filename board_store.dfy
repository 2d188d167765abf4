// The board store's handlers as functions from the old board sequence to the
// new one (what each handler passes to `setBoards`). Ids and the prompt's
// answer are parameters; ids are not assumed to be unique.
module BoardStore {
  import opened Model
  import Seqs
  import JsText

  /** `addBoard`: a title that is all white space changes nothing; otherwise one board
      with the untrimmed title, the given id and no cards goes at the end. */
  function AddBoard(boards: seq<Board>, title: string, id: int): (r: seq<Board>)
    ensures JsText.AllWhiteSpace(title) ==> r == boards
    ensures !JsText.AllWhiteSpace(title) ==>
      |r| == |boards| + 1 && r[..|boards|] == boards && r[|boards|] == Board(id, title, [])
  {
    JsText.TrimEmptyIff(title);
    if JsText.Trim(title) != [] then boards + [Board(id, title, [])] else boards
  }

  /** `deleteBoard`: every board with the id goes, the others stay in their order. */
  function DeleteBoard(boards: seq<Board>, boardId: int): (r: seq<Board>)
    ensures |r| == |boards| - Seqs.CountOf(boards, BoardId, boardId)
    ensures forall i :: 0 <= i < |r| ==> r[i] in boards && r[i].id != boardId
    ensures forall i :: 0 <= i < |boards| && boards[i].id != boardId ==> boards[i] in r
    ensures Seqs.IsSubsequence(r, boards)
    ensures Seqs.CountOf(boards, BoardId, boardId) == 0 ==> r == boards
  {
    Seqs.WithoutFacts(boards, BoardId, boardId);
    Seqs.Without(boards, BoardId, boardId)
  }

  /** `prompt` answered with a truthy string: not cancelled (`null`) and not empty. */
  predicate Truthy(answer: Option<string>) {
    answer.Some? && answer.value != ""
  }

  /** The card `addCard` creates. */
  function NewCard(id: int, title: string): Card {
    Card(id, title, "", Medium, "", [])
  }

  /** The callback of `addCard`'s `boards.map`: a board with the id gets `card` at the end. */
  function AppendCard(b: Board, boardId: int, card: Card): (r: Board)
    ensures r.id == b.id && r.title == b.title
    ensures b.id == boardId ==> r.cards == b.cards + [card]
    ensures b.id != boardId ==> r == b
  {
    if b.id == boardId then b.(cards := b.cards + [card]) else b
  }

  /** `addCard`: when the prompt's answer is truthy, each board with the id gets a new card at
      the end of its cards; other boards, and the number of boards, stay. The callback of
      `boards.map` reads the clock once for each board it matches, so the card added to the
      board at position i has the id `cardIds[i]` (the entries at other positions are unused). */
  function AddCard(boards: seq<Board>, boardId: int, answer: Option<string>, cardIds: seq<int>): (r: seq<Board>)
    requires |cardIds| == |boards|
    ensures |r| == |boards|
    ensures !Truthy(answer) ==> r == boards
    ensures forall i :: 0 <= i < |boards| ==> r[i].id == boards[i].id && r[i].title == boards[i].title
    ensures forall i :: 0 <= i < |boards| && boards[i].id != boardId ==> r[i] == boards[i]
    ensures Truthy(answer) ==> forall i :: 0 <= i < |boards| && boards[i].id == boardId ==>
      r[i].cards == boards[i].cards + [Card(cardIds[i], answer.value, "", Medium, "", [])]
    ensures Seqs.CountOf(boards, BoardId, boardId) == 0 ==> r == boards
  {
    if Truthy(answer) then
      var r := seq(|boards|, i requires 0 <= i < |boards| =>
                   AppendCard(boards[i], boardId, NewCard(cardIds[i], answer.value)));
      assert Seqs.CountOf(boards, BoardId, boardId) == 0 ==> r == boards by {
        if Seqs.CountOf(boards, BoardId, boardId) == 0 {
          assert forall i :: 0 <= i < |boards| ==> BoardId(boards[i]) != boardId;
        }
      }
      r
    else boards
  }

  /** The callback of `deleteCard`'s `boards.map`: in a board with the board id, exactly the
      cards with another id than `cardId` stay, in their order. */
  function RemoveCard(b: Board, boardId: int, cardId: int): (r: Board)
    ensures r.id == b.id && r.title == b.title
    ensures b.id != boardId ==> r == b
    ensures b.id == boardId ==> |r.cards| == |b.cards| - Seqs.CountOf(b.cards, CardId, cardId)
    ensures b.id == boardId ==> Seqs.IsSubsequence(r.cards, b.cards)
    ensures b.id == boardId ==> forall j :: 0 <= j < |r.cards| ==> r.cards[j] in b.cards && r.cards[j].id != cardId
    ensures b.id == boardId ==> forall j :: 0 <= j < |b.cards| && b.cards[j].id != cardId ==> b.cards[j] in r.cards
    ensures Seqs.CountOf(b.cards, CardId, cardId) == 0 ==> r == b
  {
    Seqs.WithoutFacts(b.cards, CardId, cardId);
    if b.id == boardId then b.(cards := Seqs.Without(b.cards, CardId, cardId)) else b
  }
  /** `deleteCard`: in each board with the board id, every card with the card id goes and
      the rest stay; other boards, and the number of boards, stay. */
  function DeleteCard(boards: seq<Board>, boardId: int, cardId: int): (r: seq<Board>)
    ensures |r| == |boards|
    ensures forall i :: 0 <= i < |boards| ==> r[i].id == boards[i].id && r[i].title == boards[i].title
    ensures forall i :: 0 <= i < |boards| && boards[i].id != boardId ==> r[i] == boards[i]
    ensures forall i :: 0 <= i < |boards| && boards[i].id == boardId ==>
      |r[i].cards| == |boards[i].cards| - Seqs.CountOf(boards[i].cards, CardId, cardId)
    ensures forall i, j :: 0 <= i < |boards| && boards[i].id == boardId && 0 <= j < |r[i].cards| ==>
      r[i].cards[j] in boards[i].cards && r[i].cards[j].id != cardId
    ensures forall i, j :: 0 <= i < |boards| && boards[i].id == boardId && 0 <= j < |boards[i].cards| ==>
      boards[i].cards[j].id != cardId ==> boards[i].cards[j] in r[i].cards
    ensures forall i :: 0 <= i < |boards| && boards[i].id == boardId ==>
      Seqs.IsSubsequence(r[i].cards, boards[i].cards)
    ensures forall i :: 0 <= i < |boards| && Seqs.CountOf(boards[i].cards, CardId, cardId) == 0 ==>
      r[i] == boards[i]
  {
    Seqs.Map(boards, b => RemoveCard(b, boardId, cardId))
  }

  /** The callback of the inner `cards.map` of `updateCard`. */
  function UpdateIfMatch(c: Card, cardId: int, u: CardUpdate): (r: Card)
    ensures Updated(c, cardId, u, r)
  {
    if c.id == cardId then Merge(c, u) else c
  }

  /** The outer `boards.map` callback of `updateCard`: id, title and the number of cards stay;
      in a board with the id every card is `Updated`; any other board stays. */
  function UpdateCardsOf(b: Board, boardId: int, cardId: int, u: CardUpdate): (r: Board)
    ensures r.id == b.id && r.title == b.title && |r.cards| == |b.cards|
    ensures b.id != boardId ==> r == b
    ensures b.id == boardId ==> forall j :: 0 <= j < |b.cards| ==> Updated(b.cards[j], cardId, u, r.cards[j])
  {
    if b.id == boardId then b.(cards := Seqs.Map(b.cards, c => UpdateIfMatch(c, cardId, u))) else b
  }

  /** `updateCard`: same boards, same number of cards in each; in boards with the board id,
      cards with the card id take the supplied fields and keep the rest; all else is as it was. */
  function UpdateCard(boards: seq<Board>, boardId: int, cardId: int, u: CardUpdate): (r: seq<Board>)
    ensures |r| == |boards|
    ensures forall i :: 0 <= i < |boards| ==>
      r[i].id == boards[i].id && r[i].title == boards[i].title && |r[i].cards| == |boards[i].cards|
    ensures forall i :: 0 <= i < |boards| && boards[i].id != boardId ==> r[i] == boards[i]
    ensures forall i, j :: 0 <= i < |boards| && boards[i].id == boardId && 0 <= j < |boards[i].cards| ==>
      Updated(boards[i].cards[j], cardId, u, r[i].cards[j])
  {
    Seqs.Map(boards, b => UpdateCardsOf(b, boardId, cardId, u))
  }

  /** The callback of `handleDrop`'s `boards.map`: a source board keeps exactly the cards
      with another id than the moved card's, in their order; otherwise a target board gets
      the card at the end; any other board stays. */
  function MoveStep(b: Board, card: Card, sourceId: int, targetId: int): (r: Board)
    ensures r.id == b.id && r.title == b.title
    ensures b.id == sourceId ==> |r.cards| == |b.cards| - Seqs.CountOf(b.cards, CardId, card.id)
    ensures b.id == sourceId ==> Seqs.IsSubsequence(r.cards, b.cards)
    ensures b.id == sourceId ==>
      forall j :: 0 <= j < |r.cards| ==> r.cards[j] in b.cards && r.cards[j].id != card.id
    ensures b.id == sourceId ==>
      forall j :: 0 <= j < |b.cards| && b.cards[j].id != card.id ==> b.cards[j] in r.cards
    ensures b.id == sourceId && Seqs.CountOf(b.cards, CardId, card.id) == 0 ==> r == b
    ensures b.id != sourceId && b.id == targetId ==> r.cards == b.cards + [card]
    ensures b.id != sourceId && b.id != targetId ==> r == b
  {
    Seqs.WithoutFacts(b.cards, CardId, card.id);
    if b.id == sourceId then b.(cards := Seqs.Without(b.cards, CardId, card.id))
    else if b.id == targetId then b.(cards := b.cards + [card])
    else b
  }

  /** The `boards.map` of `handleDrop`: the source boards lose every card with the card's id,
      the target boards (when distinct from the source) get the card at the end. */
  function MoveCard(boards: seq<Board>, card: Card, sourceId: int, targetId: int): (r: seq<Board>)
    ensures |r| == |boards|
    ensures forall i :: 0 <= i < |boards| ==> r[i].id == boards[i].id && r[i].title == boards[i].title
    ensures forall i :: 0 <= i < |boards| && boards[i].id != sourceId && boards[i].id != targetId ==>
      r[i] == boards[i]
    ensures forall i :: 0 <= i < |boards| && boards[i].id == sourceId ==>
      |r[i].cards| == |boards[i].cards| - Seqs.CountOf(boards[i].cards, CardId, card.id)
    ensures forall i, j :: 0 <= i < |boards| && boards[i].id == sourceId && 0 <= j < |r[i].cards| ==>
      r[i].cards[j] in boards[i].cards && r[i].cards[j].id != card.id
    ensures forall i, j :: 0 <= i < |boards| && boards[i].id == sourceId && 0 <= j < |boards[i].cards| ==>
      boards[i].cards[j].id != card.id ==> boards[i].cards[j] in r[i].cards
    ensures forall i :: 0 <= i < |boards| && boards[i].id == sourceId ==>
      Seqs.IsSubsequence(r[i].cards, boards[i].cards)
    ensures forall i :: 0 <= i < |boards| && boards[i].id == sourceId ==>
      Seqs.CountOf(boards[i].cards, CardId, card.id) == 0 ==> r[i] == boards[i]
    ensures forall i :: 0 <= i < |boards| && boards[i].id == targetId && targetId != sourceId ==>
      r[i].cards == boards[i].cards + [card]
  {
    Seqs.Map(boards, b => MoveStep(b, card, sourceId, targetId))
  }

  /** `handleDrop`'s new boards: nothing tracked, or a drop on the source board, changes
      nothing; otherwise the tracked card moves from its source to the target. */
  function Drop(boards: seq<Board>, dragged: Option<CardRef>, targetId: int): (r: seq<Board>)
    ensures dragged.None? ==> r == boards
    ensures dragged.Some? && dragged.value.boardId == targetId ==> r == boards
    ensures dragged.Some? && dragged.value.boardId != targetId ==>
      r == MoveCard(boards, dragged.value.card, dragged.value.boardId, targetId)
  {
    match dragged
    case None => boards
    case Some(d) => if d.boardId == targetId then boards else MoveCard(boards, d.card, d.boardId, targetId)
  }
}
