// Client code driving the App and CardEditor classes through whole user
// interactions, checking what their contracts let a caller conclude. Titles,
// tags and cards are parameters, so the conclusions hold for every such input.
module Scenarios {
  import opened Model
  import opened AppState
  import JsText

  /** The three-column layout of the seed store, with any cards in it. */
  function Columns(todo: seq<Card>, doing: seq<Card>, done: seq<Card>): seq<Board> {
    [Board(1, "Por Hacer", todo), Board(2, "En Progreso", doing), Board(3, "Completado", done)]
  }

  /** Add a board with a title that does not start with white space, then a card to it:
      the new board is last, holding exactly the new card with the defaults. */
  method AddBoardThenCard(saved: seq<Board>, title: string, cardTitle: string)
    requires title != [] && !JsText.IsWhiteSpace(title[0])
    requires cardTitle != []
    requires forall i :: 0 <= i < |saved| ==> saved[i].id != 100
  {
    var app := new App(Some(saved));
    app.newBoardTitle := title;
    app.AddBoard(100);
    assert app.newBoardTitle == "" && !app.showNewBoard;
    app.AddCard(100, Some(cardTitle), seq(|saved| + 1, _ => 101));
    assert |app.boards| == |saved| + 1;
    assert app.boards[|saved|] == Board(100, title, [Card(101, cardTitle, "", Medium, "", [])]);
    assert app.boards[..|saved|] == saved;
  }

  /** Two boards sharing an id both get the new card, each under the clock reading taken
      when the callback reached it. */
  method AddCardToTwinBoards(cardTitle: string)
    requires cardTitle != []
  {
    var app := new App(Some([Board(5, "A", []), Board(5, "B", [])]));
    app.AddCard(5, Some(cardTitle), [7, 8]);
    assert app.boards[0].cards == [Card(7, cardTitle, "", Medium, "", [])];
    assert app.boards[1].cards == [Card(8, cardTitle, "", Medium, "", [])];
  }

  /** A title of blanks adds nothing and leaves the input as typed. */
  method BlankBoardTitle(saved: seq<Board>, title: string)
    requires JsText.AllWhiteSpace(title)
  {
    var app := new App(Some(saved));
    app.newBoardTitle := title;
    app.AddBoard(100);
    assert app.boards == saved && app.newBoardTitle == title;
  }

  /** Drag the first card of "Por Hacer" and drop it on "En Progreso": it leaves the
      first column, goes last in the second, and the drag state is cleared. */
  method MoveFirstCard(c1: Card, c2: Card, c3: Card)
    requires c1.id != c2.id
  {
    var app := new App(Some(Columns([c1, c2], [c3], [])));
    app.HandleDragStart(c1, 1);
    app.HandleDragOver(2);
    app.HandleDrop(2);
    assert app.boards[0].cards == [c2];
    assert app.boards[1].cards == [c3, c1];
    assert app.boards[2].cards == [];
    assert app.draggedCard.None? && app.draggedOverBoard.None?;
  }

  /** Dropping a card on its own board is a cancel. */
  method DropOnSourceBoard(saved: seq<Board>, card: Card)
  {
    var app := new App(Some(saved));
    app.HandleDragStart(card, 2);
    app.HandleDrop(2);
    assert app.boards == saved;
    assert app.draggedCard.None? && app.draggedOverBoard.None?;
  }

  /** Dropping on an id no board has removes the card from its source and adds it
      nowhere: the store loses the card. */
  method DropOnMissingBoard(c1: Card, c2: Card, c3: Card)
    requires c1.id != c2.id
  {
    var app := new App(Some(Columns([c1, c2], [c3], [])));
    app.HandleDragStart(c1, 1);
    app.HandleDrop(99);
    assert app.boards[0].cards == [c2];
    assert app.boards[1].cards == [c3] && app.boards[2].cards == [];
  }

  /** A new tag without surrounding blanks joins the working copy and clears the input. */
  method AddNewTag(card: Card, tag: string)
    requires tag != [] && !JsText.IsWhiteSpace(tag[0]) && !JsText.IsWhiteSpace(tag[|tag| - 1])
    requires tag !in card.tags
  {
    var editor := new CardEditor(card, 1);
    editor.newTag := tag;
    JsText.TrimUnpadded(tag);
    editor.AddTag();
    assert editor.tags == card.tags + [tag] && editor.newTag == "";
  }

  /** A tag the card already has is refused and stays in the input. */
  method AddExistingTag(card: Card, k: nat)
    requires k < |card.tags|
    requires card.tags[k] != [] && !JsText.IsWhiteSpace(card.tags[k][0])
    requires !JsText.IsWhiteSpace(card.tags[k][|card.tags[k]| - 1])
  {
    var editor := new CardEditor(card, 1);
    editor.newTag := card.tags[k];
    JsText.TrimUnpadded(card.tags[k]);
    editor.AddTag();
    assert editor.tags == card.tags && editor.newTag == card.tags[k];
  }

  /** Removing the card's one tag leaves none. */
  method RemoveOnlyTag(card: Card, tag: string)
    requires card.tags == [tag]
  {
    var editor := new CardEditor(card, 1);
    editor.RemoveTag(tag);
    assert editor.tags == [];
  }

  /** Saving writes the working tags over the card, under the same id, and closes. */
  method SaveTags(c1: Card, c2: Card, c3: Card, tags: seq<string>)
    requires c1.id != c2.id
  {
    var app := new App(Some(Columns([c1, c2], [c3], [])));
    app.OpenEditor(c2, 1);
    var editor := new CardEditor(c2, 1);
    editor.tags := tags;
    editor.Save(app);
    assert app.editingCard.None?;
    assert app.boards[0].cards == [c1, c2.(tags := tags)];
  }
}
