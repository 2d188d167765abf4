// Laws relating the board store's handlers: undoing an addition, repeating an
// update, and what a drag-and-drop move does to the store's cards as a whole.
module BoardLaws {
  import opened Model
  import opened BoardStore
  import Seqs
  import JsText

  lemma {:induction false} AllCardsConcat(a: seq<Board>, b: seq<Board>)
    ensures AllCards(a + b) == AllCards(a) + AllCards(b)
  {
    if a == [] {
      assert a + b == b;
    } else {
      assert (a + b)[0] == a[0];
      assert (a + b)[1..] == a[1..] + b;
      AllCardsConcat(a[1..], b);
    }
  }

  /** Adding a board adds no card. */
  lemma AddBoardKeepsCards(boards: seq<Board>, title: string, id: int)
    ensures AllCards(AddBoard(boards, title, id)) == AllCards(boards)
  {
    if !JsText.AllWhiteSpace(title) {
      var b := Board(id, title, []);
      assert AddBoard(boards, title, id) == boards + [b];
      AllCardsConcat(boards, [b]);
      assert AllCards([b]) == [];
    }
  }

  /** Deleting a freshly added board by its id restores the store. */
  lemma DeleteBoardUndoesAddBoard(boards: seq<Board>, title: string, id: int)
    requires Seqs.CountOf(boards, BoardId, id) == 0
    ensures DeleteBoard(AddBoard(boards, title, id), id) == boards
  {
    if !JsText.AllWhiteSpace(title) {
      var b := Board(id, title, []);
      assert AddBoard(boards, title, id) == boards + [b];
      Seqs.WithoutConcat(boards, [b], BoardId, id);
      Seqs.WithoutAbsent(boards, BoardId, id);
      Seqs.CountOfConcat(boards, [b], BoardId, id);
      assert Seqs.Without([b], BoardId, id) == [];
    }
  }

  /** Deleting a board twice is deleting it once. */
  lemma DeleteBoardIdempotent(boards: seq<Board>, boardId: int)
    ensures DeleteBoard(DeleteBoard(boards, boardId), boardId) == DeleteBoard(boards, boardId)
  {
    var r := DeleteBoard(boards, boardId);
    assert Seqs.CountOf(r, BoardId, boardId) == 0;
  }

  lemma {:induction false} AppendCardCount(boards: seq<Board>, r: seq<Board>, boardId: int, cards: seq<Card>)
    requires |r| == |boards| == |cards|
    requires forall i :: 0 <= i < |boards| ==> r[i] == AppendCard(boards[i], boardId, cards[i])
    ensures |AllCards(r)| == |AllCards(boards)| + Seqs.CountOf(boards, BoardId, boardId)
  {
    if boards != [] {
      AppendCardCount(boards[1..], r[1..], boardId, cards[1..]);
    }
  }

  /** A truthy answer adds one card per board with the id: the store grows by that many. */
  lemma AddCardCount(boards: seq<Board>, boardId: int, title: string, cardIds: seq<int>)
    requires title != "" && |cardIds| == |boards|
    ensures |AllCards(AddCard(boards, boardId, Some(title), cardIds))|
         == |AllCards(boards)| + Seqs.CountOf(boards, BoardId, boardId)
  {
    var r := AddCard(boards, boardId, Some(title), cardIds);
    var cards := seq(|boards|, i requires 0 <= i < |boards| => NewCard(cardIds[i], title));
    AppendCardCount(boards, r, boardId, cards);
  }

  /** Deleting a freshly added card by its id restores the store, when every board with the
      id gave the new card that id (as when one board has it) and none of their cards had it. */
  lemma DeleteCardUndoesAddCard(boards: seq<Board>, boardId: int, title: string, cardIds: seq<int>, cardId: int)
    requires |cardIds| == |boards|
    requires forall i :: 0 <= i < |boards| && boards[i].id == boardId ==>
      cardIds[i] == cardId && Seqs.CountOf(boards[i].cards, CardId, cardId) == 0
    ensures DeleteCard(AddCard(boards, boardId, Some(title), cardIds), boardId, cardId) == boards
  {
    var added := AddCard(boards, boardId, Some(title), cardIds);
    var r := DeleteCard(added, boardId, cardId);
    forall i | 0 <= i < |boards| ensures r[i] == boards[i] {
      if boards[i].id == boardId && title != "" {
        var card := NewCard(cardId, title);
        assert r[i] == RemoveCard(added[i], boardId, cardId);
        Seqs.WithoutConcat(boards[i].cards, [card], CardId, cardId);
        Seqs.WithoutAbsent(boards[i].cards, CardId, cardId);
        assert Seqs.Without([card], CardId, cardId) == [];
      }
    }
  }

  /** Applying the same update twice is applying it once. */
  lemma UpdateCardIdempotent(boards: seq<Board>, boardId: int, cardId: int, u: CardUpdate)
    ensures UpdateCard(UpdateCard(boards, boardId, cardId, u), boardId, cardId, u)
         == UpdateCard(boards, boardId, cardId, u)
  {
    var once := UpdateCard(boards, boardId, cardId, u);
    var twice := UpdateCard(once, boardId, cardId, u);
    forall i | 0 <= i < |boards| ensures twice[i] == once[i] {
      if boards[i].id == boardId {
        forall j | 0 <= j < |boards[i].cards| ensures twice[i].cards[j] == once[i].cards[j] {
          assert Updated(boards[i].cards[j], cardId, u, once[i].cards[j]);
          assert Updated(once[i].cards[j], cardId, u, twice[i].cards[j]);
        }
      }
    }
  }

  /** Saving an editor whose fields were not changed leaves the store as it was, when every
      card it would update holds the same fields as the card the editor was opened on. */
  lemma SaveUneditedIsNoOp(boards: seq<Board>, boardId: int, c: Card)
    requires forall i, j :: 0 <= i < |boards| && boards[i].id == boardId && 0 <= j < |boards[i].cards| ==>
      boards[i].cards[j].id == c.id ==> boards[i].cards[j] == c
    ensures UpdateCard(boards, boardId, c.id,
                       EditorUpdate(c.title, c.description, c.priority, c.dueDate, c.tags)) == boards
  {
    var u := EditorUpdate(c.title, c.description, c.priority, c.dueDate, c.tags);
    var r := UpdateCard(boards, boardId, c.id, u);
    forall i | 0 <= i < |boards| ensures r[i] == boards[i] {
      if boards[i].id == boardId {
        forall j | 0 <= j < |boards[i].cards| ensures r[i].cards[j] == boards[i].cards[j] {
          assert Updated(boards[i].cards[j], c.id, u, r[i].cards[j]);
        }
      }
    }
  }

  /** The cards that a move takes out of the source boards. */
  function Taken(boards: seq<Board>, sourceId: int, cardId: int): multiset<Card> {
    if boards == [] then multiset{}
    else (if boards[0].id == sourceId then multiset(Seqs.Only(boards[0].cards, CardId, cardId))
          else multiset{})
         + Taken(boards[1..], sourceId, cardId)
  }

  /** One copy of `card` per board with the id: what a move adds to the target boards. */
  function Copies(boards: seq<Board>, boardId: int, card: Card): multiset<Card> {
    if boards == [] then multiset{}
    else (if boards[0].id == boardId then multiset{card} else multiset{}) + Copies(boards[1..], boardId, card)
  }

  lemma {:induction false} CopiesOfUnique(boards: seq<Board>, boardId: int, card: Card)
    requires Seqs.CountOf(boards, BoardId, boardId) <= 1
    ensures Copies(boards, boardId, card)
         == if Seqs.CountOf(boards, BoardId, boardId) == 1 then multiset{card} else multiset{}
  {
    if boards != [] {
      CopiesOfUnique(boards[1..], boardId, card);
    }
  }

  lemma {:induction false} MoveStepMultiset(boards: seq<Board>, r: seq<Board>, card: Card,
                                           sourceId: int, targetId: int)
    requires sourceId != targetId && |r| == |boards|
    requires forall i :: 0 <= i < |boards| ==> r[i] == MoveStep(boards[i], card, sourceId, targetId)
    ensures multiset(AllCards(r)) + Taken(boards, sourceId, card.id)
         == multiset(AllCards(boards)) + Copies(boards, targetId, card)
  {
    if boards != [] {
      var b := boards[0];
      MoveStepMultiset(boards[1..], r[1..], card, sourceId, targetId);
      var taken := if b.id == sourceId then multiset(Seqs.Only(b.cards, CardId, card.id)) else multiset{};
      var given := if b.id == targetId then multiset{card} else multiset{};
      assert multiset(r[0].cards) + taken == multiset(b.cards) + given by {
        if b.id == sourceId {
          Seqs.WithoutOnlySplit(b.cards, CardId, card.id);
        }
      }
      assert multiset(AllCards(r)) == multiset(r[0].cards) + multiset(AllCards(r[1..]));
      assert multiset(AllCards(boards)) == multiset(b.cards) + multiset(AllCards(boards[1..]));
      assert Taken(boards, sourceId, card.id) == taken + Taken(boards[1..], sourceId, card.id);
      assert Copies(boards, targetId, card) == given + Copies(boards[1..], targetId, card);
      Regroup(multiset(r[0].cards), multiset(AllCards(r[1..])), taken, Taken(boards[1..], sourceId, card.id),
              multiset(b.cards), multiset(AllCards(boards[1..])), given, Copies(boards[1..], targetId, card));
    }
  }

  lemma Regroup<T>(a: multiset<T>, x: multiset<T>, ta: multiset<T>, tx: multiset<T>,
                   b: multiset<T>, y: multiset<T>, gb: multiset<T>, gy: multiset<T>)
    requires a + ta == b + gb && x + tx == y + gy
    ensures (a + x) + (ta + tx) == (b + y) + (gb + gy)
  {
    forall o ensures ((a + x) + (ta + tx))[o] == ((b + y) + (gb + gy))[o] {
      assert (a + ta)[o] == (b + gb)[o];
      assert (x + tx)[o] == (y + gy)[o];
    }
  }

  lemma Cancel<T>(a: multiset<T>, b: multiset<T>, c: multiset<T>)
    requires a + c == b + c
    ensures a == b
  {
    forall o ensures a[o] == b[o] {
      assert (a + c)[o] == (b + c)[o];
    }
  }

  /** All inputs: after a move, the store's cards plus those taken from the source boards
      are the old cards plus one copy of the moved card per target board. */
  lemma MoveCardMultiset(boards: seq<Board>, card: Card, sourceId: int, targetId: int)
    requires sourceId != targetId
    ensures multiset(AllCards(MoveCard(boards, card, sourceId, targetId))) + Taken(boards, sourceId, card.id)
         == multiset(AllCards(boards)) + Copies(boards, targetId, card)
  {
    var r := MoveCard(boards, card, sourceId, targetId);
    MoveStepMultiset(boards, r, card, sourceId, targetId);
  }

  lemma {:induction false} TakenSize(boards: seq<Board>, sourceId: int, cardId: int)
    requires forall i :: 0 <= i < |boards| && boards[i].id == sourceId ==>
      Seqs.CountOf(boards[i].cards, CardId, cardId) == 1
    ensures |Taken(boards, sourceId, cardId)| == Seqs.CountOf(boards, BoardId, sourceId)
  {
    if boards != [] {
      TakenSize(boards[1..], sourceId, cardId);
    }
  }

  lemma {:induction false} TakenExactly(boards: seq<Board>, sourceId: int, card: Card)
    requires forall i :: 0 <= i < |boards| && boards[i].id == sourceId ==>
      Seqs.Only(boards[i].cards, CardId, card.id) == [card]
    ensures Taken(boards, sourceId, card.id) == Copies(boards, sourceId, card)
  {
    if boards != [] {
      TakenExactly(boards[1..], sourceId, card);
    }
  }

  /** A move between two distinct boards whose ids are unique, of a card whose id occurs
      once in the source, keeps the total number of cards. */
  lemma MoveCardKeepsCount(boards: seq<Board>, card: Card, sourceId: int, targetId: int)
    requires sourceId != targetId
    requires Seqs.CountOf(boards, BoardId, sourceId) == 1 && Seqs.CountOf(boards, BoardId, targetId) == 1
    requires forall i :: 0 <= i < |boards| && boards[i].id == sourceId ==>
      Seqs.CountOf(boards[i].cards, CardId, card.id) == 1
    ensures |AllCards(MoveCard(boards, card, sourceId, targetId))| == |AllCards(boards)|
  {
    var r := MoveCard(boards, card, sourceId, targetId);
    var taken := Taken(boards, sourceId, card.id);
    var copies := Copies(boards, targetId, card);
    MoveCardMultiset(boards, card, sourceId, targetId);
    assert multiset(AllCards(r)) + taken == multiset(AllCards(boards)) + copies;
    TakenSize(boards, sourceId, card.id);
    CopiesOfUnique(boards, targetId, card);
    assert |taken| == 1 == |copies|;
    assert |multiset(AllCards(r)) + taken| == |multiset(AllCards(r))| + 1;
    assert |multiset(AllCards(boards)) + copies| == |multiset(AllCards(boards))| + 1;
  }

  /** When the source holds the moved card itself, once, the move neither loses nor
      duplicates a card: the store holds the same cards as before. */
  lemma MoveCardKeepsCards(boards: seq<Board>, card: Card, sourceId: int, targetId: int)
    requires sourceId != targetId
    requires Seqs.CountOf(boards, BoardId, sourceId) == 1 && Seqs.CountOf(boards, BoardId, targetId) == 1
    requires forall i :: 0 <= i < |boards| && boards[i].id == sourceId ==>
      Seqs.Only(boards[i].cards, CardId, card.id) == [card]
    ensures multiset(AllCards(MoveCard(boards, card, sourceId, targetId))) == multiset(AllCards(boards))
  {
    var r := MoveCard(boards, card, sourceId, targetId);
    MoveCardMultiset(boards, card, sourceId, targetId);
    TakenExactly(boards, sourceId, card);
    CopiesOfUnique(boards, sourceId, card);
    CopiesOfUnique(boards, targetId, card);
    assert multiset(AllCards(r)) + multiset{card} == multiset(AllCards(boards)) + multiset{card};
    Cancel(multiset(AllCards(r)), multiset(AllCards(boards)), multiset{card});
  }

  /** The seed store: three boards with the distinct ids 1, 2 and 3 and three cards in all,
      so a move between two of its boards meets the hypotheses of the move laws. */
  lemma SeedStoreShape()
    ensures |SeedBoards| == 3 && |AllCards(SeedBoards)| == 3
    ensures forall k :: 1 <= k <= 3 ==> Seqs.CountOf(SeedBoards, BoardId, k) == 1
  {
    var s := SeedBoards;
    assert s[1..] == [s[1], s[2]] && s[1..][1..] == [s[2]] && s[1..][1..][1..] == [];
    assert AllCards(s[1..][1..]) == [];
    assert AllCards(s[1..]) == [BuildComponents];
    assert AllCards(s) == [DesignMockups, SetUpProject, BuildComponents];
    forall k | 1 <= k <= 3 ensures Seqs.CountOf(s, BoardId, k) == 1 {
      assert Seqs.CountOf(s[1..][1..][1..], BoardId, k) == 0;
    }
  }
}
