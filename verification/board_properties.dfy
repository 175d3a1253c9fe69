/**
 * Properties of the board mutations: card counts, the board-wide
 * uniqueness of card ids, order preservation of the delete filter, and the
 * three outcomes of a move (normal, no-op, missing target).
 */
module BoardProperties {
  import opened Wrappers
  import opened BoardStore

  /** Number of cards on the whole board. */
  function TotalCards(cols: seq<Column>): nat {
    if |cols| == 0 then 0 else |cols[0].cards| + TotalCards(cols[1..])
  }

  /** Number of cards with id `x` on the whole board. */
  function BoardCount(cols: seq<Column>, x: Id): nat {
    if |cols| == 0 then 0 else Count(cols[0].cards, x) + BoardCount(cols[1..], x)
  }

  /** Card ids are unique across the entire board, not just within a column. */
  ghost predicate UniqueCardIds(cols: seq<Column>) {
    forall x :: BoardCount(cols, x) <= 1
  }

  // ---------------------------------------------------------------------
  // Counting within one column
  // ---------------------------------------------------------------------

  lemma {:induction false} CountHolds(cards: seq<Card>, id: Id)
    ensures Holds(cards, id) <==> Count(cards, id) > 0
  {
    if |cards| > 0 {
      CountHolds(cards[1..], id);
      if cards[0].id != id && Holds(cards, id) {
        var i :| 0 <= i < |cards| && cards[i].id == id;
        assert cards[1..][i - 1].id == id;
      }
    }
  }

  lemma {:induction false} CountAppend(a: seq<Card>, b: seq<Card>, x: Id)
    ensures Count(a + b, x) == Count(a, x) + Count(b, x)
  {
    if |a| == 0 {
      assert a + b == b;
    } else {
      assert (a + b)[1..] == a[1..] + b;
      CountAppend(a[1..], b, x);
    }
  }

  lemma {:induction false} CountWithout(cards: seq<Card>, id: Id, x: Id)
    ensures Count(Without(cards, id), x) == if x == id then 0 else Count(cards, x)
  {
    if |cards| > 0 {
      CountWithout(cards[1..], id, x);
      if cards[0].id != id {
        assert ([cards[0]] + Without(cards[1..], id))[1..] == Without(cards[1..], id);
      }
    }
  }

  lemma {:induction false} CountReplace(cards: seq<Card>, i: nat, c: Card, x: Id)
    requires i < |cards|
    ensures Count(cards[i := c], x) ==
            Count(cards, x) - (if cards[i].id == x then 1 else 0) + (if c.id == x then 1 else 0)
  {
    if i == 0 {
      assert cards[i := c][1..] == cards[1..];
    } else {
      assert cards[i := c][1..] == cards[1..][i - 1 := c];
      CountReplace(cards[1..], i - 1, c, x);
    }
  }

  /** The delete filter keeps the relative order of what it keeps: filtering
      a concatenation is concatenating the filtered parts. */
  lemma {:induction false} WithoutConcat(a: seq<Card>, b: seq<Card>, id: Id)
    ensures Without(a + b, id) == Without(a, id) + Without(b, id)
  {
    if |a| == 0 {
      assert a + b == b;
    } else {
      assert (a + b)[1..] == a[1..] + b;
      WithoutConcat(a[1..], b, id);
    }
  }

  /** Filtering out an id no card has returns the sequence unchanged. */
  lemma {:induction false} WithoutAbsent(cards: seq<Card>, id: Id)
    requires !Holds(cards, id)
    ensures Without(cards, id) == cards
  {
    if |cards| > 0 {
      assert !Holds(cards[1..], id) by {
        forall i | 0 <= i < |cards[1..]| ensures cards[1..][i].id != id {
          assert cards[1..][i] == cards[i + 1];
        }
      }
      WithoutAbsent(cards[1..], id);
      assert cards[0].id != id;
      assert cards == [cards[0]] + cards[1..];
    }
  }

  // ---------------------------------------------------------------------
  // Counting over the board
  // ---------------------------------------------------------------------

  lemma {:induction false} TotalCardsUpdate(cols: seq<Column>, k: nat, c: Column)
    requires k < |cols|
    ensures TotalCards(cols[k := c]) == TotalCards(cols) - |cols[k].cards| + |c.cards|
  {
    if k == 0 {
      assert cols[k := c][1..] == cols[1..];
    } else {
      assert cols[k := c][1..] == cols[1..][k - 1 := c];
      TotalCardsUpdate(cols[1..], k - 1, c);
    }
  }

  lemma {:induction false} BoardCountUpdate(cols: seq<Column>, k: nat, c: Column, x: Id)
    requires k < |cols|
    ensures BoardCount(cols[k := c], x) == BoardCount(cols, x) - Count(cols[k].cards, x) + Count(c.cards, x)
  {
    if k == 0 {
      assert cols[k := c][1..] == cols[1..];
    } else {
      assert cols[k := c][1..] == cols[1..][k - 1 := c];
      BoardCountUpdate(cols[1..], k - 1, c, x);
    }
  }

  /** A column never holds more cards with an id than the whole board. */
  lemma ColumnCountBounded(cols: seq<Column>, k: nat, x: Id)
    requires k < |cols|
    ensures Count(cols[k].cards, x) <= BoardCount(cols, x)
  {
    BoardCountUpdate(cols, k, cols[k].(cards := []), x);
  }

  // ---------------------------------------------------------------------
  // Moves
  // ---------------------------------------------------------------------

  /** Filtering cards out of one column does not move any column, so the
      target found after the filter is the one found before it. */
  lemma FindColumnLayout(a: seq<Column>, b: seq<Column>, id: Id)
    requires SameLayout(a, b)
    ensures FindColumn(a, id) == FindColumn(b, id)
  {
  }

  /** Move, normal case: the card leaves its true source column S (with any
      duplicates of its id there), becomes the last card of the target
      column T, and every other column is untouched. */
  lemma MoveToExistingColumn(cols: seq<Column>, cardId: Id, toColumnId: Id)
    requires SourceColumn(cols, cardId).Some?
    requires cols[SourceColumn(cols, cardId).value].id != toColumnId
    requires FindColumn(cols, toColumnId).Some?
    ensures var s, t := SourceColumn(cols, cardId).value, FindColumn(cols, toColumnId).value;
            var card := cols[s].cards[IndexOfCard(cols[s].cards, cardId).value];
            var r := Moved(cols, cardId, toColumnId);
            && s != t && card.id == cardId
            && |r| == |cols|
            && !Holds(r[s].cards, cardId)
            && r[s].cards == Without(cols[s].cards, cardId)
            && r[t].cards == cols[t].cards + [card]
            && (forall j :: 0 <= j < |cols| && j != s && j != t ==> r[j] == cols[j])
            && TotalCards(r) == TotalCards(cols) + 1 - Count(cols[s].cards, cardId)
  {
    var s := SourceColumn(cols, cardId).value;
    var card := cols[s].cards[IndexOfCard(cols[s].cards, cardId).value];
    var emptied := cols[s := cols[s].(cards := Without(cols[s].cards, cardId))];
    FindColumnLayout(cols, emptied, toColumnId);
    var t := FindColumn(cols, toColumnId).value;
    TotalCardsUpdate(cols, s, emptied[s]);
    TotalCardsUpdate(emptied, t, emptied[t].(cards := emptied[t].cards + [card]));
    CountHolds(Without(cols[s].cards, cardId), cardId);
    CountWithout(cols[s].cards, cardId, cardId);
  }

  /** Move, no-op: a card no column holds, or a card whose true source
      column already has the target id, leaves the board as it was. */
  lemma MoveNoOp(cols: seq<Column>, cardId: Id, toColumnId: Id)
    requires SourceColumn(cols, cardId).None? || cols[SourceColumn(cols, cardId).value].id == toColumnId
    ensures Moved(cols, cardId, toColumnId) == cols
  {
  }

  /** Move, missing target: the card and every duplicate of its id in the
      source column are removed and placed nowhere, so the board loses cards. */
  lemma MoveToMissingColumn(cols: seq<Column>, cardId: Id, toColumnId: Id)
    requires SourceColumn(cols, cardId).Some?
    requires FindColumn(cols, toColumnId).None?
    ensures var s := SourceColumn(cols, cardId).value;
            var r := Moved(cols, cardId, toColumnId);
            && OthersUnchanged(cols, r, s)
            && r[s].cards == Without(cols[s].cards, cardId)
            && BoardCount(r, cardId) == BoardCount(cols, cardId) - Count(cols[s].cards, cardId)
            && TotalCards(r) == TotalCards(cols) - Count(cols[s].cards, cardId)
            && TotalCards(r) < TotalCards(cols)
  {
    var s := SourceColumn(cols, cardId).value;
    var emptied := cols[s := cols[s].(cards := Without(cols[s].cards, cardId))];
    FindColumnLayout(cols, emptied, toColumnId);
    TotalCardsUpdate(cols, s, emptied[s]);
    BoardCountUpdate(cols, s, emptied[s], cardId);
    CountWithout(cols[s].cards, cardId, cardId);
    CountHolds(cols[s].cards, cardId);
  }

  /** How many cards with id `x` a move leaves on the board. */
  lemma MoveBoardCount(cols: seq<Column>, cardId: Id, toColumnId: Id, x: Id)
    requires SourceColumn(cols, cardId).Some?
    requires cols[SourceColumn(cols, cardId).value].id != toColumnId
    ensures var s := SourceColumn(cols, cardId).value;
            var placed := if FindColumn(cols, toColumnId).Some? then 1 else 0;
            BoardCount(Moved(cols, cardId, toColumnId), x) ==
              if x == cardId then BoardCount(cols, x) - Count(cols[s].cards, x) + placed
              else BoardCount(cols, x)
  {
    var s := SourceColumn(cols, cardId).value;
    var card := cols[s].cards[IndexOfCard(cols[s].cards, cardId).value];
    var emptied := cols[s := cols[s].(cards := Without(cols[s].cards, cardId))];
    FindColumnLayout(cols, emptied, toColumnId);
    BoardCountUpdate(cols, s, emptied[s], x);
    CountWithout(cols[s].cards, cardId, x);
    if FindColumn(cols, toColumnId).Some? {
      var t := FindColumn(cols, toColumnId).value;
      BoardCountUpdate(emptied, t, emptied[t].(cards := emptied[t].cards + [card]), x);
      CountAppend(emptied[t].cards, [card], x);
    }
  }

  /** On a board whose card ids are unique, a move keeps them unique, and a
      move to an existing column keeps the total number of cards. */
  lemma MoveKeepsUniqueIds(cols: seq<Column>, cardId: Id, toColumnId: Id)
    requires UniqueCardIds(cols)
    ensures UniqueCardIds(Moved(cols, cardId, toColumnId))
    ensures FindColumn(cols, toColumnId).Some? ==> TotalCards(Moved(cols, cardId, toColumnId)) == TotalCards(cols)
  {
    var src := SourceColumn(cols, cardId);
    if src.Some? && cols[src.value].id != toColumnId {
      var s := src.value;
      CountHolds(cols[s].cards, cardId);
      ColumnCountBounded(cols, s, cardId);
      assert BoardCount(cols, cardId) <= 1;
      forall x ensures BoardCount(Moved(cols, cardId, toColumnId), x) <= 1 {
        MoveBoardCount(cols, cardId, toColumnId, x);
      }
      if FindColumn(cols, toColumnId).Some? {
        MoveToExistingColumn(cols, cardId, toColumnId);
      }
    }
  }

  // ---------------------------------------------------------------------
  // Create, update, delete, reorder
  // ---------------------------------------------------------------------

  /** `card_created` adds exactly one card, with the given id, when the
      column exists. */
  lemma CreateCounts(cols: seq<Column>, columnId: Id, card: Card, x: Id)
    ensures var added := if FindColumn(cols, columnId).Some? then 1 else 0;
            && TotalCards(Created(cols, columnId, card)) == TotalCards(cols) + added
            && BoardCount(Created(cols, columnId, card), x) ==
                 BoardCount(cols, x) + (if card.id == x then added else 0)
  {
    if FindColumn(cols, columnId).Some? {
      var k := FindColumn(cols, columnId).value;
      var c := cols[k].(cards := cols[k].cards + [card]);
      TotalCardsUpdate(cols, k, c);
      BoardCountUpdate(cols, k, c, x);
      CountAppend(cols[k].cards, [card], x);
    }
  }

  /** `card_created` keeps card ids unique when the new id is not on the board. */
  lemma CreateFreshKeepsUniqueIds(cols: seq<Column>, columnId: Id, card: Card)
    requires UniqueCardIds(cols)
    requires BoardCount(cols, card.id) == 0
    ensures UniqueCardIds(Created(cols, columnId, card))
  {
    forall x ensures BoardCount(Created(cols, columnId, card), x) <= 1 {
      CreateCounts(cols, columnId, card, x);
    }
  }

  lemma SingletonCounts(a: Card, x: Id)
    ensures Count([a], x) == if a.id == x then 1 else 0
    ensures BoardCount([Column(Num(1), "Orders", None, [a], false)], x) == Count([a], x)
  {
  }

  /** The server does not check the new card's id: creating, in an existing
      column, a card whose id is already on the board breaks the uniqueness
      of card ids. */
  lemma CreateMayDuplicateIds(cols: seq<Column>, columnId: Id, card: Card)
    requires FindColumn(cols, columnId).Some?
    requires BoardCount(cols, card.id) >= 1
    ensures BoardCount(Created(cols, columnId, card), card.id) == BoardCount(cols, card.id) + 1
    ensures !UniqueCardIds(Created(cols, columnId, card))
  {
    CreateCounts(cols, columnId, card, card.id);
  }

  /** A board with unique card ids on which such a create happens. */
  lemma CreateDuplicateExample()
    ensures var cols := [Column(Num(1), "Orders", None, [Card(Num(7), "a", [])], false)];
            var r := Created(cols, Num(1), Card(Num(7), "b", []));
            UniqueCardIds(cols) && !UniqueCardIds(r)
  {
    var a := Card(Num(7), "a", []);
    var cols := [Column(Num(1), "Orders", None, [a], false)];
    forall x ensures BoardCount(cols, x) <= 1 {
      SingletonCounts(a, x);
    }
    SingletonCounts(a, Num(7));
    CreateCounts(cols, Num(1), Card(Num(7), "b", []), Num(7));
  }

  /** `card_updated` replaces a card by one with the same id, so it changes
      neither the number of cards nor the number of cards with any id. */
  lemma UpdateKeepsCounts(cols: seq<Column>, columnId: Id, card: Card, x: Id)
    ensures TotalCards(Updated(cols, columnId, card)) == TotalCards(cols)
    ensures BoardCount(Updated(cols, columnId, card), x) == BoardCount(cols, x)
  {
    var col := FindColumn(cols, columnId);
    if col.Some? && Holds(cols[col.value].cards, card.id) {
      var k := col.value;
      var i := IndexOfCard(cols[k].cards, card.id).value;
      var c := cols[k].(cards := cols[k].cards[i := card]);
      TotalCardsUpdate(cols, k, c);
      BoardCountUpdate(cols, k, c, x);
      CountReplace(cols[k].cards, i, card, x);
    }
  }

  /** `card_updated` keeps card ids unique. */
  lemma UpdateKeepsUniqueIds(cols: seq<Column>, columnId: Id, card: Card)
    requires UniqueCardIds(cols)
    ensures UniqueCardIds(Updated(cols, columnId, card))
  {
    forall x ensures BoardCount(Updated(cols, columnId, card), x) <= 1 {
      UpdateKeepsCounts(cols, columnId, card, x);
    }
  }

  /** `card_deleted` removes every card with the id from the named column
      (and no card with another id), keeping the order of the rest. */
  lemma DeleteCounts(cols: seq<Column>, columnId: Id, cardId: Id, x: Id)
    requires FindColumn(cols, columnId).Some?
    ensures var k := FindColumn(cols, columnId).value;
            && TotalCards(Deleted(cols, columnId, cardId)) == TotalCards(cols) - Count(cols[k].cards, cardId)
            && BoardCount(Deleted(cols, columnId, cardId), x) ==
                 if x == cardId then BoardCount(cols, x) - Count(cols[k].cards, x) else BoardCount(cols, x)
  {
    var k := FindColumn(cols, columnId).value;
    var c := cols[k].(cards := Without(cols[k].cards, cardId));
    TotalCardsUpdate(cols, k, c);
    BoardCountUpdate(cols, k, c, x);
    CountWithout(cols[k].cards, cardId, x);
  }

  /** `card_deleted` keeps card ids unique. */
  lemma DeleteKeepsUniqueIds(cols: seq<Column>, columnId: Id, cardId: Id)
    requires UniqueCardIds(cols)
    ensures UniqueCardIds(Deleted(cols, columnId, cardId))
  {
    if FindColumn(cols, columnId).Some? {
      forall x ensures BoardCount(Deleted(cols, columnId, cardId), x) <= 1 {
        DeleteCounts(cols, columnId, cardId, x);
      }
    }
  }

  /** `card_reordered` trusts the client: the named column's size becomes
      that of the supplied sequence, whatever the sequence holds. */
  lemma ReorderCounts(cols: seq<Column>, columnId: Id, cards: seq<Card>)
    requires FindColumn(cols, columnId).Some?
    ensures var k := FindColumn(cols, columnId).value;
            TotalCards(Reordered(cols, columnId, cards)) == TotalCards(cols) - |cols[k].cards| + |cards|
  {
  }

  /** Two positions holding the same id make that id's count at least two. */
  lemma {:induction false} CountTwo(cards: seq<Card>, i: nat, j: nat)
    requires i < j < |cards| && cards[i].id == cards[j].id
    ensures Count(cards, cards[i].id) >= 2
  {
    if i > 0 {
      CountTwo(cards[1..], i - 1, j - 1);
    } else {
      assert cards[1..][j - 1] == cards[j];
      CountHolds(cards[1..], cards[j].id);
    }
  }

  /** The server does not check the client's sequence: reordering an existing
      column with a sequence in which two positions share an id, for
      instance one card twice, is accepted and breaks the uniqueness of card
      ids, whatever the board held before. */
  lemma ReorderMayDuplicateIds(cols: seq<Column>, columnId: Id, cards: seq<Card>, i: nat, j: nat)
    requires FindColumn(cols, columnId).Some?
    requires i < j < |cards| && cards[i].id == cards[j].id
    ensures BoardCount(Reordered(cols, columnId, cards), cards[i].id) >= 2
    ensures !UniqueCardIds(Reordered(cols, columnId, cards))
  {
    var k := FindColumn(cols, columnId).value;
    CountTwo(cards, i, j);
    ColumnCountBounded(Reordered(cols, columnId, cards), k, cards[i].id);
  }

  /** A board with unique card ids on which such a reorder happens. */
  lemma ReorderDuplicateExample()
    ensures var a := Card(Num(7), "a", []);
            var cols := [Column(Num(1), "Orders", None, [a], false)];
            UniqueCardIds(cols) && !UniqueCardIds(Reordered(cols, Num(1), [a, a]))
  {
    var a := Card(Num(7), "a", []);
    var cols := [Column(Num(1), "Orders", None, [a], false)];
    forall x ensures BoardCount(cols, x) <= 1 {
      SingletonCounts(a, x);
    }
    var r := Reordered(cols, Num(1), [a, a]);
    SingletonCounts(a, Num(7));
    BoardCountUpdate(cols, 0, r[0], Num(7));
    assert r == cols[0 := r[0]];
    CountAppend([a], [a], Num(7));
    assert [a] + [a] == [a, a];
  }

  // ---------------------------------------------------------------------
  // The template
  // ---------------------------------------------------------------------

  lemma {:induction false} NoCardsCounts(cols: seq<Column>, x: Id)
    requires forall j :: 0 <= j < |cols| ==> cols[j].cards == []
    ensures TotalCards(cols) == 0 && BoardCount(cols, x) == 0
  {
    if |cols| > 0 {
      NoCardsCounts(cols[1..], x);
    }
  }

  /** The default board holds no cards, so its card ids are trivially unique. */
  lemma DefaultBoardEmpty()
    ensures TotalCards(DefaultColumns()) == 0
    ensures UniqueCardIds(DefaultColumns())
  {
    var d := DefaultColumns();
    forall x ensures BoardCount(d, x) == 0 {
      NoCardsCounts(d, x);
    }
    NoCardsCounts(d, Num(0));
  }
}
