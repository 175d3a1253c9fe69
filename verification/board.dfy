/**
 * The board store of the kanban server: the shared board (an ordered
 * sequence of columns, each holding an ordered sequence of cards), the
 * lookups the message handler performs on it, the effect of each board
 * mutation as a function of the old board, the fixed default template, and
 * the `Board` object whose methods perform those mutations in place.
 */
module BoardStore {
  import opened Wrappers

  /** A JSON scalar used as an identifier. Ids are compared with `===`, so
      the number 1 and the string "1" are different ids. */
  datatype Id = Num(n: int) | Str(s: string)

  /** Fields a client attaches to a card beyond `id` and `title`; the server
      stores and forwards them without looking at them. */
  type Fields = seq<(string, string)>

  datatype Card = Card(id: Id, title: string, extra: Fields)

  /** A workflow stage. `wipLimit` is `None` for a column with no limit;
      `collapsed` is presentation state only. */
  datatype Column = Column(id: Id, title: string, wipLimit: Option<int>, cards: seq<Card>, collapsed: bool)

  // ---------------------------------------------------------------------
  // Lookups (`find`, `findIndex`, `filter` in the handler)
  // ---------------------------------------------------------------------

  /** Some card in `cards` has id `id`. */
  predicate Holds(cards: seq<Card>, id: Id) {
    exists i :: 0 <= i < |cards| && cards[i].id == id
  }

  /** `cards.findIndex(c => c.id === id)`: the first position of a card with
      that id, `None` where the source gets -1. */
  function IndexOfCard(cards: seq<Card>, id: Id): (r: Option<nat>)
    ensures r.None? <==> !Holds(cards, id)
    ensures r.Some? ==> r.value < |cards| && cards[r.value].id == id
    ensures r.Some? ==> forall i :: 0 <= i < r.value ==> cards[i].id != id
  {
    if |cards| == 0 then None
    else if cards[0].id == id then Some(0)
    else
      match IndexOfCard(cards[1..], id)
      case None =>
        assert forall i :: 1 <= i < |cards| ==> cards[i] == cards[1..][i - 1];
        None
      case Some(i) => Some(i + 1)
  }

  /** `columns.find(col => col.id === id)`, as the position of the first
      column with that id. */
  function FindColumn(cols: seq<Column>, id: Id): (r: Option<nat>)
    ensures r.None? <==> forall j :: 0 <= j < |cols| ==> cols[j].id != id
    ensures r.Some? ==> r.value < |cols| && cols[r.value].id == id
    ensures r.Some? ==> forall j :: 0 <= j < r.value ==> cols[j].id != id
  {
    if |cols| == 0 then None
    else if cols[0].id == id then Some(0)
    else
      match FindColumn(cols[1..], id)
      case None =>
        assert forall j :: 1 <= j < |cols| ==> cols[j] == cols[1..][j - 1];
        None
      case Some(j) => Some(j + 1)
  }

  /** The true source column of a move: the first column, in board order,
      holding a card with id `cardId`. */
  function SourceColumn(cols: seq<Column>, cardId: Id): (r: Option<nat>)
    ensures r.None? <==> forall j :: 0 <= j < |cols| ==> !Holds(cols[j].cards, cardId)
    ensures r.Some? ==> r.value < |cols| && Holds(cols[r.value].cards, cardId)
    ensures r.Some? ==> forall j :: 0 <= j < r.value ==> !Holds(cols[j].cards, cardId)
  {
    if |cols| == 0 then None
    else if IndexOfCard(cols[0].cards, cardId).Some? then Some(0)
    else
      match SourceColumn(cols[1..], cardId)
      case None =>
        assert forall j :: 1 <= j < |cols| ==> cols[j] == cols[1..][j - 1];
        None
      case Some(j) => Some(j + 1)
  }

  /** Number of cards in `cards` with id `id`. */
  function Count(cards: seq<Card>, id: Id): nat {
    if |cards| == 0 then 0
    else (if cards[0].id == id then 1 else 0) + Count(cards[1..], id)
  }

  /** `cards.filter(c => c.id !== id)`. */
  function Without(cards: seq<Card>, id: Id): (r: seq<Card>)
    ensures |r| == |cards| - Count(cards, id)
    ensures forall c :: c in r ==> c in cards && c.id != id
    ensures forall c :: c in cards && c.id != id ==> c in r
  {
    if |cards| == 0 then []
    else if cards[0].id == id then Without(cards[1..], id)
    else [cards[0]] + Without(cards[1..], id)
  }

  // ---------------------------------------------------------------------
  // Effect of each mutation on the board
  // ---------------------------------------------------------------------

  /** `after` has the columns of `before`, in the same order, with the same
      ids, titles, limits and collapsed flags: only card sequences differ. */
  predicate SameLayout(before: seq<Column>, after: seq<Column>) {
    |after| == |before| &&
    forall j :: 0 <= j < |before| ==> after[j] == before[j].(cards := after[j].cards)
  }

  /** Every column other than the one at position `k` is unchanged. */
  predicate OthersUnchanged(before: seq<Column>, after: seq<Column>, k: nat) {
    |after| == |before| &&
    forall j :: 0 <= j < |before| && j != k ==> after[j] == before[j]
  }

  /** The board after a card move: the card is taken from its true source
      column (every card with its id is filtered out there) and pushed onto
      the first column with id `toColumnId`, if there is one. The move is
      skipped when no column holds the card or its source already has the
      target id. The client's `fromColumnId` plays no part. */
  function Moved(cols: seq<Column>, cardId: Id, toColumnId: Id): (r: seq<Column>)
    ensures SameLayout(cols, r)
  {
    match SourceColumn(cols, cardId)
    case None => cols
    case Some(s) =>
      if cols[s].id == toColumnId then cols
      else
        var card := cols[s].cards[IndexOfCard(cols[s].cards, cardId).value];
        var emptied := cols[s := cols[s].(cards := Without(cols[s].cards, cardId))];
        match FindColumn(emptied, toColumnId)
        case None => emptied
        case Some(t) => emptied[t := emptied[t].(cards := emptied[t].cards + [card])]
  }

  /** The board after `card_created`: the card is pushed onto the end of the
      first column with id `columnId`; an unknown column changes nothing. */
  function Created(cols: seq<Column>, columnId: Id, card: Card): (r: seq<Column>)
    ensures SameLayout(cols, r)
    ensures FindColumn(cols, columnId).None? ==> r == cols
    ensures FindColumn(cols, columnId).Some? ==>
              var k := FindColumn(cols, columnId).value;
              OthersUnchanged(cols, r, k) &&
              |r[k].cards| == |cols[k].cards| + 1 &&
              r[k].cards[..|cols[k].cards|] == cols[k].cards &&
              r[k].cards[|cols[k].cards|] == card
  {
    match FindColumn(cols, columnId)
    case None => cols
    case Some(k) => cols[k := cols[k].(cards := cols[k].cards + [card])]
  }

  /** The board after `card_updated`: in the first column with id `columnId`,
      the first card whose id is `card.id` is replaced by `card` at the same
      position; an unknown column or card id changes nothing. */
  function Updated(cols: seq<Column>, columnId: Id, card: Card): (r: seq<Column>)
    ensures SameLayout(cols, r)
    ensures FindColumn(cols, columnId).None? ==> r == cols
    ensures FindColumn(cols, columnId).Some? ==>
              var k := FindColumn(cols, columnId).value;
              && (!Holds(cols[k].cards, card.id) ==> r == cols)
              && (Holds(cols[k].cards, card.id) ==>
                    var i := IndexOfCard(cols[k].cards, card.id).value;
                    && OthersUnchanged(cols, r, k)
                    && |r[k].cards| == |cols[k].cards|
                    && r[k].cards[i] == card
                    && forall p :: 0 <= p < |cols[k].cards| && p != i ==> r[k].cards[p] == cols[k].cards[p])
  {
    match FindColumn(cols, columnId)
    case None => cols
    case Some(k) =>
      match IndexOfCard(cols[k].cards, card.id)
      case None => cols
      case Some(i) => cols[k := cols[k].(cards := cols[k].cards[i := card])]
  }

  /** The board after `card_deleted`: every card with id `cardId` is filtered
      out of the first column with id `columnId`; other columns are untouched. */
  function Deleted(cols: seq<Column>, columnId: Id, cardId: Id): (r: seq<Column>)
    ensures SameLayout(cols, r)
    ensures FindColumn(cols, columnId).None? ==> r == cols
    ensures FindColumn(cols, columnId).Some? ==>
              var k := FindColumn(cols, columnId).value;
              OthersUnchanged(cols, r, k) &&
              !Holds(r[k].cards, cardId) &&
              r[k].cards == Without(cols[k].cards, cardId)
  {
    match FindColumn(cols, columnId)
    case None => cols
    case Some(k) => cols[k := cols[k].(cards := Without(cols[k].cards, cardId))]
  }

  /** The board after `card_reordered`: the first column with id `columnId`
      takes the client's sequence wholesale, whatever it holds. */
  function Reordered(cols: seq<Column>, columnId: Id, cards: seq<Card>): (r: seq<Column>)
    ensures SameLayout(cols, r)
    ensures FindColumn(cols, columnId).None? ==> r == cols
    ensures FindColumn(cols, columnId).Some? ==>
              var k := FindColumn(cols, columnId).value;
              OthersUnchanged(cols, r, k) && r[k].cards == cards
  {
    match FindColumn(cols, columnId)
    case None => cols
    case Some(k) => cols[k := cols[k].(cards := cards)]
  }

  // ---------------------------------------------------------------------
  // The default template
  // ---------------------------------------------------------------------

  /** An empty, expanded column. */
  function Stage(n: int, title: string, limit: Option<int>): Column {
    Column(Num(n), title, limit, [], false)
  }

  /** The fixed 21-column production board used when no snapshot can be
      loaded and by `reset_board`: ids 1 to 21 in order, no cards, nothing
      collapsed, and no WIP limit exactly on the first column (orders) and
      the last (warehouse). */
  function DefaultColumns(): (r: seq<Column>)
    ensures |r| == 21
    ensures forall j :: 0 <= j < |r| ==> r[j].id == Num(j + 1) && r[j].cards == [] && !r[j].collapsed
    ensures forall j :: 0 <= j < |r| ==> (r[j].wipLimit.None? <==> j == 0 || j == 20)
    ensures forall j :: 0 <= j < |r| && r[j].wipLimit.Some? ==> r[j].wipLimit.value > 0
  {
    [ Stage(1, "Заказы", None),
      Stage(2, "Печать KBA", Some(3)),
      Stage(3, "Печать Roland", Some(3)),
      Stage(4, "Тиснение", Some(2)),
      Stage(5, "УФ", Some(2)),
      Stage(6, "Ламинация", Some(2)),
      Stage(7, "Кашировка", Some(2)),
      Stage(8, "Резка", Some(3)),
      Stage(9, "Конгрев", Some(2)),
      Stage(10, "Высечка", Some(2)),
      Stage(11, "Вырубка БРАУЗ", Some(2)),
      Stage(12, "Вырубка ЦЕНТУРИОН", Some(2)),
      Stage(13, "Выборка", Some(2)),
      Stage(14, "Пленка", Some(2)),
      Stage(15, "Окошки", Some(2)),
      Stage(16, "Склейка", Some(3)),
      Stage(17, "Сверловка", Some(2)),
      Stage(18, "Брошюровка", Some(2)),
      Stage(19, "Подрезка", Some(3)),
      Stage(20, "Упаковка", Some(4)),
      Stage(21, "Склад", None) ]
  }

  // ---------------------------------------------------------------------
  // The board object
  // ---------------------------------------------------------------------

  /** The canonical in-memory board. Each mutation changes `columns` in
      place; its postcondition ties the new board to the effect function
      above and reports whether the handler goes on to save and broadcast. */
  class Board {
    var columns: seq<Column>

    /** Startup load. `snapshot` is the parsed snapshot file, or `None` when
        the file is missing or cannot be read or parsed. */
    constructor (snapshot: Option<seq<Column>>)
      ensures columns == if snapshot.Some? then snapshot.value else DefaultColumns()
    {
      columns := if snapshot.Some? then snapshot.value else DefaultColumns();
    }

    /** The scanning loop of a move: the first column holding the card. */
    method FindSource(cardId: Id) returns (source: Option<nat>)
      ensures source.Some? ==> source.value < |columns| && Holds(columns[source.value].cards, cardId)
      ensures source.Some? ==> forall j :: 0 <= j < source.value ==> !Holds(columns[j].cards, cardId)
      ensures source.None? ==> forall j :: 0 <= j < |columns| ==> !Holds(columns[j].cards, cardId)
      ensures source == SourceColumn(columns, cardId)
    {
      source := None;
      var i := 0;
      while i < |columns|
        invariant 0 <= i <= |columns|
        invariant source == None
        invariant forall j :: 0 <= j < i ==> !Holds(columns[j].cards, cardId)
      {
        var cardIndex := IndexOfCard(columns[i].cards, cardId);
        if cardIndex.Some? {
          source := Some(i);
          break;
        }
        i := i + 1;
      }
    }

    /** `card_moved`: moves the card out of the column that really holds it;
        `fromColumnId` is accepted and ignored. */
    method MoveCard(cardId: Id, fromColumnId: Id, toColumnId: Id)
      modifies this
      ensures columns == Moved(old(columns), cardId, toColumnId)
    {
      var source := FindSource(cardId);
      if source.Some? && columns[source.value].id != toColumnId {
        var s := source.value;
        var card := columns[s].cards[IndexOfCard(columns[s].cards, cardId).value];
        columns := columns[s := columns[s].(cards := Without(columns[s].cards, cardId))];
        var target := FindColumn(columns, toColumnId);
        if target.Some? {
          var t := target.value;
          columns := columns[t := columns[t].(cards := columns[t].cards + [card])];
        }
      }
    }

    /** `card_created`; `applied` is whether the column exists. */
    method CreateCard(columnId: Id, card: Card) returns (applied: bool)
      modifies this
      ensures applied <==> FindColumn(old(columns), columnId).Some?
      ensures columns == Created(old(columns), columnId, card)
    {
      var column := FindColumn(columns, columnId);
      applied := column.Some?;
      if applied {
        var k := column.value;
        columns := columns[k := columns[k].(cards := columns[k].cards + [card])];
      }
    }

    /** `card_updated`; `applied` is whether both the column and the card exist. */
    method UpdateCard(columnId: Id, card: Card) returns (applied: bool)
      modifies this
      ensures applied <==> FindColumn(old(columns), columnId).Some? &&
                           Holds(old(columns)[FindColumn(old(columns), columnId).value].cards, card.id)
      ensures columns == Updated(old(columns), columnId, card)
    {
      applied := false;
      var column := FindColumn(columns, columnId);
      if column.Some? {
        var k := column.value;
        var cardIndex := IndexOfCard(columns[k].cards, card.id);
        if cardIndex.Some? {
          columns := columns[k := columns[k].(cards := columns[k].cards[cardIndex.value := card])];
          applied := true;
        }
      }
    }

    /** `card_deleted`; `applied` is whether the column exists, whether or not
        it held the card. */
    method DeleteCard(columnId: Id, cardId: Id) returns (applied: bool)
      modifies this
      ensures applied <==> FindColumn(old(columns), columnId).Some?
      ensures columns == Deleted(old(columns), columnId, cardId)
    {
      var column := FindColumn(columns, columnId);
      applied := column.Some?;
      if applied {
        var k := column.value;
        columns := columns[k := columns[k].(cards := Without(columns[k].cards, cardId))];
      }
    }

    /** `card_reordered`; `applied` is whether the column exists. */
    method ReorderCards(columnId: Id, cards: seq<Card>) returns (applied: bool)
      modifies this
      ensures applied <==> FindColumn(old(columns), columnId).Some?
      ensures columns == Reordered(old(columns), columnId, cards)
    {
      var column := FindColumn(columns, columnId);
      applied := column.Some?;
      if applied {
        var k := column.value;
        columns := columns[k := columns[k].(cards := cards)];
      }
    }

    /** `reset_board`: the default template, whatever the board was. */
    method Reset()
      modifies this
      ensures columns == DefaultColumns()
    {
      columns := DefaultColumns();
    }
  }
}
