/**
 * The message router of the kanban server. Each inbound message is one case
 * of a closed datatype; handling it changes the board, the registry or the
 * alert and yields an ordered list of effects: saving the board snapshot, a
 * reply to the sender, or an event broadcast to every open connection.
 * `Step` is the router as a function of the old server state; the `Server`
 * object performs it on the board and registry objects.
 */
module Router {
  import opened Wrappers
  import opened BoardStore
  import opened BoardProperties
  import opened Sessions

  /** Inbound messages, one case per `type` the handler knows, plus the
      catch-all for any other `type`. `userId` is echoed, never checked. */
  datatype Message =
    | Join(user: User)
    | GetBoard
    | Move(userId: Option<Id>, cardId: Id, fromColumnId: Id, toColumnId: Id)
    | Create(userId: Option<Id>, columnId: Id, card: Card)
    | Update(userId: Option<Id>, columnId: Id, card: Card)
    | Delete(userId: Option<Id>, columnId: Id, cardId: Id)
    | Reorder(userId: Option<Id>, columnId: Id, cards: seq<Card>)
    | RaiseAlert(alertText: Option<string>)
    | ClearAlert
    | ResetBoard
    | Unrecognized(kind: string)

  /** Outbound events. */
  datatype Event =
    | BoardData(columns: seq<Column>)
    | UserJoined(user: User)
    | UsersList(users: seq<(Id, PublicUser)>)
    | UserLeft(leftId: Id)
    | CardMoved(userId: Option<Id>, cardId: Id, fromColumnId: Id, toColumnId: Id)
    | CardCreated(userId: Option<Id>, columnId: Id, card: Card)
    | CardUpdated(userId: Option<Id>, columnId: Id, card: Card)
    | CardDeleted(userId: Option<Id>, cardId: Id, columnId: Id)
    | CardReordered(userId: Option<Id>, columnId: Id, cards: seq<Card>)
    | AlertCreated(alertText: Option<string>)
    | AlertCleared

  /** One observable step of handling a message, in the order it happens. */
  datatype Effect = Save | Reply(event: Event) | Broadcast(event: Event)

  /** Everything the server keeps in memory. */
  datatype ServerState = ServerState(columns: seq<Column>, sessions: seq<Session>, alert: Option<string>)

  /** JavaScript truthiness of the alert: `null`, `undefined` and "" are false. */
  predicate AlertSet(alert: Option<string>) {
    alert.Some? && alert.value != ""
  }

  /** What a newly opened connection receives before it sends anything: the
      current alert, only when it is truthy. */
  function Greeting(alert: Option<string>): (r: seq<Event>)
    ensures r != [] <==> AlertSet(alert)
    ensures forall e :: e in r ==> e == AlertCreated(alert)
    ensures |r| <= 1
  {
    if AlertSet(alert) then [AlertCreated(alert)] else []
  }

  /** A board mutation that went through: save, then announce it. */
  function Announce(e: Event): seq<Effect> {
    [Save, Broadcast(e)]
  }

  /** The new state and the effects of handling `msg` from connection `conn`. */
  function Step(st: ServerState, conn: Conn, msg: Message): (r: (ServerState, seq<Effect>))
    requires KeysUnique(st.sessions)
    ensures KeysUnique(r.0.sessions)
    ensures r.0.columns != st.columns ==> r.1 != [] && r.1[0] == Save
    ensures Save in r.1 ==> r.1[0] == Save
    ensures r.0.sessions != st.sessions ==> msg.Join?
    ensures r.0.alert != st.alert ==> msg.RaiseAlert? || msg.ClearAlert?
    ensures msg.Unrecognized? ==> r == (st, [])
  {
    match msg
    case Join(user) =>
      var sessions := Joined(st.sessions, user, conn);
      (st.(sessions := sessions),
       [Reply(BoardData(st.columns)), Broadcast(UserJoined(user)), Broadcast(UsersList(Sanitized(sessions)))])
    case GetBoard =>
      (st, [Reply(BoardData(st.columns))])
    case Move(userId, cardId, fromColumnId, toColumnId) =>
      (st.(columns := Moved(st.columns, cardId, toColumnId)),
       Announce(CardMoved(userId, cardId, fromColumnId, toColumnId)))
    case Create(userId, columnId, card) =>
      if FindColumn(st.columns, columnId).None? then (st, [])
      else (st.(columns := Created(st.columns, columnId, card)), Announce(CardCreated(userId, columnId, card)))
    case Update(userId, columnId, card) =>
      if FindColumn(st.columns, columnId).None? then (st, [])
      else if !Holds(st.columns[FindColumn(st.columns, columnId).value].cards, card.id) then (st, [])
      else (st.(columns := Updated(st.columns, columnId, card)), Announce(CardUpdated(userId, columnId, card)))
    case Delete(userId, columnId, cardId) =>
      if FindColumn(st.columns, columnId).None? then (st, [])
      else (st.(columns := Deleted(st.columns, columnId, cardId)), Announce(CardDeleted(userId, cardId, columnId)))
    case Reorder(userId, columnId, cards) =>
      if FindColumn(st.columns, columnId).None? then (st, [])
      else (st.(columns := Reordered(st.columns, columnId, cards)), Announce(CardReordered(userId, columnId, cards)))
    case RaiseAlert(alertText) =>
      (st.(alert := alertText), [Broadcast(AlertCreated(alertText))])
    case ClearAlert =>
      (st.(alert := None), [Broadcast(AlertCleared)])
    case ResetBoard =>
      (st.(columns := DefaultColumns()), Announce(BoardData(DefaultColumns())))
    case Unrecognized(_) =>
      (st, [])
  }

  /** The new state and the effects of connection `conn` closing: its first
      registry entry, if any, is removed and its departure announced. */
  function Closed(st: ServerState, conn: Conn): (r: (ServerState, seq<Effect>))
    requires KeysUnique(st.sessions)
    ensures KeysUnique(r.0.sessions)
    ensures r.0.columns == st.columns && r.0.alert == st.alert
    ensures ConnIndex(st.sessions, conn).None? ==> r == (st, [])
    ensures ConnIndex(st.sessions, conn).Some? ==>
              var s := st.sessions[ConnIndex(st.sessions, conn).value];
              r.1 == [Broadcast(UserLeft(s.user.id))] && r.0.sessions == Disconnected(st.sessions, conn).0
  {
    match Disconnected(st.sessions, conn)
    case (rest, None) => (st, [])
    case (rest, Some(s)) => (st.(sessions := rest), [Broadcast(UserLeft(s.user.id))])
  }

  // ---------------------------------------------------------------------
  // Properties of the router
  // ---------------------------------------------------------------------

  /** `get_board` replies with the current board to the sender only; nothing
      changes and nothing is saved. */
  lemma GetBoardEffects(st: ServerState, conn: Conn)
    requires KeysUnique(st.sessions)
    ensures Step(st, conn, GetBoard) == (st, [Reply(BoardData(st.columns))])
    ensures Save !in Step(st, conn, GetBoard).1
  {
  }

  /** Every `card_moved`, whatever the board and whether or not the target
      column exists, takes the board to `Moved` of the old one, leaves the
      registry and the alert alone, and is saved then broadcast. */
  lemma MoveEffects(st: ServerState, conn: Conn, userId: Option<Id>, cardId: Id, fromColumnId: Id, toColumnId: Id)
    requires KeysUnique(st.sessions)
    ensures var r := Step(st, conn, Move(userId, cardId, fromColumnId, toColumnId));
            && r.0 == st.(columns := Moved(st.columns, cardId, toColumnId))
            && r.1 == [Save, Broadcast(CardMoved(userId, cardId, fromColumnId, toColumnId))]
  {
  }

  /** `alert_created` stores the client's text as sent, even when it is empty
      or missing, and `alert_cleared` clears it; each broadcasts one event,
      leaves board and registry alone and saves nothing. */
  lemma AlertEffects(st: ServerState, conn: Conn, alertText: Option<string>)
    requires KeysUnique(st.sessions)
    ensures Step(st, conn, RaiseAlert(alertText)) == (st.(alert := alertText), [Broadcast(AlertCreated(alertText))])
    ensures Step(st, conn, ClearAlert) == (st.(alert := None), [Broadcast(AlertCleared)])
    ensures Save !in Step(st, conn, RaiseAlert(alertText)).1 && Save !in Step(st, conn, ClearAlert).1
  {
  }

  /** `card_moved` always saves and broadcasts, even when the move changes
      nothing (unknown card, or card already in the target column). */
  lemma MoveAlwaysAnnounced(st: ServerState, conn: Conn, userId: Option<Id>, cardId: Id, fromColumnId: Id, toColumnId: Id)
    requires KeysUnique(st.sessions)
    requires SourceColumn(st.columns, cardId).None? ||
             st.columns[SourceColumn(st.columns, cardId).value].id == toColumnId
    ensures var r := Step(st, conn, Move(userId, cardId, fromColumnId, toColumnId));
            r.0 == st && r.1 == [Save, Broadcast(CardMoved(userId, cardId, fromColumnId, toColumnId))]
  {
  }

  /** `card_deleted` saves and broadcasts whenever the column exists, even if
      no card there has the id; the board then stays as it was. */
  lemma DeleteAnnouncedForAnyExistingColumn(st: ServerState, conn: Conn, userId: Option<Id>, columnId: Id, cardId: Id)
    requires KeysUnique(st.sessions)
    ensures var r := Step(st, conn, Delete(userId, columnId, cardId));
            && (r.1 != [] <==> FindColumn(st.columns, columnId).Some?)
            && (FindColumn(st.columns, columnId).Some? ==>
                  r.1 == [Save, Broadcast(CardDeleted(userId, cardId, columnId))])
            && (FindColumn(st.columns, columnId).Some? ==>
                  !Holds(st.columns[FindColumn(st.columns, columnId).value].cards, cardId) ==> r.0 == st)
  {
    var k := FindColumn(st.columns, columnId);
    if k.Some? {
      assert Step(st, conn, Delete(userId, columnId, cardId)) ==
             (st.(columns := Deleted(st.columns, columnId, cardId)), Announce(CardDeleted(userId, cardId, columnId)));
      if !Holds(st.columns[k.value].cards, cardId) {
        var c := st.columns[k.value];
        WithoutAbsent(c.cards, cardId);
        assert c.(cards := Without(c.cards, cardId)) == c;
        assert Deleted(st.columns, columnId, cardId) == st.columns;
      }
    }
  }

  /** `card_created` on an unknown column does nothing at all: no save and no
      broadcast. Otherwise the card is appended, saved, then announced. */
  lemma CreateEffects(st: ServerState, conn: Conn, userId: Option<Id>, columnId: Id, card: Card)
    requires KeysUnique(st.sessions)
    ensures var r := Step(st, conn, Create(userId, columnId, card));
            && (FindColumn(st.columns, columnId).None? ==> r == (st, []))
            && (FindColumn(st.columns, columnId).Some? ==>
                  && r.0 == st.(columns := Created(st.columns, columnId, card))
                  && r.1 == [Save, Broadcast(CardCreated(userId, columnId, card))])
  {
  }

  /** `card_updated` does nothing at all when the column is unknown or holds
      no card with the new card's id. Otherwise the card is replaced, saved,
      then announced. */
  lemma UpdateEffects(st: ServerState, conn: Conn, userId: Option<Id>, columnId: Id, card: Card)
    requires KeysUnique(st.sessions)
    ensures var r := Step(st, conn, Update(userId, columnId, card));
            var k := FindColumn(st.columns, columnId);
            && (k.None? || !Holds(st.columns[k.value].cards, card.id) ==> r == (st, []))
            && (k.Some? && Holds(st.columns[k.value].cards, card.id) ==>
                  && r.0 == st.(columns := Updated(st.columns, columnId, card))
                  && r.1 == [Save, Broadcast(CardUpdated(userId, columnId, card))])
  {
  }

  /** `card_reordered` on an unknown column does nothing at all. Otherwise the
      column takes the client's sequence, which is saved, then announced. */
  lemma ReorderEffects(st: ServerState, conn: Conn, userId: Option<Id>, columnId: Id, cards: seq<Card>)
    requires KeysUnique(st.sessions)
    ensures var r := Step(st, conn, Reorder(userId, columnId, cards));
            && (FindColumn(st.columns, columnId).None? ==> r == (st, []))
            && (FindColumn(st.columns, columnId).Some? ==>
                  && r.0 == st.(columns := Reordered(st.columns, columnId, cards))
                  && r.1 == [Save, Broadcast(CardReordered(userId, columnId, cards))])
  {
  }

  /** `user_joined` replies with the board to the sender, then broadcasts the
      newcomer, then broadcasts the refreshed users list, which lists the
      newcomer with its sanitised record. */
  lemma JoinEffects(st: ServerState, conn: Conn, user: User)
    requires KeysUnique(st.sessions)
    ensures var r := Step(st, conn, Join(user));
            && |r.1| == 3
            && r.1[0] == Reply(BoardData(st.columns))
            && r.1[1] == Broadcast(UserJoined(user))
            && r.1[2].Broadcast? && r.1[2].event.UsersList?
            && (user.id, Public(user)) in r.1[2].event.users
            && Save !in r.1
  {
    var sessions := Joined(st.sessions, user, conn);
    var i := KeyIndex(sessions, user.id).value;
    assert Sanitized(sessions)[i] == (user.id, Public(user));
  }

  /** After `alert_created` a new connection is greeted with that alert
      exactly when its text is non-empty; after `alert_cleared` it is not
      greeted at all. */
  lemma AlertReplay(st: ServerState, conn: Conn, text: string)
    requires KeysUnique(st.sessions)
    ensures Greeting(Step(st, conn, RaiseAlert(Some(text))).0.alert) ==
            if text == "" then [] else [AlertCreated(Some(text))]
    ensures Greeting(Step(st, conn, ClearAlert).0.alert) == []
  {
  }

  /** `reset_board` yields the default board whatever came before, so doing
      it twice is doing it once; it saves, then broadcasts the full board. */
  lemma ResetIdempotent(st: ServerState, conn: Conn, conn': Conn)
    requires KeysUnique(st.sessions)
    ensures var once := Step(st, conn, ResetBoard).0;
            && once.columns == DefaultColumns()
            && Step(once, conn', ResetBoard).0 == once
            && Step(st, conn, ResetBoard).1 == [Save, Broadcast(BoardData(DefaultColumns()))]
  {
  }

  /** Every message except `card_created` and `card_reordered` keeps card ids
      unique across the board (those two trust the client, see
      `CreateMayDuplicateIds` and `ReorderMayDuplicateIds`). */
  lemma StepKeepsUniqueIds(st: ServerState, conn: Conn, msg: Message)
    requires KeysUnique(st.sessions)
    requires UniqueCardIds(st.columns)
    requires !msg.Create? && !msg.Reorder?
    ensures UniqueCardIds(Step(st, conn, msg).0.columns)
  {
    match msg
    case Move(_, cardId, _, toColumnId) => MoveKeepsUniqueIds(st.columns, cardId, toColumnId);
    case Update(_, columnId, card) => UpdateKeepsUniqueIds(st.columns, columnId, card);
    case Delete(_, columnId, cardId) => DeleteKeepsUniqueIds(st.columns, columnId, cardId);
    case ResetBoard => DefaultBoardEmpty();
    case _ =>
  }

  /** A move between existing columns of a board with unique card ids keeps
      every card: the total is unchanged and the board is still saved and
      announced. */
  lemma MoveKeepsCards(st: ServerState, conn: Conn, msg: Message)
    requires KeysUnique(st.sessions)
    requires UniqueCardIds(st.columns)
    requires msg.Move? && FindColumn(st.columns, msg.toColumnId).Some?
    ensures TotalCards(Step(st, conn, msg).0.columns) == TotalCards(st.columns)
    ensures Step(st, conn, msg).1 ==
            [Save, Broadcast(CardMoved(msg.userId, msg.cardId, msg.fromColumnId, msg.toColumnId))]
  {
    MoveKeepsUniqueIds(st.columns, msg.cardId, msg.toColumnId);
  }

  // ---------------------------------------------------------------------
  // The server object
  // ---------------------------------------------------------------------

  /** The process-wide state: the board store, the session registry and the
      alert, driven one message at a time. */
  class Server {
    const board: Board
    const registry: Registry
    var alert: Option<string>

    ghost predicate Valid()
      reads this, registry
    {
      registry.Valid()
    }

    /** The abstract state the router's `Step` works on. */
    function State(): ServerState
      reads this, board, registry
    {
      ServerState(board.columns, registry.sessions, alert)
    }

    /** Startup: the board comes from the snapshot or the default template;
        no sessions; no alert (the alert is not persisted). */
    constructor (snapshot: Option<seq<Column>>)
      ensures Valid()
      ensures State() == ServerState(if snapshot.Some? then snapshot.value else DefaultColumns(), [], None)
    {
      board := new Board(snapshot);
      registry := new Registry();
      alert := None;
    }

    /** A connection opens. */
    method Connect(conn: Conn) returns (replies: seq<Event>)
      ensures replies == Greeting(alert)
    {
      replies := [];
      if alert.Some? && alert.value != "" {
        replies := [AlertCreated(alert)];
      }
    }

    /** `handleMessage`. */
    method HandleMessage(conn: Conn, msg: Message) returns (effects: seq<Effect>)
      requires Valid()
      modifies this, board, registry
      ensures Valid()
      ensures (State(), effects) == Step(old(State()), conn, msg)
    {
      match msg {
        case Join(user) =>
          registry.Join(user, conn);
          var users := registry.UsersList();
          effects := [Reply(BoardData(board.columns)), Broadcast(UserJoined(user)), Broadcast(UsersList(users))];
        case GetBoard =>
          effects := [Reply(BoardData(board.columns))];
        case Move(userId, cardId, fromColumnId, toColumnId) =>
          board.MoveCard(cardId, fromColumnId, toColumnId);
          effects := Announce(CardMoved(userId, cardId, fromColumnId, toColumnId));
        case Create(userId, columnId, card) =>
          var applied := board.CreateCard(columnId, card);
          effects := if applied then Announce(CardCreated(userId, columnId, card)) else [];
        case Update(userId, columnId, card) =>
          var applied := board.UpdateCard(columnId, card);
          effects := if applied then Announce(CardUpdated(userId, columnId, card)) else [];
        case Delete(userId, columnId, cardId) =>
          var applied := board.DeleteCard(columnId, cardId);
          effects := if applied then Announce(CardDeleted(userId, cardId, columnId)) else [];
        case Reorder(userId, columnId, cards) =>
          var applied := board.ReorderCards(columnId, cards);
          effects := if applied then Announce(CardReordered(userId, columnId, cards)) else [];
        case RaiseAlert(alertText) =>
          alert := alertText;
          effects := [Broadcast(AlertCreated(alertText))];
        case ClearAlert =>
          alert := None;
          effects := [Broadcast(AlertCleared)];
        case ResetBoard =>
          board.Reset();
          effects := Announce(BoardData(board.columns));
        case Unrecognized(_) =>
          effects := [];
      }
    }

    /** A connection closes. */
    method Close(conn: Conn) returns (effects: seq<Effect>)
      requires Valid()
      modifies registry
      ensures Valid()
      ensures (State(), effects) == Closed(old(State()), conn)
    {
      var removed := registry.Disconnect(conn);
      effects := if removed.Some? then [Broadcast(UserLeft(removed.value.user.id))] else [];
    }
  }
}
