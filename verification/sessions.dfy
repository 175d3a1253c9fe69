/**
 * The session registry: connected users keyed by their user id, each entry
 * the client's user record plus its connection. Entries are kept in the
 * order their keys were first inserted. For string user ids that are not
 * array indices and not `__proto__` this is the order the server's
 * `for ... in` scans visit them.
 */
module Sessions {
  import opened Wrappers
  import opened BoardStore

  /** An opaque connection handle, compared only for identity. */
  datatype Conn = Conn(handle: nat)

  /** The user record a client sends with `user_joined`; `extra` holds any
      further fields, which the registry stores along with the rest. */
  datatype User = User(id: Id, name: string, color: string, extra: Fields)

  /** A registry entry: the user record spread together with its connection. */
  datatype Session = Session(user: User, conn: Conn)

  /** What other clients may see of a user: no connection, no extra fields. */
  datatype PublicUser = PublicUser(id: Id, name: string, color: string)

  /** The registry's keys, that is the user ids of its entries. */
  function Keys(s: seq<Session>): set<Id> {
    set i | 0 <= i < |s| :: s[i].user.id
  }

  /** No key occurs twice. */
  predicate KeysUnique(s: seq<Session>) {
    forall i, j :: 0 <= i < j < |s| ==> s[i].user.id != s[j].user.id
  }

  /** Position of the entry with key `id`. */
  function KeyIndex(s: seq<Session>, id: Id): (r: Option<nat>)
    ensures r.None? <==> id !in Keys(s)
    ensures r.Some? ==> r.value < |s| && s[r.value].user.id == id
  {
    if |s| == 0 then None
    else if s[0].user.id == id then Some(0)
    else
      match KeyIndex(s[1..], id)
      case None =>
        assert forall i :: 1 <= i < |s| ==> s[i] == s[1..][i - 1];
        None
      case Some(i) => Some(i + 1)
  }

  /** Position of the first entry, in scan order, whose connection is `conn`. */
  function ConnIndex(s: seq<Session>, conn: Conn): (r: Option<nat>)
    ensures r.None? <==> forall i :: 0 <= i < |s| ==> s[i].conn != conn
    ensures r.Some? ==> r.value < |s| && s[r.value].conn == conn
    ensures r.Some? ==> forall i :: 0 <= i < r.value ==> s[i].conn != conn
  {
    if |s| == 0 then None
    else if s[0].conn == conn then Some(0)
    else
      match ConnIndex(s[1..], conn)
      case None =>
        assert forall i :: 1 <= i < |s| ==> s[i] == s[1..][i - 1];
        None
      case Some(i) => Some(i + 1)
  }

  /** The registry after `user_joined`: the entry keyed by the user's id is
      overwritten in place, or a new entry is added at the end. */
  function Joined(s: seq<Session>, user: User, conn: Conn): (r: seq<Session>)
    requires KeysUnique(s)
    ensures KeysUnique(r)
    ensures Keys(r) == Keys(s) + {user.id}
    ensures |r| == if user.id in Keys(s) then |s| else |s| + 1
    ensures KeyIndex(r, user.id).Some? && r[KeyIndex(r, user.id).value] == Session(user, conn)
    ensures forall i :: 0 <= i < |s| && s[i].user.id != user.id ==> r[i] == s[i]
  {
    match KeyIndex(s, user.id)
    case Some(i) =>
      var r := s[i := Session(user, conn)];
      assert forall j :: 0 <= j < |s| ==> r[j].user.id == s[j].user.id;
      assert Keys(r) == Keys(s);
      r
    case None =>
      var r := s + [Session(user, conn)];
      assert forall j :: 0 <= j < |s| ==> r[j] == s[j];
      assert r[|s|].user.id == user.id;
      assert Keys(r) == Keys(s) + {user.id} by {
        forall k | k in Keys(r) ensures k in Keys(s) + {user.id} {
          var j :| 0 <= j < |r| && r[j].user.id == k;
          if j < |s| { assert s[j].user.id == k; }
        }
      }
      r
  }

  /** The registry after a connection closes, with the entry removed: only
      the first entry whose connection matches is dropped. */
  function Disconnected(s: seq<Session>, conn: Conn): (r: (seq<Session>, Option<Session>))
    requires KeysUnique(s)
    ensures KeysUnique(r.0)
    ensures ConnIndex(s, conn).None? ==> r == (s, None)
    ensures ConnIndex(s, conn).Some? ==>
              var i := ConnIndex(s, conn).value;
              && r.1 == Some(s[i])
              && r.0 == s[..i] + s[i + 1..]
              && Keys(r.0) == Keys(s) - {s[i].user.id}
  {
    match ConnIndex(s, conn)
    case None => (s, None)
    case Some(i) =>
      var rest := s[..i] + s[i + 1..];
      assert forall j :: 0 <= j < |rest| ==> rest[j] == if j < i then s[j] else s[j + 1];
      assert Keys(rest) == Keys(s) - {s[i].user.id} by {
        forall k | k in Keys(s) - {s[i].user.id} ensures k in Keys(rest) {
          var j :| 0 <= j < |s| && s[j].user.id == k;
          if j < i { assert rest[j] == s[j]; } else { assert rest[j - 1] == s[j]; }
        }
      }
      (rest, Some(s[i]))
  }

  /** The sanitised `{id, name, color}` view of a user. */
  function Public(u: User): PublicUser {
    PublicUser(u.id, u.name, u.color)
  }

  /** The `users_list` payload: one sanitised record per entry, keyed by the
      entry's key, in scan order. */
  function Sanitized(s: seq<Session>): seq<(Id, PublicUser)> {
    seq(|s|, i requires 0 <= i < |s| => (s[i].user.id, Public(s[i].user)))
  }

  /** A connection that joined under two user ids keeps its later entry
      when it closes: the close scan stops at the first match. */
  lemma DisconnectKeepsLaterSessions(s: seq<Session>, conn: Conn, i: nat, j: nat)
    requires KeysUnique(s)
    requires i < j < |s| && s[i].conn == conn && s[j].conn == conn
    ensures s[j] in Disconnected(s, conn).0
    ensures s[j].user.id in Keys(Disconnected(s, conn).0)
  {
  }

  /** The sanitised list names exactly the registry's keys, each with the
      record of that user and nothing about its connection. */
  lemma SanitizedMatchesRegistry(s: seq<Session>)
    requires KeysUnique(s)
    ensures (set e | e in Sanitized(s) :: e.0) == Keys(s)
    ensures forall e :: e in Sanitized(s) ==> e.1.id == e.0
    ensures forall i, j :: 0 <= i < j < |Sanitized(s)| ==> Sanitized(s)[i].0 != Sanitized(s)[j].0
  {
    var l := Sanitized(s);
    forall k | k in Keys(s) ensures k in (set e | e in l :: e.0) {
      var i :| 0 <= i < |s| && s[i].user.id == k;
      assert l[i] in l;
    }
  }

  /** The `users` map of the server. */
  class Registry {
    var sessions: seq<Session>

    ghost predicate Valid()
      reads this
    {
      KeysUnique(sessions)
    }

    constructor ()
      ensures Valid() && sessions == []
    {
      sessions := [];
    }

    /** `user_joined`: insert, or overwrite the entry with the same key. */
    method Join(user: User, conn: Conn)
      requires Valid()
      modifies this
      ensures Valid()
      ensures sessions == Joined(old(sessions), user, conn)
    {
      var k := KeyIndex(sessions, user.id);
      if k.Some? {
        sessions := sessions[k.value := Session(user, conn)];
      } else {
        sessions := sessions + [Session(user, conn)];
      }
    }

    /** Connection close: scan for the first entry with this connection,
        remove it and hand it back; `None` if the connection never joined. */
    method Disconnect(conn: Conn) returns (removed: Option<Session>)
      requires Valid()
      modifies this
      ensures Valid()
      ensures (sessions, removed) == Disconnected(old(sessions), conn)
    {
      removed := None;
      var i := 0;
      while i < |sessions|
        invariant 0 <= i <= |sessions|
        invariant removed == None && sessions == old(sessions)
        invariant forall j :: 0 <= j < i ==> sessions[j].conn != conn
      {
        if sessions[i].conn == conn {
          removed := Some(sessions[i]);
          sessions := sessions[..i] + sessions[i + 1..];
          break;
        }
        i := i + 1;
      }
    }

    /** `broadcastUsersList`: the sanitised list built entry by entry. */
    method UsersList() returns (list: seq<(Id, PublicUser)>)
      ensures |list| == |sessions|
      ensures forall i :: 0 <= i < |sessions| ==> list[i].0 == sessions[i].user.id && list[i].1 == Public(sessions[i].user)
      ensures list == Sanitized(sessions)
    {
      list := [];
      var i := 0;
      while i < |sessions|
        invariant 0 <= i <= |sessions|
        invariant |list| == i
        invariant forall j :: 0 <= j < i ==> list[j] == (sessions[j].user.id, Public(sessions[j].user))
      {
        list := list + [(sessions[i].user.id, Public(sessions[i].user))];
        i := i + 1;
      }
    }
  }
}
