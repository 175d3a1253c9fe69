# Verified model of the kanban board server

This project models the core of a small real-time kanban server in Dafny. The server
is a single Node.js file, `server.js`. Many clients share one board: an ordered
sequence of columns, each with an id, a title, an optional WIP limit, an ordered
sequence of cards and a `collapsed` flag. Clients send typed messages that move,
create, update, delete or reorder cards, raise or clear a process-wide alert, or
reset the board to a fixed 21-column template. The server applies each message to
its in-memory state. A message that changes the board (or would, for an existing
column) is saved as a snapshot and then broadcast to every client. `get_board`
only replies to the sender; `user_joined` and the alert messages broadcast without
saving. A session registry keyed by user id records who is connected.

The model has five modules:

- `Wrappers` (`wrappers.dfy`): `Option`.
- `BoardStore` (`board.dfy`): ids, cards and columns as values. It also holds the
  handler's lookups (`find`, `findIndex`, `filter`) as functions, and the effect of
  each mutation as a function of the old board (`Moved`, `Created`, `Updated`,
  `Deleted`, `Reordered`). `DefaultColumns` is the default template. The `Board`
  class holds `columns` and performs each mutation in place. The scanning loop of
  a move is the method `FindSource`.
- `BoardProperties` (`board_properties.dfy`): board-wide card counts, the board-wide
  uniqueness of card ids, and lemmas about every mutation.
- `Sessions` (`sessions.dfy`): the `users` map as the `Registry` class. Entries are
  kept in key-insertion order. For string user ids that are not array indices and not
  `__proto__`, this is the order the server's `for ... in` scans visit them. The class has join, the close scan and the sanitised users list.
- `Router` (`router.dfy`): the closed `Message` datatype, the outbound `Event`s, and
  the ordered `Effect`s of handling a message (`Save`, `Reply`, `Broadcast`). `Step`
  is the whole dispatch as a function of the old state, and `Closed` is the effect
  of a connection closing. The `Server` class drives the `Board` and `Registry`
  objects and proves that it performs exactly `Step` and `Closed`.

Behaviours of the server worth noting:

- A `card_moved` that changes nothing is still saved and broadcast.
- A `card_deleted` for an existing column is saved and broadcast even when no card
  there has the id.
- The alert is replayed to a new connection only when it is truthy. An empty alert
  text counts as no alert.
- Moving a card to a column id that does not exist removes the card (and any card
  with the same id in its source column) and places it nowhere.
- The board-wide uniqueness of card ids is not enforced. `card_created` and
  `card_reordered` can break it (`CreateMayDuplicateIds`, `ReorderMayDuplicateIds`).
  Every other message keeps it (`StepKeepsUniqueIds`).

## Model

| member | source | states |
|---|---|---|
| `BoardStore.IndexOfCard` | server.js:352 | `findIndex`: none exactly when no card has the id; otherwise the first position holding it |
| `BoardStore.FindColumn` | server.js:197 | `find` on columns: none exactly when no column has the id; otherwise the first column with it |
| `BoardStore.SourceColumn` | server.js:351-358 | the true source of a move is the first column, in board order, holding a card with the id; none exactly when no column holds it |
| `BoardStore.Without` | server.js:244 | the filter keeps exactly the cards whose id differs, and drops as many cards as had the id |
| `BoardStore.Moved` | server.js:346-371 | a move changes only card sequences: no column is added, removed, renamed, re-limited or collapsed |
| `BoardStore.Created` | server.js:197-199 | `card_created` appends the card as the last card of the named column and leaves every other column alone; an unknown column changes nothing |
| `BoardStore.Updated` | server.js:217-222 | `card_updated` replaces only the first card with the same id, at its position, in the named column; an unknown column or card id changes nothing |
| `BoardStore.Deleted` | server.js:241-244 | `card_deleted` leaves no card with the id in the named column and changes no other column |
| `BoardStore.Reordered` | server.js:264-266 | `card_reordered` gives the named column exactly the client's sequence, unchecked; other columns unchanged |
| `BoardStore.DefaultColumns` | server.js:41-65 | the template has 21 columns with ids 1..21 in order, no cards, none collapsed, limits positive, and no limit exactly on ids 1 and 21 |
| `BoardStore.Board.constructor` | server.js:29-65 | the board is the loaded snapshot, or the default template when there is none or it cannot be read |
| `BoardStore.Board.FindSource` | server.js:351-358 | the scanning loop with `break` returns the first column holding the card, or none when no column holds it |
| `BoardStore.Board.MoveCard` | server.js:346-371 | the new board is `Moved` of the old one; `fromColumnId` has no influence |
| `BoardStore.Board.CreateCard` | server.js:197-199 | the new board is `Created` of the old one; applied exactly when the column exists |
| `BoardStore.Board.UpdateCard` | server.js:217-222 | the new board is `Updated` of the old one; applied exactly when the column exists and holds a card with the id |
| `BoardStore.Board.DeleteCard` | server.js:241-244 | the new board is `Deleted` of the old one; applied whenever the column exists |
| `BoardStore.Board.ReorderCards` | server.js:264-266 | the new board is `Reordered` of the old one; applied exactly when the column exists |
| `BoardStore.Board.Reset` | server.js:307-331 | the new board is the default template, whatever the old one was |
| `BoardProperties.WithoutConcat` | server.js:244 | the delete filter keeps the relative order of the remaining cards |
| `BoardProperties.WithoutAbsent` | server.js:244 | filtering out an id no card has leaves the column's cards unchanged |
| `BoardProperties.FindColumnLayout` | server.js:366 | looking up the target after filtering the source finds the same column as before |
| `BoardProperties.MoveToExistingColumn` | server.js:351-370 | normal move: the card leaves its source S, becomes the last card of the target T, other columns are untouched, and the total changes by one minus the number of cards with the id in S |
| `BoardProperties.MoveNoOp` | server.js:361 | an unknown card, or one whose source already has the target id, leaves the board unchanged |
| `BoardProperties.MoveToMissingColumn` | server.js:363-369 | with no target column the card and its duplicates in S are removed and placed nowhere, so the board loses cards |
| `BoardProperties.MoveBoardCount` | server.js:363-368 | a move changes only the number of cards with the moved id |
| `BoardProperties.MoveKeepsUniqueIds` | server.js:346-371 | on a board with unique card ids a move keeps them unique, and a move to an existing column keeps the total card count |
| `BoardProperties.CreateCounts` | server.js:197-199 | creating in an existing column adds exactly one card, with the new card's id |
| `BoardProperties.CreateFreshKeepsUniqueIds` | server.js:199 | creating a card whose id is not on the board keeps ids unique |
| `BoardProperties.CreateMayDuplicateIds` | server.js:197-199 | on any board, creating in an existing column a card whose id is already on the board raises that id's count by one and breaks uniqueness, because the server does not check |
| `BoardProperties.CreateDuplicateExample` | server.js:199 | a board with unique card ids exists on which such a create breaks uniqueness |
| `BoardProperties.UpdateKeepsCounts` | server.js:219-222 | an update changes neither the total nor the number of cards with any id |
| `BoardProperties.UpdateKeepsUniqueIds` | server.js:219-222 | an update keeps card ids unique |
| `BoardProperties.DeleteCounts` | server.js:241-244 | a delete removes exactly the cards with the id in the named column and no other card |
| `BoardProperties.DeleteKeepsUniqueIds` | server.js:244 | a delete keeps card ids unique |
| `BoardProperties.ReorderCounts` | server.js:266 | after a reorder the board's total card count changes by the length of the client's sequence minus the old length of the named column |
| `BoardProperties.ReorderMayDuplicateIds` | server.js:264-266 | on any board, reordering an existing column with a sequence in which two positions share an id puts two cards with that id on the board and breaks uniqueness |
| `BoardProperties.ReorderDuplicateExample` | server.js:266 | a board with unique card ids exists on which a reorder repeating one card breaks uniqueness |
| `BoardProperties.DefaultBoardEmpty` | server.js:307-331 | the default board holds no cards, so its card ids are unique |
| `Sessions.KeyIndex` | server.js:144 | finds the entry with the key exactly when the key is registered |
| `Sessions.ConnIndex` | server.js:116-117 | the first entry, in scan order, whose connection matches; none exactly when no entry matches |
| `Sessions.Joined` | server.js:144-147 | after a join the user's key maps to the new record and connection, keys stay unique, the key set grows by that key, and other entries keep their place |
| `Sessions.Disconnected` | server.js:116-127 | a close removes only the first matching entry and returns it, keeping the others in order; no match changes nothing |
| `Sessions.DisconnectKeepsLaterSessions` | server.js:116-125 | a connection that joined under two user ids leaves its later entry behind when it closes |
| `Sessions.SanitizedMatchesRegistry` | server.js:384-392 | the users list names exactly the registered keys, once each, each with the user's own id |
| `Sessions.Registry.constructor` | server.js:23 | the registry starts empty |
| `Sessions.Registry.Join` | server.js:144-147 | the registry becomes `Joined` of the old one |
| `Sessions.Registry.Disconnect` | server.js:116-127 | the scanning loop with `break` leaves the registry and returned entry as `Disconnected` says |
| `Sessions.Registry.UsersList` | server.js:384-392 | the loop builds one `{id, name, color}` record per entry, in scan order, without connection or extra fields |
| `Router.Greeting` | server.js:97-102 | a new connection gets one `alert_created` with the current alert exactly when the alert is truthy, otherwise nothing |
| `Router.Step` | server.js:142-342 | dispatch: a changed board is always saved first, a save always precedes any broadcast, only `user_joined` touches the registry, only the alert messages touch the alert, and an unknown type does nothing |
| `Router.Closed` | server.js:114-128 | a close changes only the registry and broadcasts `user_left` for the removed entry, or does nothing when the connection never joined |
| `Router.GetBoardEffects` | server.js:164-169 | `get_board` changes nothing and its only effect is a reply to the sender with the current board; nothing is saved |
| `Router.MoveEffects` | server.js:171-187 | every move, on any board and whether or not the target column exists, makes the board `Moved` of the old one, keeps registry and alert, and is saved then broadcast |
| `Router.AlertEffects` | server.js:282-303 | `alert_created` stores the text as sent and `alert_cleared` stores none; each has exactly one broadcast as effect, changes nothing else, and saves nothing |
| `Router.MoveAlwaysAnnounced` | server.js:171-187 | a move that changes nothing is still saved and broadcast |
| `Router.DeleteAnnouncedForAnyExistingColumn` | server.js:239-260 | a delete is saved and broadcast exactly when the column exists, even if the card is absent (the board is then unchanged) |
| `Router.CreateEffects` | server.js:195-213 | `card_created` on an unknown column yields the old state and no effects; otherwise the board becomes `Created` of the old one and the effects are exactly save, then broadcast `card_created` |
| `Router.UpdateEffects` | server.js:215-237 | `card_updated` on an unknown column or an unknown card id yields the old state and no effects; otherwise the board becomes `Updated` of the old one and the effects are exactly save, then broadcast `card_updated` |
| `Router.ReorderEffects` | server.js:262-280 | `card_reordered` on an unknown column yields the old state and no effects; otherwise the board becomes `Reordered` of the old one and the effects are exactly save, then broadcast `card_reordered` |
| `Router.JoinEffects` | server.js:143-159 | a join replies with the board, then broadcasts `user_joined`, then broadcasts a users list that contains the newcomer; nothing is saved |
| `Router.AlertReplay` | server.js:282-303 | after `alert_created` a new connection is greeted exactly when the text is non-empty; after `alert_cleared` it is not greeted |
| `Router.ResetIdempotent` | server.js:305-338 | reset yields the template regardless of prior state, a second reset changes nothing, and it saves then broadcasts the full board |
| `Router.StepKeepsUniqueIds` | server.js:142-342 | every message except `card_created` and `card_reordered` keeps card ids unique across the board |
| `Router.MoveKeepsCards` | server.js:171-187 | on a board with unique ids a move to an existing column keeps the total card count, and is saved then broadcast |
| `Router.Server.constructor` | server.js:20-26 | startup state: loaded or default board, no sessions, no alert |
| `Router.Server.Connect` | server.js:93-102 | the connection greeting is `Greeting` of the current alert |
| `Router.Server.HandleMessage` | server.js:132-343 | the new board, registry, alert and the effects are exactly those of `Step` |
| `Router.Server.Close` | server.js:114-128 | the new registry and the effects are exactly those of `Closed` |

## Left out

- WebSocket transport (server.js:10, 374-381): delivery, the `wss.clients` iteration and the `readyState` filter are not modelled. A broadcast is one `Broadcast` effect, and a reply to the sender is one `Reply` effect.
- File persistence (server.js:29-38, 68-77): reading, writing and JSON serialisation of the snapshot are not modelled. A save is the `Save` effect. A failed write is logged and ignored by the server, so it cannot change the in-memory state. A load is the constructor's `snapshot` argument, with `None` for a missing or unparsable file. A file that parses to something other than a board (`null`, `{}`, a column without `cards`) is kept as is by the server (server.js:31-33), after which board messages throw and are caught (server.js:108); such a snapshot is not modelled.
- The activity log (server.js:79-90) and the user-name lookup used only for it (server.js:133-140), including the log-only lookups of the move (server.js:173-175, 189-192): timestamps and file appends.
- Inbound frames that are not valid JSON (server.js:104-111) are caught and logged. Messages lacking a field the handler reads are not modelled: the server may apply them partly or without any error. A `card_created` without `card` pushes `undefined`, saves and broadcasts, and throws only afterwards at server.js:211. A `card_reordered` without `cards` (server.js:266) stores `undefined` as the column's cards and raises no error. The model takes every message as well-formed, except that an `alert_created` without `alertText`, which stores `undefined` (server.js:284), is `RaiseAlert(None)`.
- Identifiers are integers or strings. Non-integer JSON numbers, integers beyond 2^53 that `JSON.parse` merges, and other JSON values used as ids are not modelled.
- Registry keys: the source stringifies object keys and orders array-index keys ahead of the others, in ascending order. The model keys entries by the id value in insertion order, which is exact only for string user ids that are not array indices and not `__proto__`. Distinct ids with the same string form (`-1` and `"-1"`, say) are one key in the source and two in the model.
- A user id `__proto__` (server.js:144): assigning it calls the prototype setter and creates no entry, so the later scans (server.js:116, 386) visit the newcomer's own fields as keys and that connection's close removes nothing. The model treats it as an ordinary key.
- Cards are JSON objects with `id`, `title` and further opaque fields. Non-object entries in a card array are not modelled.
- Column objects are values in the board sequence. The snapshot parser and the template literal both create distinct column objects, so no aliasing between columns is lost.
- Static file serving, listening and interface enumeration (server.js:13, 400-423).
- The event loop (one message at a time) is not modelled. Each message is one call of `Server.HandleMessage`. Persisting and reloading a snapshot is file I/O and is also not modelled.
