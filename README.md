# Chat server core in Dafny

This project models the in-process state of a small group chat server
(`server.js`). It leaves out the socket library and the MySQL calls around that
state. It has three parts.

- **Presence registry** (`presence.dfy`, module `Presence`). This is the table
  from socket id to `{userName, groupId, isAnon}`. It is kept as a JavaScript
  `Map` keeps it: (id, entry) pairs in insertion order, one pair per id. The
  class `Registry` has one method per handler that changes the table (`join`,
  `set_anon`, `disconnect`). It also has `GetPresenceForGroup`, the loop that
  builds a group's member list. Each method is proved against pure functions
  on the table: `Put` (`Map.set`: an existing id keeps its place), `Remove`
  (`Map.delete`), `AnonSet` and `PresenceFor`. Lemmas then prove what those
  functions mean:
  - the member list has one item per registered connection of the group;
  - anonymous members are shown as "Anonymous";
  - an unknown group gives the empty list;
  - after any run of join / set_anon / disconnect events, a group's members
    are exactly the connections whose last `join` named that group and that
    have not disconnected since (`ReplayMembership`).
- **Fallback message log** (`message_store.dfy`, module `MessageStore`). This
  is the map from group id to messages that the server uses when it has no
  database. The class `MessageLog` appends to it and reads from it. The lemma
  `HistoryOfAppends` proves that a group's history is exactly the messages
  sent to that group, in the order they were sent. `Compose` builds a message
  from the event payload. It applies the defaults, the display-name rule and
  the 1/0 `is_anon` column.
- **Handlers** (`gateway.dfy`, module `Gateway`). The class `Server` owns the
  registry and the log. It also has a flag, fixed at start-up, that says
  whether a database is in use (`pooled`). Its methods are the socket handlers
  and the history route. Each returns the events it would send (`ToGroup`,
  `ToOthers` or `ToSender`) instead of sending them. The database insert or
  query is not performed: its outcome (`StoreWrite`, `StoreRead`) is a
  parameter. `Deliver` is the message handler's broadcast-or-error rule:
  - with a database, a failed insert sends an error to the sender alone and
    nothing to the group;
  - a successful insert broadcasts the message with the returned id;
  - without a database, the message is always broadcast.

`common.dfy` (module `Common`) holds `Option`, the constants `"Anonymous"`
and `"fun_friday"`, and the display-name rule both parts share.

A JavaScript value of the payload is represented as follows:
- a missing `groupId` or `isAnon` is `None`, which `GetOr` replaces with the
  default, as a default parameter does;
- a flag is represented by its truthiness (`!!isAnon`, `isAnon ? … : …`).

## Model

| member | source | states |
|---|---|---|
| `Common.ShownNameHidesExactlyWhenAnonymous` | server.js:130 | two names are shown alike exactly when the user is anonymous or the names are equal; a non-anonymous name is shown unchanged |
| `Presence.Put` | server.js:104 | `Map.set`: afterwards `c` maps to `e` and every other id maps to what it did; an existing id is replaced at its own position, a new id goes last; ids stay unique |
| `Presence.Remove` | server.js:163 | `Map.delete`: the row of `c` is cut out and the later rows close the gap; every other id keeps its entry; with unique ids, `c` is gone afterwards |
| `Presence.AnonSet` | server.js:112-115 | an absent id leaves the table unchanged; a present id gets only its `isAnon` replaced, in place; every other id is untouched |
| `Presence.MembersAreOnline` | server.js:173-174 | a connection is in a group's member set exactly when it has a row whose `groupId` is that group |
| `Presence.PresenceForCount` | server.js:171-179 | the member list has exactly one item per registered connection of the group |
| `Presence.PresenceForComplete` | server.js:173-176 | every registered connection of the group appears in the list in its shown form |
| `Presence.PresenceForSound` | server.js:173-176 | every item of the list is the shown form of a registered connection of that group |
| `Presence.PresenceForHidesAnonymous` | server.js:175 | an item flagged anonymous is named "Anonymous"; each item is the shown form of a row of the group |
| `Presence.PresenceForEmpty` | server.js:171-179 | the list is empty exactly when no connection is registered in the group, so an unknown group gives `[]` |
| `Presence.MembersPut` | server.js:104 | after `set(c, e)` the group's members are the old ones without `c`, plus `c` when `e` names this group |
| `Presence.MembersRemove` | server.js:161-163 | after `delete(c)` the group's members are the old ones without `c` |
| `Presence.MembersAnonSet` | server.js:111-115 | toggling anonymity changes no group's members |
| `Presence.DisconnectIdempotent` | server.js:160-166 | deleting twice is deleting once; deleting an absent id changes nothing |
| `Presence.ReplayMembership` | server.js:102-166 | after any run of join / set_anon / disconnect, ids stay unique and a group's members are exactly the connections whose last join named it with no later disconnect |
| `Presence.Registry.constructor` | server.js:97 | the registry starts empty |
| `Presence.Registry.Join` | server.js:104 | the entry of `c` becomes `{userName, groupId, isAnon: false}` whether or not it existed; every other entry is unchanged |
| `Presence.Registry.SetAnon` | server.js:111-115 | without an entry nothing changes and nothing is returned; with one, only `isAnon` changes and the updated entry is returned |
| `Presence.Registry.Disconnect` | server.js:161-163 | returns the prior entry, or nothing for an unregistered id; removes it; every other entry is unchanged |
| `Presence.Registry.GetPresenceForGroup` | server.js:171-179 | the loop returns `PresenceFor(entries, g)`, the group's rows in order in shown form, and changes nothing |
| `MessageStore.Compose` | server.js:128-138 | the message has no id yet, the given text, the given group or `fun_friday`, and an `is_anon` of 0 or 1 |
| `MessageStore.ComposeFlagAndName` | server.js:130-135 | `is_anon` is 1 exactly when the flag is true; then the name is "Anonymous", otherwise the sender's name |
| `MessageStore.ComposeHidesSender` | server.js:130 | an anonymous message is the same whatever sender name was given |
| `MessageStore.ComposeDefaults` | server.js:128 | a missing `groupId` and `isAnon` act as `fun_friday` and `false` |
| `MessageStore.Appended` | server.js:148-150 | the group's history gains exactly `m` at its end; every other group's history is unchanged |
| `MessageStore.HistoryOfAppends` | server.js:146-151 | after a run of appends, a group's history is its old history followed by the appended messages of that group, in order |
| `MessageStore.HistoryOfSilentGroup` | server.js:58 | a group that no message named has the empty history |
| `MessageStore.MessageLog.constructor` | server.js:17 | the fallback log starts empty |
| `MessageStore.MessageLog.Append` | server.js:148-150 | the log becomes `Appended(old log, m)` |
| `MessageStore.MessageLog.Read` | server.js:58 | returns the group's messages, or `[]` for a group with no entry |
| `Gateway.Deliver` | server.js:140-156 | error to the sender alone exactly when there is a database and the insert failed; otherwise a broadcast to the message's group of the same message, with the insert id when there is a database |
| `Gateway.BroadcastOnlyWhatWasStored` | server.js:140-156 | with a database, a message is broadcast exactly when its insert succeeded, and then it carries an id |
| `Gateway.DeliveredAnonymously` | server.js:130-153 | an anonymous message reaches the group as "Anonymous" with `is_anon` 1, whatever the store did |
| `Gateway.Server.constructor` | server.js:16-17 | a server starts with an empty registry and log and its database choice fixed |
| `Gateway.Server.OnJoin` | server.js:102-109 | registers `{userName, group or fun_friday, false}` for the connection, then sends the group its new member list and the others a "joined" notice |
| `Gateway.Server.OnSetAnon` | server.js:111-118 | an unregistered connection changes nothing and sends nothing; a registered one gets the flag and its group gets the new member list |
| `Gateway.Server.OnMessage` | server.js:128-158 | sends `Deliver` of the composed message; appends it to the fallback log exactly when there is no database |
| `Gateway.Server.OnDisconnect` | server.js:160-168 | removes the connection; if it was registered, its group gets the new member list and the others a "left" notice, otherwise nothing is sent |
| `Gateway.Server.GetMessages` | server.js:47-64 | without a database, 200 with the group's fallback history; with one, 200 with the query's rows or 500 when the query failed |

## Left out

- Database access (pool creation and ping, SQL statements, the `group_members` insert of `POST /api/groups/:groupId/join`): foreign I/O. An insert or query appears only as its outcome, passed in. Whether a database is used is fixed when the server is built. Start-up, where `pool` is assigned before the ping and reset to `null` if the ping fails, is not modelled.
- `GET /api/users/online/:groupId` (always `{online: []}`), CORS, static files and the HTTP server: HTTP plumbing with no state.
- The `typing` and `stop_typing` handlers: they only forward the payload to the other members of a group.
- socket.io rooms (`socket.join`) and delivery. An emit is returned as a value saying who it is addressed to. Rooms are therefore not modelled. In the source, a socket that joins a second group stays in the first group's room as well.
- Message timestamps (`created_at`) and console logging.
- Interleaving of events at the `await` of a database insert: each handler is modelled as running to completion.
- JavaScript values other than strings and flags: an `undefined` user name or text, or a non-string group id, is not modelled. A flag is modelled by its truthiness.
- The member list is sent as objects `{userName, isAnon}`, as the code does. A list of display strings, which some descriptions of the protocol mention, is not modelled.
