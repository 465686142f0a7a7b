/**
  The socket handlers and the history route of the chat server, as operations
  on one server object that owns the presence registry, the fallback message
  log and the fixed choice, made at start-up, between a database and the
  in-memory fallback.

  What a handler sends is returned as a list of emits rather than sent: the
  socket library's rooms and transport are not part of the model. A database
  insert or query is not performed either; its outcome is passed in.
 */
module Gateway {
  import opened Common
  import opened Presence
  import opened MessageStore

  /** The server-to-client events the handlers send. */
  datatype Payload =
    | PresenceUpdate(members: seq<Member>)   // `presence`
    | SystemMessage(message: string)         // `system_message`
    | NewMessage(msg: Message)               // `message`
    | ErrorMessage(error: string)            // `error_message`

  /** Who an event goes to: `io.to(group)`, `socket.to(group)` (everyone in the group but
      the sender) or `socket.emit` (the sender alone). */
  datatype Emit =
    | ToGroup(group: string, payload: Payload)
    | ToOthers(group: string, sender: ConnId, payload: Payload)
    | ToSender(payload: Payload)

  /** The outcome of the database insert of a message. */
  datatype StoreWrite = Inserted(insertId: int) | WriteFailed

  /** The outcome of the database history query. */
  datatype StoreRead = Rows(rows: seq<Message>) | ReadFailed

  /** The history route's response: 200 with a JSON array, or 500 with an error body. */
  datatype Reply = Ok200(messages: seq<Message>) | Error500(error: string)

  const SaveFailed: string := "Failed to save message"
  const FetchFailed: string := "Failed to fetch messages"

  /** The one event the `message` handler sends for the composed message `m`. With a
      database (`pooled`) it depends on the insert; without one it is always a broadcast. */
  function Deliver(m: Message, pooled: bool, write: StoreWrite): (out: Emit)
    requires m.id == None
    ensures out.ToSender? <==> pooled && write.WriteFailed?
    ensures out.ToSender? ==> out.payload == ErrorMessage(SaveFailed)
    ensures out.ToGroup? ==> out.group == m.groupId && out.payload.NewMessage? &&
                             out.payload.msg.(id := None) == m
    ensures out.ToGroup? && pooled ==> out.payload.msg.id == Some(write.insertId)
    ensures !pooled ==> out == ToGroup(m.groupId, NewMessage(m))
    ensures !out.ToOthers?
  {
    if !pooled then ToGroup(m.groupId, NewMessage(m))
    else match write
      case Inserted(id) => ToGroup(m.groupId, NewMessage(m.(id := Some(id))))
      case WriteFailed => ToSender(ErrorMessage(SaveFailed))
  }

  /** With a database, whatever a group is shown has been stored: a broadcast message
      carries the id of its inserted row, and a failed insert is never broadcast. */
  lemma BroadcastOnlyWhatWasStored(m: Message, write: StoreWrite)
    requires m.id == None
    ensures Deliver(m, true, write).ToGroup? <==> write.Inserted?
    ensures Deliver(m, true, write).ToGroup? ==> Deliver(m, true, write).payload.msg.id.Some?
  {
  }

  /** An anonymous sender's name never reaches the group, whatever the store did. */
  lemma DeliveredAnonymously(groupId: Option<string>, userName: string, text: string, pooled: bool, write: StoreWrite)
    ensures var out := Deliver(Compose(groupId, userName, text, Some(true)), pooled, write);
      out.ToGroup? ==> out.payload.msg.userName == AnonymousName && out.payload.msg.isAnon == 1
  {
  }

  /** The server process: its registry, its fallback log, and whether it found a database. */
  class Server {
    const presence: Registry
    const log: MessageLog
    const pooled: bool

    ghost predicate Valid()
      reads this, presence
    {
      presence.Valid()
    }

    constructor (pooled: bool)
      ensures Valid() && fresh(presence) && fresh(log)
      ensures this.pooled == pooled && presence.entries == [] && log.groups == map[]
    {
      presence := new Registry();
      log := new MessageLog();
      this.pooled := pooled;
    }

    /** The `join` handler: registers the connection (not anonymous) in the group, then
        sends the group its member list and the others a notice. */
    method OnJoin(conn: ConnId, groupId: Option<string>, userName: string) returns (out: seq<Emit>)
      requires Valid()
      modifies presence
      ensures Valid()
      ensures var g := groupId.GetOr(DefaultGroup);
        && presence.entries == Put(old(presence.entries), conn, Entry(userName, g, false))
        && out == [ToGroup(g, PresenceUpdate(PresenceFor(presence.entries, g))),
                   ToOthers(g, conn, SystemMessage(userName + " joined the group."))]
    {
      var g := groupId.GetOr(DefaultGroup);
      presence.Join(conn, userName, g);
      var users := presence.GetPresenceForGroup(g);
      out := [ToGroup(g, PresenceUpdate(users)), ToOthers(g, conn, SystemMessage(userName + " joined the group."))];
    }

    /** The `set_anon` handler: a registered connection gets the flag and its group gets the
        new member list; an unregistered one changes nothing and sends nothing. */
    method OnSetAnon(conn: ConnId, isAnon: bool) returns (out: seq<Emit>)
      requires Valid()
      modifies presence
      ensures Valid()
      ensures presence.entries == AnonSet(old(presence.entries), conn, isAnon)
      ensures old(Lookup(presence.entries, conn)) == None ==> out == []
      ensures old(Lookup(presence.entries, conn)).Some? ==>
        var g := old(Lookup(presence.entries, conn)).value.groupId;
        out == [ToGroup(g, PresenceUpdate(PresenceFor(presence.entries, g)))]
    {
      var p := presence.SetAnon(conn, isAnon);
      out := [];
      if p.Some? {
        var users := presence.GetPresenceForGroup(p.value.groupId);
        out := [ToGroup(p.value.groupId, PresenceUpdate(users))];
      }
    }

    /** The `message` handler: composes the message, stores it (in the database, whose
        outcome is `write`, or else in the fallback log) and sends one event. */
    method OnMessage(groupId: Option<string>, userName: string, text: string, isAnon: Option<bool>, write: StoreWrite)
      returns (out: Emit)
      modifies log
      ensures var m := Compose(groupId, userName, text, isAnon);
        && out == Deliver(m, pooled, write)
        && log.groups == if pooled then old(log.groups) else Appended(old(log.groups), m)
    {
      var anon := isAnon.GetOr(false);
      var g := groupId.GetOr(DefaultGroup);
      var displayName := ShownName(anon, userName);
      var msg := Message(None, g, displayName, if anon then 1 else 0, text);
      if pooled {
        match write
        case Inserted(id) =>
          msg := msg.(id := Some(id));
          out := ToGroup(g, NewMessage(msg));
        case WriteFailed =>
          out := ToSender(ErrorMessage(SaveFailed));
      } else {
        log.Append(msg);
        out := ToGroup(g, NewMessage(msg));
      }
    }

    /** The `disconnect` handler: a registered connection is removed and its group gets
        the new member list and a notice; otherwise nothing happens. */
    method OnDisconnect(conn: ConnId) returns (out: seq<Emit>)
      requires Valid()
      modifies presence
      ensures Valid()
      ensures presence.entries == Remove(old(presence.entries), conn)
      ensures Lookup(presence.entries, conn) == None
      ensures old(Lookup(presence.entries, conn)) == None ==> out == [] && presence.entries == old(presence.entries)
      ensures old(Lookup(presence.entries, conn)).Some? ==>
        var p := old(Lookup(presence.entries, conn)).value;
        out == [ToGroup(p.groupId, PresenceUpdate(PresenceFor(presence.entries, p.groupId))),
                ToOthers(p.groupId, conn, SystemMessage(p.userName + " left the group."))]
    {
      var p := presence.Disconnect(conn);
      out := [];
      if p.Some? {
        var users := presence.GetPresenceForGroup(p.value.groupId);
        out := [ToGroup(p.value.groupId, PresenceUpdate(users)),
                ToOthers(p.value.groupId, conn, SystemMessage(p.value.userName + " left the group."))];
      }
    }

    /** `GET /api/messages/:groupId`: the database's rows (outcome `read`) or, without a
        database, the fallback log's messages for the group. Changes nothing. */
    method GetMessages(g: string, read: StoreRead) returns (reply: Reply)
      ensures !pooled ==> reply == Ok200(History(log.groups, g))
      ensures pooled ==> reply == match read
                                  case Rows(rs) => Ok200(rs)
                                  case ReadFailed => Error500(FetchFailed)
      ensures reply.Error500? <==> pooled && read.ReadFailed?
    {
      if pooled {
        match read
        case Rows(rs) => reply := Ok200(rs);
        case ReadFailed => reply := Error500(FetchFailed);
      } else {
        var msgs := log.Read(g);
        reply := Ok200(msgs);
      }
    }
  }

  /** Two users join "g1" and the first sends "hi" without a database: both receive it
      under the sender's name, and the member list holds both names. */
  method AliceAndBob()
  {
    var server := new Server(false);
    var _ := server.OnJoin("A", Some("g1"), "Alice");
    var _ := server.OnJoin("B", Some("g1"), "Bob");
    var out := server.OnMessage(Some("g1"), "Alice", "hi", Some(false), WriteFailed);
    assert out == ToGroup("g1", NewMessage(Message(None, "g1", "Alice", 0, "hi")));
    assert History(server.log.groups, "g1") == [Message(None, "g1", "Alice", 0, "hi")];
    var members := server.presence.GetPresenceForGroup("g1");
    assert server.presence.entries == [("A", Entry("Alice", "g1", false)), ("B", Entry("Bob", "g1", false))];
    assert members == [Member("Alice", false), Member("Bob", false)];
  }
}
