/**
  Chat messages and the in-memory fallback log the server keeps when it has no
  database: a map from group id to the messages sent to that group, in the
  order they were appended.
 */
module MessageStore {
  import opened Common

  /** A message as the server builds, stores and broadcasts it.
      `isAnon` is the stored column value, 1 or 0; `id` is `null` until a
      database insert gives one. The creation timestamp is not modelled. */
  datatype Message = Message(id: Option<int>, groupId: string, userName: string, isAnon: int, text: string)

  /** The message the `message` handler builds from its payload, before any store write.
      A missing `groupId` means the default group, a missing `isAnon` means `false`. */
  function Compose(groupId: Option<string>, userName: string, text: string, isAnon: Option<bool>): (m: Message)
    ensures m.id == None && m.text == text
    ensures m.groupId == (if groupId.Some? then groupId.value else DefaultGroup)
    ensures m.isAnon == 0 || m.isAnon == 1
  {
    var anon := isAnon.GetOr(false);
    Message(None, groupId.GetOr(DefaultGroup), ShownName(anon, userName), if anon then 1 else 0, text)
  }

  /** The stored flag reads back as the flag that was sent, and the stored name is
      "Anonymous" when that flag is set and the sender's own name when it is not. */
  lemma ComposeFlagAndName(groupId: Option<string>, userName: string, text: string, isAnon: Option<bool>)
    ensures var m := Compose(groupId, userName, text, isAnon);
      (m.isAnon == 1 <==> isAnon == Some(true)) &&
      (m.isAnon == 1 ==> m.userName == AnonymousName) &&
      (m.isAnon == 0 ==> m.userName == userName)
  {
  }

  /** An anonymous message carries nothing of the sender's name: two senders with
      different names produce the same message. */
  lemma ComposeHidesSender(groupId: Option<string>, a: string, b: string, text: string)
    ensures Compose(groupId, a, text, Some(true)) == Compose(groupId, b, text, Some(true))
  {
  }

  /** Leaving out `groupId` and `isAnon` is the same as sending the defaults. */
  lemma ComposeDefaults(userName: string, text: string)
    ensures Compose(None, userName, text, None) == Compose(Some(DefaultGroup), userName, text, Some(false))
  {
  }

  /** The fallback log: group id to its messages, oldest first. */
  type Log = map<string, seq<Message>>

  /** `inMemoryMessages.get(g) || []`: what the history route returns without a database. */
  function History(log: Log, g: string): seq<Message> {
    if g in log then log[g] else []
  }

  /** The log after the fallback append of `m`. */
  function Appended(log: Log, m: Message): (r: Log)
    ensures History(r, m.groupId) == History(log, m.groupId) + [m]
    ensures forall h :: h != m.groupId ==> History(r, h) == History(log, h)
    ensures r.Keys == log.Keys + {m.groupId}
  {
    log[m.groupId := History(log, m.groupId) + [m]]
  }

  /** The log after appending `ms` in order. */
  function AppendAll(log: Log, ms: seq<Message>): Log
    decreases ms
  {
    if ms == [] then log else AppendAll(Appended(log, ms[0]), ms[1..])
  }

  /** The messages of `ms` sent to group `g`, in order. */
  function OfGroup(ms: seq<Message>, g: string): seq<Message> {
    if ms == [] then []
    else (if ms[0].groupId == g then [ms[0]] else []) + OfGroup(ms[1..], g)
  }

  /** Reading a group's history after a run of appends gives the history it had, then
      exactly the appended messages of that group, in the order they were sent. */
  lemma {:induction false} HistoryOfAppends(log: Log, ms: seq<Message>, g: string)
    ensures History(AppendAll(log, ms), g) == History(log, g) + OfGroup(ms, g)
    decreases ms
  {
    if ms != [] {
      var next := Appended(log, ms[0]);
      HistoryOfAppends(next, ms[1..], g);
      assert AppendAll(log, ms) == AppendAll(next, ms[1..]);
      var own := if ms[0].groupId == g then [ms[0]] else [];
      assert History(next, g) == History(log, g) + own;
      assert OfGroup(ms, g) == own + OfGroup(ms[1..], g);
    }
  }

  /** A group that was never sent a message has an empty history, not an error. */
  lemma {:induction false} HistoryOfSilentGroup(ms: seq<Message>, g: string)
    requires forall i :: 0 <= i < |ms| ==> ms[i].groupId != g
    ensures History(AppendAll(map[], ms), g) == []
  {
    HistoryOfAppends(map[], ms, g);
    NoneOfGroup(ms, g);
  }

  /** No message of `ms` is addressed to `g`, so none is kept for it. */
  lemma {:induction false} NoneOfGroup(ms: seq<Message>, g: string)
    requires forall i :: 0 <= i < |ms| ==> ms[i].groupId != g
    ensures OfGroup(ms, g) == []
  {
    if ms != [] {
      NoneOfGroup(ms[1..], g);
    }
  }

  /** The `inMemoryMessages` map, owned by the server process. */
  class MessageLog {
    var groups: Log

    constructor ()
      ensures groups == map[]
    {
      groups := map[];
    }

    /** `arr = get(groupId) || []; arr.push(msg); set(groupId, arr)`. */
    method Append(m: Message)
      modifies this
      ensures groups == Appended(old(groups), m)
      ensures History(groups, m.groupId) == History(old(groups), m.groupId) + [m]
      ensures forall h :: h != m.groupId ==> History(groups, h) == History(old(groups), h)
    {
      var arr := if m.groupId in groups then groups[m.groupId] else [];
      arr := arr + [m];
      groups := groups[m.groupId := arr];
    }

    /** The history route without a database. Reads the log and changes nothing. */
    method Read(g: string) returns (msgs: seq<Message>)
      ensures msgs == History(groups, g)
      ensures g !in groups ==> msgs == []
    {
      if g in groups {
        msgs := groups[g];
      } else {
        msgs := [];
      }
    }
  }
}
