/**
  The presence registry of the chat server: a table from socket id to
  `{ userName, groupId, isAnon }`, updated by the `join`, `set_anon` and
  `disconnect` handlers and read by `getPresenceForGroup`.

  The table is kept the way a JavaScript `Map` keeps it: a sequence of
  (key, value) pairs in insertion order, one pair per key. Setting an existing
  key replaces its value where it stands; deleting a key closes the gap.
 */
module Presence {
  import opened Common

  /** A socket id. */
  type ConnId = string

  /** One row of the registry. */
  datatype Entry = Entry(userName: string, groupId: string, isAnon: bool)

  /** One element of the list broadcast as the `presence` event. */
  datatype Member = Member(userName: string, isAnon: bool)

  /** The registry's contents in the Map's iteration order. */
  type Table = seq<(ConnId, Entry)>

  /** `presence.get(c)`. */
  function Lookup(t: Table, c: ConnId): Option<Entry> {
    if t == [] then None
    else if t[0].0 == c then Some(t[0].1)
    else Lookup(t[1..], c)
  }

  /** The position of `c`'s row in iteration order. */
  function IndexOf(t: Table, c: ConnId): (i: nat)
    requires Lookup(t, c).Some?
    ensures i < |t| && t[i].0 == c && Lookup(t, c) == Some(t[i].1)
  {
    if t[0].0 == c then 0 else 1 + IndexOf(t[1..], c)
  }

  /** No key occurs twice: what a Map guarantees of its entries. */
  predicate UniqueKeys(t: Table) {
    t == [] || (Lookup(t[1..], t[0].0) == None && UniqueKeys(t[1..]))
  }

  /** `presence.set(c, e)`: an existing key keeps its place and gets the new value,
      a new key goes to the end. */
  function Put(t: Table, c: ConnId, e: Entry): (r: Table)
    ensures Lookup(r, c) == Some(e)
    ensures forall d :: d != c ==> Lookup(r, d) == Lookup(t, d)
    ensures r == if Lookup(t, c).Some? then t[IndexOf(t, c) := (c, e)] else t + [(c, e)]
    ensures UniqueKeys(t) ==> UniqueKeys(r)
  {
    if t == [] then [(c, e)]
    else if t[0].0 == c then [(c, e)] + t[1..]
    else
      var r := [t[0]] + Put(t[1..], c, e);
      assert r[1..] == Put(t[1..], c, e);
      r
  }

  /** `presence.delete(c)`: the row of `c` goes and the rows after it close the gap;
      every other key keeps its value and its order. */
  function Remove(t: Table, c: ConnId): (r: Table)
    ensures forall d :: d != c ==> Lookup(r, d) == Lookup(t, d)
    ensures r == if Lookup(t, c).Some? then t[..IndexOf(t, c)] + t[IndexOf(t, c) + 1..] else t
    ensures UniqueKeys(t) ==> UniqueKeys(r) && Lookup(r, c) == None
  {
    if t == [] then []
    else if t[0].0 == c then t[1..]
    else
      var rest := Remove(t[1..], c);
      var r := [t[0]] + rest;
      assert r[1..] == rest;
      assert Lookup(t, c).Some? ==>
        var j := IndexOf(t[1..], c);
        IndexOf(t, c) == j + 1 && rest == t[1..][..j] + t[1..][j + 1..] &&
        r == t[..j + 1] + t[j + 2..];
      r
  }

  /** The `set_anon` update: the flag of an existing row changes, nothing else does. */
  function AnonSet(t: Table, c: ConnId, flag: bool): (r: Table)
    ensures Lookup(t, c) == None ==> r == t
    ensures Lookup(t, c).Some? ==> Lookup(r, c) == Some(Lookup(t, c).value.(isAnon := flag))
    ensures Lookup(t, c).Some? ==> r == t[IndexOf(t, c) := (c, Lookup(t, c).value.(isAnon := flag))]
    ensures forall d :: d != c ==> Lookup(r, d) == Lookup(t, d)
    ensures UniqueKeys(t) ==> UniqueKeys(r)
  {
    match Lookup(t, c)
    case None => t
    case Some(e) => Put(t, c, e.(isAnon := flag))
  }

  /** How one row appears in the broadcast member list. */
  function Shown(e: Entry): Member {
    Member(ShownName(e.isAnon, e.userName), e.isAnon)
  }

  /** The member list of group `g`: what `getPresenceForGroup(g)` returns. */
  function PresenceFor(t: Table, g: string): seq<Member> {
    if t == [] then []
    else (if t[0].1.groupId == g then [Shown(t[0].1)] else []) + PresenceFor(t[1..], g)
  }

  /** The connections whose row is in group `g`. */
  function Members(t: Table, g: string): set<ConnId> {
    if t == [] then {}
    else (if t[0].1.groupId == g then {t[0].0} else {}) + Members(t[1..], g)
  }

  /** Connection `c` is registered, in group `g`. */
  predicate Online(t: Table, c: ConnId, g: string) {
    Lookup(t, c).Some? && Lookup(t, c).value.groupId == g
  }

  /** `Members` holds exactly the registered connections of the group. */
  lemma {:induction false} MembersAreOnline(t: Table, g: string, c: ConnId)
    requires UniqueKeys(t)
    ensures c in Members(t, g) <==> Online(t, c, g)
  {
    if t != [] {
      MembersAreOnline(t[1..], g, c);
      if t[0].0 == c {
        MembersAreOnline(t[1..], g, t[0].0);
      }
    }
  }

  /** One list item per registered connection of the group, and no more. */
  lemma {:induction false} PresenceForCount(t: Table, g: string)
    requires UniqueKeys(t)
    ensures |PresenceFor(t, g)| == |Members(t, g)|
  {
    if t != [] {
      PresenceForCount(t[1..], g);
      if t[0].1.groupId == g {
        MembersAreOnline(t[1..], g, t[0].0);
        assert t[0].0 !in Members(t[1..], g);
        assert Members(t, g) == Members(t[1..], g) + {t[0].0};
      } else {
        assert Members(t, g) == Members(t[1..], g);
      }
    }
  }

  /** Every registered connection of the group appears in the list, shown by `Shown`. */
  lemma {:induction false} PresenceForComplete(t: Table, g: string, c: ConnId)
    requires Online(t, c, g)
    ensures Shown(Lookup(t, c).value) in PresenceFor(t, g)
  {
    if t[0].0 != c {
      PresenceForComplete(t[1..], g, c);
    }
  }

  /** Every item of the list is the shown form of some registered connection of the group. */
  lemma {:induction false} PresenceForSound(t: Table, g: string, m: Member)
    requires UniqueKeys(t)
    requires m in PresenceFor(t, g)
    ensures exists c :: Online(t, c, g) && Shown(Lookup(t, c).value) == m
  {
    var k := t[0].0;
    if t[0].1.groupId == g && m == Shown(t[0].1) {
      assert Online(t, k, g);
    } else {
      PresenceForSound(t[1..], g, m);
      var c :| Online(t[1..], c, g) && Shown(Lookup(t[1..], c).value) == m;
      assert c != k;
      assert Online(t, c, g);
    }
  }

  /** Every item of the list flagged anonymous is shown as "Anonymous", and every item is
      flagged exactly as the row it comes from. */
  lemma {:induction false} PresenceForHidesAnonymous(t: Table, g: string, k: nat)
    requires k < |PresenceFor(t, g)|
    ensures PresenceFor(t, g)[k].isAnon ==> PresenceFor(t, g)[k].userName == AnonymousName
    ensures exists i :: 0 <= i < |t| && t[i].1.groupId == g && PresenceFor(t, g)[k] == Shown(t[i].1)
  {
    var head := if t[0].1.groupId == g then [Shown(t[0].1)] else [];
    assert PresenceFor(t, g) == head + PresenceFor(t[1..], g);
    if k < |head| {
      assert t[0].1.groupId == g && PresenceFor(t, g)[k] == Shown(t[0].1);
    } else {
      PresenceForHidesAnonymous(t[1..], g, k - |head|);
      var i :| 0 <= i < |t[1..]| && t[1..][i].1.groupId == g && PresenceFor(t[1..], g)[k - |head|] == Shown(t[1..][i].1);
      assert t[i + 1] == t[1..][i];
    }
  }

  /** A group nobody is registered in has the empty list, and only such a group. */
  lemma PresenceForEmpty(t: Table, g: string)
    requires UniqueKeys(t)
    ensures PresenceFor(t, g) == [] <==> forall c :: !Online(t, c, g)
  {
    PresenceForCount(t, g);
    if c :| Online(t, c, g) {
      MembersAreOnline(t, g, c);
    } else if PresenceFor(t, g) != [] {
      PresenceForSound(t, g, PresenceFor(t, g)[0]);
    }
  }

  /** After `set(c, e)` the group of `c` is `e.groupId`; no other membership changes. */
  lemma MembersPut(t: Table, c: ConnId, e: Entry, g: string)
    requires UniqueKeys(t)
    ensures Members(Put(t, c, e), g) == (Members(t, g) - {c}) + (if e.groupId == g then {c} else {})
  {
    var r := Put(t, c, e);
    forall d ensures d in Members(r, g) <==> d in (Members(t, g) - {c}) + (if e.groupId == g then {c} else {}) {
      MembersAreOnline(r, g, d);
      MembersAreOnline(t, g, d);
    }
  }

  /** After `delete(c)`, `c` is in no group; no other membership changes. */
  lemma MembersRemove(t: Table, c: ConnId, g: string)
    requires UniqueKeys(t)
    ensures Members(Remove(t, c), g) == Members(t, g) - {c}
  {
    var r := Remove(t, c);
    forall d ensures d in Members(r, g) <==> d in Members(t, g) - {c} {
      MembersAreOnline(r, g, d);
      MembersAreOnline(t, g, d);
    }
  }

  /** A second `disconnect` of the same connection, or one of a connection that never
      joined, changes nothing. */
  lemma DisconnectIdempotent(t: Table, c: ConnId)
    requires UniqueKeys(t)
    ensures Remove(Remove(t, c), c) == Remove(t, c)
    ensures Lookup(t, c) == None ==> Remove(t, c) == t
  {
  }

  /** Toggling anonymity never moves anyone between groups. */
  lemma MembersAnonSet(t: Table, c: ConnId, flag: bool, g: string)
    requires UniqueKeys(t)
    ensures Members(AnonSet(t, c, flag), g) == Members(t, g)
  {
    var r := AnonSet(t, c, flag);
    forall d ensures d in Members(r, g) <==> d in Members(t, g) {
      MembersAreOnline(r, g, d);
      MembersAreOnline(t, g, d);
    }
  }

  /** The three handlers that change the registry, as events of a connection's life. */
  datatype Change =
    | Joined(conn: ConnId, userName: string, groupId: string)
    | AnonToggled(conn: ConnId, isAnon: bool)
    | Left(conn: ConnId)

  /** The effect of one handler on the table. */
  function Apply(t: Table, ch: Change): Table {
    match ch
    case Joined(c, u, g) => Put(t, c, Entry(u, g, false))
    case AnonToggled(c, f) => AnonSet(t, c, f)
    case Left(c) => Remove(t, c)
  }

  /** The table after a run of handlers from server start. */
  function Replay(chs: seq<Change>): Table {
    if chs == [] then [] else Apply(Replay(chs[..|chs| - 1]), chs[|chs| - 1])
  }

  /** The group of the last `join` of `c` that no `disconnect` of `c` followed. */
  function LastGroup(chs: seq<Change>, c: ConnId): Option<string> {
    if chs == [] then None
    else
      var prior := LastGroup(chs[..|chs| - 1], c);
      match chs[|chs| - 1]
      case Joined(d, _, g) => if d == c then Some(g) else prior
      case AnonToggled(_, _) => prior
      case Left(d) => if d == c then None else prior
  }

  /** Whatever the run of handlers, a group's members are exactly the connections whose
      last `join` named that group and that have not disconnected since. */
  lemma {:induction false} ReplayMembership(chs: seq<Change>, c: ConnId, g: string)
    ensures UniqueKeys(Replay(chs))
    ensures c in Members(Replay(chs), g) <==> LastGroup(chs, c) == Some(g)
  {
    if chs != [] {
      var prior := chs[..|chs| - 1];
      ReplayMembership(prior, c, g);
      var t := Replay(prior);
      match chs[|chs| - 1]
      case Joined(d, u, h) => MembersPut(t, d, Entry(u, h, false), g);
      case AnonToggled(d, f) => MembersAnonSet(t, d, f, g);
      case Left(d) => MembersRemove(t, d, g);
    }
  }

  /** The registry object that the socket handlers share. */
  class Registry {
    var entries: Table

    ghost predicate Valid()
      reads this
    {
      UniqueKeys(entries)
    }

    constructor ()
      ensures Valid() && entries == []
    {
      entries := [];
    }

    /** `presence.set(socket.id, { userName, groupId, isAnon: false })`. */
    method Join(c: ConnId, userName: string, groupId: string)
      requires Valid()
      modifies this
      ensures Valid()
      ensures entries == Put(old(entries), c, Entry(userName, groupId, false))
      ensures Lookup(entries, c) == Some(Entry(userName, groupId, false))
      ensures forall d :: d != c ==> Lookup(entries, d) == Lookup(old(entries), d)
    {
      entries := Put(entries, c, Entry(userName, groupId, false));
    }

    /** The `set_anon` handler's update: only an existing row changes, and only its flag.
        Returns the updated row, which names the group to re-broadcast to. */
    method SetAnon(c: ConnId, flag: bool) returns (updated: Option<Entry>)
      requires Valid()
      modifies this
      ensures Valid()
      ensures entries == AnonSet(old(entries), c, flag)
      ensures old(Lookup(entries, c)) == None ==> updated == None && entries == old(entries)
      ensures old(Lookup(entries, c)).Some? ==>
                updated == Some(old(Lookup(entries, c)).value.(isAnon := flag)) &&
                Lookup(entries, c) == updated
      ensures forall d :: d != c ==> Lookup(entries, d) == Lookup(old(entries), d)
    {
      var p := Lookup(entries, c);
      updated := None;
      if p.Some? {
        var q := p.value.(isAnon := flag);
        entries := Put(entries, c, q);
        updated := Some(q);
      }
    }

    /** The `disconnect` handler's update: removes and returns the row of `c`, if any. */
    method Disconnect(c: ConnId) returns (removed: Option<Entry>)
      requires Valid()
      modifies this
      ensures Valid()
      ensures entries == Remove(old(entries), c)
      ensures removed == old(Lookup(entries, c))
      ensures Lookup(entries, c) == None
      ensures removed == None ==> entries == old(entries)
      ensures forall d :: d != c ==> Lookup(entries, d) == Lookup(old(entries), d)
    {
      removed := Lookup(entries, c);
      if removed.Some? {
        entries := Remove(entries, c);
      }
    }

    /** `getPresenceForGroup(g)`: walks the rows in order and collects the shown form of
        each row of group `g`. Reads the registry and changes nothing. */
    method GetPresenceForGroup(g: string) returns (users: seq<Member>)
      ensures users == PresenceFor(entries, g)
    {
      users := [];
      var i := 0;
      while i < |entries|
        invariant 0 <= i <= |entries|
        invariant users + PresenceFor(entries[i..], g) == PresenceFor(entries, g)
      {
        var (sid, info) := entries[i];
        assert entries[i..][1..] == entries[i + 1..];
        if info.groupId == g {
          users := users + [Member(ShownName(info.isAnon, info.userName), info.isAnon)];
        }
        i := i + 1;
      }
    }
  }
}
