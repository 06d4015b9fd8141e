// WireGuard address allocation and peer registration, over runs of register and unregister.

module Vlan {
  import opened Bytes

  datatype Ip = Ip(a: byte, b: byte, c: byte, d: byte)

  // `base` is the network address of the subnet, already masked to `prefix` bits.
  datatype Config = Config(base: Ip, prefix: nat, gateway: Ip)

  type Member = (nat, nat)

  datatype Row = Row(publicKey: string, address: Ip)

  // The peer table, and the device's routing table: which address goes to which public key. A
  // peer that has lost its address stays configured, but nothing is sent to it; it is left out.
  datatype State = State(table: map<Member, Row>, device: map<string, Ip>)

  datatype Event = Register(room: nat, user: nat, publicKey: string) | Unregister(room: nat, user: nat)

  const FIRST: nat := 2
  const LAST: nat := 254

  function Candidate(c: Config, i: nat): Ip
    requires i < 256
  {
    Ip(c.base.a, c.base.b, c.base.c, i)
  }

  ghost function UsedIn(table: map<Member, Row>, room: nat): set<Ip> {
    set m | m in table && m.0 == room :: table[m].address
  }

  ghost function Used(c: Config, table: map<Member, Row>, room: nat): set<Ip> {
    UsedIn(table, room) + {c.gateway}
  }

  // The lowest free host from i on.
  function LowestFree(c: Config, used: set<Ip>, i: nat): (r: Option<nat>)
    requires i <= LAST + 1
    ensures r.Some? ==>
      && i <= r.value <= LAST && Candidate(c, r.value) !in used
      && forall j :: i <= j < r.value ==> Candidate(c, j) in used
    ensures r.None? <==> forall j :: i <= j <= LAST ==> Candidate(c, j) in used
    decreases LAST + 1 - i
  {
    if i > LAST then None else if Candidate(c, i) !in used then Some(i) else LowestFree(c, used, i + 1)
  }

  ghost function Allocation(c: Config, table: map<Member, Row>, room: nat): Option<nat> {
    LowestFree(c, Used(c, table, room), FIRST)
  }

  // Configures a peer with one allowed address. WireGuard routes an address to one peer, so any
  // other peer that had it loses it.
  function Route(device: map<string, Ip>, key: string, address: Ip): map<string, Ip> {
    (map k | k in device && device[k] != address :: device[k])[key := address]
  }

  ghost function Step(c: Config, s: State, ev: Event): State {
    match ev
    case Register(room, user, key) =>
      var m := (room, user);
      if m in s.table then
        var row := s.table[m];
        var device := if row.publicKey != key then s.device - {row.publicKey} else s.device;
        State(s.table[m := row.(publicKey := key)], Route(device, key, row.address))
      else (
        match Allocation(c, s.table, room)
        case None => s
        case Some(i) => State(s.table[m := Row(key, Candidate(c, i))], Route(s.device, key, Candidate(c, i))))
    case Unregister(room, user) =>
      var m := (room, user);
      if m in s.table then State(s.table - {m}, s.device - {s.table[m].publicKey}) else s
  }

  // The table survives a restart; the device starts empty and is filled by later joins.
  ghost function Run(c: Config, table: map<Member, Row>, evs: seq<Event>): State {
    if evs == [] then State(table, map[]) else Step(c, Run(c, table, evs[..|evs| - 1]), evs[|evs| - 1])
  }

  // ---------------------------------------------------------------- in place

  class Coordinator {
    const c: Config
    var table: map<Member, Row>
    var device: map<string, Ip>

    constructor (c: Config, table: map<Member, Row>)
      ensures this.c == c && View() == State(table, map[])
    {
      this.c, this.table, device := c, table, map[];
    }

    function View(): State
      reads this
    {
      State(table, device)
    }

    method AllocateIP(room: nat) returns (host: Option<nat>)
      ensures host == Allocation(c, table, room)
    {
      var usedSet: set<Ip> := {};
      var rest := table.Keys;
      while rest != {}
        invariant rest <= table.Keys
        invariant usedSet == set m | m in table && m !in rest && m.0 == room :: table[m].address
      {
        var m :| m in rest;
        if m.0 == room {
          usedSet := usedSet + {table[m].address};
        }
        rest := rest - {m};
      }
      usedSet := usedSet + {c.gateway};
      assert usedSet == Used(c, table, room);
      for i := FIRST to LAST + 1
        invariant forall j :: FIRST <= j < i ==> Candidate(c, j) in usedSet
      {
        if Candidate(c, i) !in usedSet {
          return Some(i);
        }
      }
      return None;
    }

    method RegisterPeer(room: nat, user: nat, publicKey: string) returns (peer: Option<Row>)
      modifies this
      ensures View() == Step(c, old(View()), Register(room, user, publicKey))
      ensures peer.None? <==> (room, user) !in old(table) && Allocation(c, old(table), room).None?
      ensures peer.Some? ==>
        (room, user) in table && table[(room, user)] == peer.value && peer.value.publicKey == publicKey
    {
      var m := (room, user);
      if m in table {
        var existing := table[m];
        if existing.publicKey != publicKey {
          var oldKey := existing.publicKey;
          existing := existing.(publicKey := publicKey);
          table := table[m := existing];
          device := device - {oldKey};
        }
        device := Route(device, existing.publicKey, existing.address);
        assert table == old(table)[m := existing];
        return Some(existing);
      }
      var host := AllocateIP(room);
      if host.None? {
        return None;
      }
      var row := Row(publicKey, Candidate(c, host.value));
      table := table[m := row];
      device := Route(device, publicKey, row.address);
      return Some(row);
    }

    method UnregisterPeer(room: nat, user: nat)
      modifies this
      ensures View() == Step(c, old(View()), Unregister(room, user))
    {
      var m := (room, user);
      if m in table {
        device := device - {table[m].publicKey};
        table := table - {m};
      }
    }
  }

  // ---------------------------------------------------------------- over runs

  // Addresses of one room are allocatable hosts, pairwise distinct and never the gateway.
  ghost predicate AddressesOk(c: Config, table: map<Member, Row>) {
    && (forall m :: m in table ==> table[m].address != c.gateway)
    && (forall m :: m in table ==> exists i: nat :: FIRST <= i <= LAST && table[m].address == Candidate(c, i))
    && (forall m, n :: m in table && n in table && m.0 == n.0 && m != n ==> table[m].address != table[n].address)
  }

  // Every device entry is the key and address of some row.
  ghost predicate DeviceBacked(s: State) {
    forall k :: k in s.device ==> exists m :: m in s.table && s.table[m] == Row(k, s.device[k])
  }

  lemma RegisterKeepsAddresses(c: Config, s: State, room: nat, user: nat, key: string)
    requires AddressesOk(c, s.table)
    ensures AddressesOk(c, Step(c, s, Register(room, user, key)).table)
  {
    var m := (room, user);
    if m !in s.table && Allocation(c, s.table, room).Some? {
      var i := Allocation(c, s.table, room).value;
      var a := Candidate(c, i);
      assert a != c.gateway && FIRST <= i <= LAST && a !in UsedIn(s.table, room);
      forall n | n in s.table && n.0 == room ensures s.table[n].address != a {
        assert s.table[n].address in UsedIn(s.table, room);
      }
      hide Route, LowestFree, UsedIn, Allocation;
      NewRowKeepsAddresses(c, s.table, m, key, i);
    }
    hide Route, LowestFree, UsedIn;
  }

  lemma NewRowKeepsAddresses(c: Config, table: map<Member, Row>, m: Member, key: string, i: nat)
    requires AddressesOk(c, table) && m !in table && FIRST <= i <= LAST && Candidate(c, i) != c.gateway
    requires forall n | n in table && n.0 == m.0 :: table[n].address != Candidate(c, i)
    ensures AddressesOk(c, table[m := Row(key, Candidate(c, i))])
  {
  }

  lemma StepKeepsBacking(c: Config, s: State, ev: Event)
    requires DeviceBacked(s)
    ensures DeviceBacked(Step(c, s, ev))
  {
    var t := Step(c, s, ev);
    var m := (ev.room, ev.user);
    forall k | k in t.device ensures exists n :: n in t.table && t.table[n] == Row(k, t.device[k]) {
      if m in t.table && t.table[m] == Row(k, t.device[k]) {
      } else {
        assert k in s.device && t.device[k] == s.device[k];
        var n :| n in s.table && s.table[n] == Row(k, s.device[k]);
        assert n in t.table && t.table[n] == s.table[n];
      }
    }
  }

  // For any table the server starts from and any serial calls, in any number of rooms.
  lemma {:induction false} AllocationOverRuns(c: Config, table: map<Member, Row>, evs: seq<Event>)
    requires AddressesOk(c, table)
    ensures AddressesOk(c, Run(c, table, evs).table) && DeviceBacked(Run(c, table, evs))
  {
    if evs != [] {
      var before, ev := evs[..|evs| - 1], evs[|evs| - 1];
      AllocationOverRuns(c, table, before);
      var s := Run(c, table, before);
      StepKeepsBacking(c, s, ev);
      if ev.Register? { RegisterKeepsAddresses(c, s, ev.room, ev.user, ev.publicKey); }
    }
  }

  // ---------------------------------------------------------------- every peer is on the device

  // The key of a registration is not the key of another live peer.
  ghost predicate KeyFree(s: State, ev: Event) {
    ev.Register? ==> forall m :: m in s.table && m != (ev.room, ev.user) ==> s.table[m].publicKey != ev.publicKey
  }

  ghost predicate KeysFree(c: Config, table: map<Member, Row>, evs: seq<Event>) {
    forall n :: 0 <= n < |evs| ==> KeyFree(Run(c, table, evs[..n]), evs[n])
  }

  ghost predicate KeysDistinct(table: map<Member, Row>) {
    forall m, n :: m in table && n in table && m != n ==> table[m].publicKey != table[n].publicKey
  }

  // Members that joined since the server started.
  function Joined(evs: seq<Event>): set<Member> {
    if evs == [] then {} else
      var ev := evs[|evs| - 1];
      if ev.Register? then Joined(evs[..|evs| - 1]) + {(ev.room, ev.user)} else Joined(evs[..|evs| - 1])
  }

  ghost predicate OnDevice(s: State, m: Member) {
    m in s.table && s.table[m].publicKey in s.device && s.device[s.table[m].publicKey] == s.table[m].address
  }

  lemma FirstPeer(c: Config, room: nat, user: nat, key: string)
    requires c.gateway == Candidate(c, 1)
    ensures Run(c, map[], [Register(room, user, key)]) ==
      State(map[(room, user) := Row(key, Candidate(c, 2))], map[key := Candidate(c, 2)])
  {
    var e := [Register(room, user, key)];
    assert e[..0] == [];
    assert Used(c, map[], room) == {c.gateway};
    assert Candidate(c, 2) !in Used(c, map[], room);
    assert Allocation(c, map[], room) == Some(2);
    assert Run(c, map[], e) == Step(c, State(map[], map[]), Register(room, user, key));
  }

  // Two peers that share a key knock each other off the device: the first one's entry goes.
  lemma SharedKeyExample(c: Config, key: string)
    requires c.gateway == Candidate(c, 1)
    ensures var s := Run(c, map[], [Register(1, 1, key), Register(1, 2, key)]);
      (1, 1) in s.table && !OnDevice(s, (1, 1))
  {
    var e1 := [Register(1, 1, key)];
    var e2 := e1 + [Register(1, 2, key)];
    assert e1[..0] == [] && e2[..1] == e1;
    var s1 := Run(c, map[], e1);
    FirstPeer(c, 1, 1, key);
    assert s1.table == map[(1, 1) := Row(key, Candidate(c, 2))];
    assert s1.table[(1, 1)].address in UsedIn(s1.table, 1);
    assert Allocation(c, s1.table, 1).Some? ==> Allocation(c, s1.table, 1).value != 2;
    assert Used(c, s1.table, 1) == {c.gateway, Candidate(c, 2)};
    assert Candidate(c, 3) !in Used(c, s1.table, 1);
    assert e2 == [Register(1, 1, key), Register(1, 2, key)];
  }

  // Addresses are unique per room only: the first peers of two rooms share one, and the second
  // takes it away from the first on the device.
  lemma CrossRoomExample(c: Config, key: string, other: string)
    requires c.gateway == Candidate(c, 1)
    ensures var s := Run(c, map[], [Register(1, 1, key), Register(2, 1, other)]);
      && s.table == map[(1, 1) := Row(key, Candidate(c, 2)), (2, 1) := Row(other, Candidate(c, 2))]
      && OnDevice(s, (2, 1)) && (OnDevice(s, (1, 1)) <==> key == other)
  {
    var e1 := [Register(1, 1, key)];
    var e2 := e1 + [Register(2, 1, other)];
    assert e1[..0] == [] && e2[..1] == e1;
    var s1 := Run(c, map[], e1);
    FirstPeer(c, 1, 1, key);
    assert s1.table == map[(1, 1) := Row(key, Candidate(c, 2))];
    assert Used(c, s1.table, 2) == {c.gateway};
    assert Allocation(c, s1.table, 2) == Some(2);
    assert e2 == [Register(1, 1, key), Register(2, 1, other)];
  }

  // ---------------------------------------------------------------- when a peer loses its device entry

  // A registration goes through: the member has a row already or gets an address.
  ghost predicate Succeeds(c: Config, s: State, room: nat, user: nat) {
    (room, user) in s.table || Allocation(c, s.table, room).Some?
  }

  // The address the member has after a registration that goes through.
  ghost function AddressFor(c: Config, s: State, room: nat, user: nat): Ip
    requires Succeeds(c, s, room, user)
  {
    if (room, user) in s.table then s.table[(room, user)].address else Candidate(c, Allocation(c, s.table, room).value)
  }

  // The call takes the device entry of another member m away: its caller gives up the key of m,
  // or takes it for another address, or takes the address of m for another key.
  ghost predicate Displaces(c: Config, s: State, ev: Event, m: Member) {
    var x := (ev.room, ev.user);
    m in s.table && m != x &&
    var key := s.table[m].publicKey;
    match ev
    case Unregister(_, _) => x in s.table && s.table[x].publicKey == key
    case Register(room, user, k) =>
      || (x in s.table && s.table[x].publicKey == key && k != key)
      || (Succeeds(c, s, room, user) && (k == key) != (AddressFor(c, s, room, user) == s.table[m].address))
  }

  // The call writes the device entry that m has afterwards.
  ghost predicate Puts(c: Config, s: State, ev: Event, m: Member) {
    var t := Step(c, s, ev).table;
    && ev.Register? && m in t && (ev.room, ev.user) in t
    && t[(ev.room, ev.user)].publicKey == t[m].publicKey && t[(ev.room, ev.user)].address == t[m].address
  }

  lemma OnDeviceStep(c: Config, s: State, ev: Event, m: Member)
    requires m in Step(c, s, ev).table
    ensures OnDevice(Step(c, s, ev), m) <==> Puts(c, s, ev, m) || (OnDevice(s, m) && !Displaces(c, s, ev, m))
    ensures Displaces(c, s, ev, m) ==> !Puts(c, s, ev, m)
    ensures ev.Register? && m == (ev.room, ev.user) ==> Puts(c, s, ev, m)
    ensures m in s.table || (ev.Register? && m == (ev.room, ev.user))
  {
    hide LowestFree;
  }

  // After the first n calls.
  ghost function StateAt(c: Config, table: map<Member, Row>, evs: seq<Event>, n: nat): State
    requires n <= |evs|
  {
    Run(c, table, evs[..n])
  }

  function JoinedAt(evs: seq<Event>, n: nat): set<Member>
    requires n <= |evs|
  {
    Joined(evs[..n])
  }

  // All calls but the last.
  function Init(evs: seq<Event>): seq<Event>
    requires evs != []
  {
    evs[..|evs| - 1]
  }

  lemma InitAt(c: Config, table: map<Member, Row>, evs: seq<Event>, n: nat)
    requires n < |evs|
    ensures |Init(evs)| == |evs| - 1 && (n < |evs| - 1 ==> Init(evs)[n] == evs[n])
    ensures StateAt(c, table, Init(evs), n) == StateAt(c, table, evs, n) && JoinedAt(Init(evs), n) == JoinedAt(evs, n)
  {
    assert Init(evs)[..n] == evs[..n];
  }

  // The i-th call wrote the device entry of m, and m has kept its row and its entry since.
  ghost predicate EntryKept(c: Config, table: map<Member, Row>, evs: seq<Event>, i: nat, m: Member)
    requires i < |evs|
  {
    && Puts(c, StateAt(c, table, evs, i), evs[i], m)
    && forall j: nat | i < j < |evs| :: Keeps(c, StateAt(c, table, evs, j), evs[j], m)
  }

  ghost predicate Keeps(c: Config, s: State, ev: Event, m: Member) {
    m in Step(c, s, ev).table && !Displaces(c, s, ev, m)
  }

  ghost predicate SomeEntryKept(c: Config, table: map<Member, Row>, evs: seq<Event>, m: Member) {
    exists i: nat :: i < |evs| && EntryKept(c, table, evs, i, m)
  }

  lemma EntryKeptEarlier(c: Config, table: map<Member, Row>, evs: seq<Event>, i: nat, m: Member)
    requires i + 1 < |evs|
    ensures |Init(evs)| == |evs| - 1
    ensures var n := |evs| - 1;
      EntryKept(c, table, evs, i, m) <==>
      EntryKept(c, table, Init(evs), i, m) && Keeps(c, StateAt(c, table, evs, n), evs[n], m)
  {
    forall j: nat | j < |evs|
      ensures |Init(evs)| == |evs| - 1 && (j < |evs| - 1 ==> Init(evs)[j] == evs[j])
      ensures StateAt(c, table, Init(evs), j) == StateAt(c, table, evs, j) {
      InitAt(c, table, evs, j);
    }
    hide StateAt, Init, Puts, Keeps;
  }

  lemma SomeEntryBefore(c: Config, table: map<Member, Row>, evs: seq<Event>, m: Member)
    requires evs != [] && SomeEntryKept(c, table, evs, m)
    ensures var n := |evs| - 1;
      var s := StateAt(c, table, evs, n);
      Puts(c, s, evs[n], m) || (SomeEntryKept(c, table, Init(evs), m) && Keeps(c, s, evs[n], m))
  {
    hide EntryKept, Puts, Keeps, StateAt, Init;
    var i: nat :| i < |evs| && EntryKept(c, table, evs, i, m);
    if i == |evs| - 1 {
      hide *;
      EntryPuts(c, table, evs, i, m);
    } else {
      hide *;
      EntryKeptEarlier(c, table, evs, i, m);
      SomeEntry(c, table, Init(evs), i, m);
    }
  }

  lemma EntryPuts(c: Config, table: map<Member, Row>, evs: seq<Event>, i: nat, m: Member)
    requires i < |evs| && EntryKept(c, table, evs, i, m)
    ensures Puts(c, StateAt(c, table, evs, i), evs[i], m)
  {
    hide Puts, Keeps, StateAt;
  }

  lemma SomeEntry(c: Config, table: map<Member, Row>, evs: seq<Event>, i: nat, m: Member)
    requires i < |evs| && EntryKept(c, table, evs, i, m)
    ensures SomeEntryKept(c, table, evs, m)
  {
    hide EntryKept;
  }

  lemma SomeEntryAfter(c: Config, table: map<Member, Row>, evs: seq<Event>, m: Member)
    requires evs != []
    requires var n := |evs| - 1;
      var s := StateAt(c, table, evs, n);
      Puts(c, s, evs[n], m) || (SomeEntryKept(c, table, Init(evs), m) && Keeps(c, s, evs[n], m))
    ensures SomeEntryKept(c, table, evs, m)
  {
    var n := |evs| - 1;
    if Puts(c, StateAt(c, table, evs, n), evs[n], m) {
      assert EntryKept(c, table, evs, n, m);
    } else {
      hide EntryKept, Puts, Keeps, StateAt;
      var i: nat :| i < |Init(evs)| && EntryKept(c, table, Init(evs), i, m);
      hide Init;
      EntryKeptEarlier(c, table, evs, i, m);
    }
  }

  lemma LastRun(c: Config, table: map<Member, Row>, evs: seq<Event>)
    requires evs != []
    ensures Run(c, table, evs) == Step(c, StateAt(c, table, evs, |evs| - 1), evs[|evs| - 1])
  {
    hide Step;
  }

  lemma EntryKeptAtLast(c: Config, table: map<Member, Row>, evs: seq<Event>, i: nat, m: Member)
    requires i < |evs| && EntryKept(c, table, evs, i, m)
    ensures var s, ev := StateAt(c, table, evs, |evs| - 1), evs[|evs| - 1]; Puts(c, s, ev, m) || Keeps(c, s, ev, m)
  {
    hide StateAt, Puts, Keeps;
    assert i == |evs| - 1 || Keeps(c, StateAt(c, table, evs, |evs| - 1), evs[|evs| - 1], m);
  }

  lemma KeptHasRow(c: Config, table: map<Member, Row>, evs: seq<Event>, m: Member)
    requires SomeEntryKept(c, table, evs, m)
    ensures m in Run(c, table, evs).table
  {
    hide EntryKept, Run, StateAt, Step;
    var i: nat :| i < |evs| && EntryKept(c, table, evs, i, m);
    LastRun(c, table, evs);
    EntryKeptAtLast(c, table, evs, i, m);
  }

  // In any run, over any rooms and keys: a live peer is on the device with its own address if
  // and only if some call wrote its entry and no later call has displaced it.
  lemma {:induction false} OnDeviceIff(c: Config, table: map<Member, Row>, evs: seq<Event>, m: Member)
    requires m in Run(c, table, evs).table
    ensures OnDevice(Run(c, table, evs), m) <==> SomeEntryKept(c, table, evs, m)
  {
    if evs != [] {
      var n := |evs| - 1;
      var s := Run(c, table, Init(evs));
      assert Run(c, table, evs) == Step(c, s, evs[n]) && StateAt(c, table, evs, n) == s;
      OnDeviceStep(c, s, evs[n], m);
      assert Keeps(c, s, evs[n], m) <==> !Displaces(c, s, evs[n], m);
      hide Run, Step, StateAt, SomeEntryKept, Puts, Displaces, Keeps, OnDevice;
      if SomeEntryKept(c, table, Init(evs), m) {
        KeptHasRow(c, table, Init(evs), m);
      }
      if SomeEntryKept(c, table, evs, m) {
        SomeEntryBefore(c, table, evs, m);
      } else if Puts(c, s, evs[n], m) || (SomeEntryKept(c, table, Init(evs), m) && Keeps(c, s, evs[n], m)) {
        SomeEntryAfter(c, table, evs, m);
      }
      if m in s.table {
        OnDeviceIff(c, table, Init(evs), m);
      }
    }
  }

  ghost predicate NoneDisplacedBy(c: Config, s: State, ev: Event, joined: set<Member>) {
    forall m | m in joined :: !Displaces(c, s, ev, m)
  }

  // No call displaces a peer that has joined since the start.
  ghost predicate NoneDisplaced(c: Config, table: map<Member, Row>, evs: seq<Event>) {
    forall n: nat | n < |evs| :: NoneDisplacedBy(c, StateAt(c, table, evs, n), evs[n], JoinedAt(evs, n))
  }

  ghost predicate JoinedOnDevice(s: State, joined: set<Member>) {
    forall m | m in joined && m in s.table :: OnDevice(s, m)
  }

  ghost predicate AlwaysOnDevice(c: Config, table: map<Member, Row>, evs: seq<Event>) {
    forall n: nat | n <= |evs| :: JoinedOnDevice(StateAt(c, table, evs, n), JoinedAt(evs, n))
  }

  lemma JoinedStep(c: Config, s: State, ev: Event, joined: set<Member>)
    requires JoinedOnDevice(s, joined)
    ensures var joined' := if ev.Register? then joined + {(ev.room, ev.user)} else joined;
      JoinedOnDevice(Step(c, s, ev), joined') <==> NoneDisplacedBy(c, s, ev, joined)
  {
    var t := Step(c, s, ev);
    forall m | m in t.table
      ensures OnDevice(t, m) <==> Puts(c, s, ev, m) || (OnDevice(s, m) && !Displaces(c, s, ev, m))
    {
      OnDeviceStep(c, s, ev, m);
    }
    forall m | m in t.table
      ensures Displaces(c, s, ev, m) ==> !Puts(c, s, ev, m)
      ensures ev.Register? && m == (ev.room, ev.user) ==> Puts(c, s, ev, m)
      ensures m in s.table || (ev.Register? && m == (ev.room, ev.user)) {
      OnDeviceStep(c, s, ev, m);
    }
    assert forall m | Displaces(c, s, ev, m) :: m in t.table by { hide LowestFree; }
    hide Puts, Displaces, OnDevice, Step;
  }

  lemma AlwaysPrefix(c: Config, table: map<Member, Row>, evs: seq<Event>)
    requires evs != []
    ensures AlwaysOnDevice(c, table, evs) <==>
      AlwaysOnDevice(c, table, Init(evs)) && JoinedOnDevice(StateAt(c, table, evs, |evs|), JoinedAt(evs, |evs|))
  {
    var before := Init(evs);
    assert |before| == |evs| - 1;
    hide StateAt, JoinedAt, Init, JoinedOnDevice;
    forall n: nat | n < |evs|
      ensures JoinedOnDevice(StateAt(c, table, before, n), JoinedAt(before, n)) <==>
              JoinedOnDevice(StateAt(c, table, evs, n), JoinedAt(evs, n)) {
      InitAt(c, table, evs, n);
    }
  }

  lemma NonePrefix(c: Config, table: map<Member, Row>, evs: seq<Event>)
    requires evs != []
    ensures var n := |evs| - 1;
      NoneDisplaced(c, table, evs) <==>
      NoneDisplaced(c, table, Init(evs)) && NoneDisplacedBy(c, StateAt(c, table, evs, n), evs[n], JoinedAt(evs, n))
  {
    var before := Init(evs);
    assert |before| == |evs| - 1;
    hide StateAt, JoinedAt, Init, NoneDisplacedBy;
    forall n: nat | n < |before|
      ensures NoneDisplacedBy(c, StateAt(c, table, before, n), before[n], JoinedAt(before, n)) <==>
              NoneDisplacedBy(c, StateAt(c, table, evs, n), evs[n], JoinedAt(evs, n)) {
      InitAt(c, table, evs, n);
    }
  }

  lemma LastStates(c: Config, table: map<Member, Row>, evs: seq<Event>)
    requires evs != []
    ensures var n := |evs| - 1;
      && |Init(evs)| == n
      && StateAt(c, table, Init(evs), n) == StateAt(c, table, evs, n) && JoinedAt(Init(evs), n) == JoinedAt(evs, n)
      && StateAt(c, table, evs, |evs|) == Step(c, StateAt(c, table, evs, n), evs[n])
      && JoinedAt(evs, |evs|) ==
           if evs[n].Register? then JoinedAt(evs, n) + {(evs[n].room, evs[n].user)} else JoinedAt(evs, n)
  {
    InitAt(c, table, evs, |evs| - 1);
    assert evs[..|evs|] == evs;
    hide Step;
  }

  // Throughout a run every live peer that joined since the start is on the device with its own
  // address if and only if no call displaces one of them.
  lemma {:induction false} JoinedStayOnDeviceIff(c: Config, table: map<Member, Row>, evs: seq<Event>)
    ensures AlwaysOnDevice(c, table, evs) <==> NoneDisplaced(c, table, evs)
  {
    if evs == [] {
      assert JoinedAt([], 0) == {};
    } else {
      var n := |evs| - 1;
      JoinedStayOnDeviceIff(c, table, Init(evs));
      AlwaysPrefix(c, table, evs);
      NonePrefix(c, table, evs);
      LastStates(c, table, evs);
      if AlwaysOnDevice(c, table, Init(evs)) {
        hide StateAt, JoinedAt, Step, JoinedOnDevice, NoneDisplacedBy;
        assert JoinedOnDevice(StateAt(c, table, Init(evs), n), JoinedAt(Init(evs), n));
        JoinedStep(c, StateAt(c, table, evs, n), evs[n], JoinedAt(evs, n));
      }
      hide AlwaysOnDevice, NoneDisplaced;
    }
  }

  lemma {:induction false} KeysStayDistinct(c: Config, table: map<Member, Row>, evs: seq<Event>, n: nat)
    requires KeysDistinct(table) && KeysFree(c, table, evs) && n <= |evs|
    ensures KeysDistinct(StateAt(c, table, evs, n).table)
  {
    if n == 0 {
      assert evs[..0] == [];
    } else {
      KeysStayDistinct(c, table, evs, n - 1);
      assert evs[..n][..n - 1] == evs[..n - 1];
      assert KeyFree(Run(c, table, evs[..n - 1]), evs[n - 1]);
      KeysStep(c, StateAt(c, table, evs, n - 1), evs[n - 1]);
    }
  }

  lemma KeysStep(c: Config, s: State, ev: Event)
    requires KeysDistinct(s.table) && KeyFree(s, ev)
    ensures KeysDistinct(Step(c, s, ev).table)
  {
    hide LowestFree, Route;
  }

  // The registration does not give out the address of a peer that has joined.
  ghost predicate AddressFree(c: Config, s: State, ev: Event, joined: set<Member>) {
    ev.Register? && Succeeds(c, s, ev.room, ev.user) ==>
      forall m | m in joined && m in s.table && m != (ev.room, ev.user) ::
        s.table[m].address != AddressFor(c, s, ev.room, ev.user)
  }

  ghost predicate AddressesFree(c: Config, table: map<Member, Row>, evs: seq<Event>) {
    forall n: nat | n < |evs| :: AddressFree(c, StateAt(c, table, evs, n), evs[n], JoinedAt(evs, n))
  }

  lemma FreeMeansNoneDisplaced(c: Config, s: State, ev: Event, joined: set<Member>)
    requires KeysDistinct(s.table) && KeyFree(s, ev)
    ensures NoneDisplacedBy(c, s, ev, joined) <==> AddressFree(c, s, ev, joined)
  {
    hide Allocation;
    if !AddressFree(c, s, ev, joined) {
      var m :| m in joined && m in s.table && m != (ev.room, ev.user) &&
        s.table[m].address == AddressFor(c, s, ev.room, ev.user);
      assert Displaces(c, s, ev, m);
    }
  }

  // While public keys are distinct, every live peer that joined stays on the device if and only
  // if no registration gives out the address of one of them.
  lemma DistinctKeysIff(c: Config, table: map<Member, Row>, evs: seq<Event>)
    requires KeysDistinct(table) && KeysFree(c, table, evs)
    ensures AlwaysOnDevice(c, table, evs) <==> AddressesFree(c, table, evs)
  {
    JoinedStayOnDeviceIff(c, table, evs);
    forall n: nat | n < |evs|
      ensures NoneDisplacedBy(c, StateAt(c, table, evs, n), evs[n], JoinedAt(evs, n)) <==>
              AddressFree(c, StateAt(c, table, evs, n), evs[n], JoinedAt(evs, n))
    {
      KeysStayDistinct(c, table, evs, n);
      assert KeyFree(Run(c, table, evs[..n]), evs[n]);
      FreeMeansNoneDisplaced(c, StateAt(c, table, evs, n), evs[n], JoinedAt(evs, n));
    }
    hide AlwaysOnDevice, StateAt, JoinedAt, NoneDisplacedBy, AddressFree;
  }

  ghost predicate InRoom(table: map<Member, Row>, room: nat) {
    forall m | m in table :: m.0 == room
  }

  lemma {:induction false} StaysInRoom(c: Config, table: map<Member, Row>, evs: seq<Event>, n: nat, room: nat)
    requires AddressesOk(c, table) && InRoom(table, room) && n <= |evs| && forall ev | ev in evs :: ev.room == room
    ensures InRoom(StateAt(c, table, evs, n).table, room) && AddressesOk(c, StateAt(c, table, evs, n).table)
  {
    AllocationOverRuns(c, table, evs[..n]);
    if n == 0 {
      assert evs[..0] == [];
    } else {
      StaysInRoom(c, table, evs, n - 1, room);
      assert evs[..n][..n - 1] == evs[..n - 1];
      assert evs[n - 1] in evs;
      hide AddressesOk, Allocation, Route;
    }
  }

  // In a single room with distinct public keys every live peer that joined stays on the device.
  lemma OneRoomStaysOnDevice(c: Config, table: map<Member, Row>, evs: seq<Event>, room: nat)
    requires KeysDistinct(table) && KeysFree(c, table, evs)
    requires AddressesOk(c, table) && InRoom(table, room) && forall ev | ev in evs :: ev.room == room
    ensures AlwaysOnDevice(c, table, evs)
  {
    forall n: nat | n < |evs|
      ensures AddressFree(c, StateAt(c, table, evs, n), evs[n], JoinedAt(evs, n))
    {
      StaysInRoom(c, table, evs, n, room);
      assert evs[n] in evs;
      FreshAddress(c, StateAt(c, table, evs, n), evs[n], JoinedAt(evs, n));
    }
    DistinctKeysIff(c, table, evs);
    hide AlwaysOnDevice, StateAt, JoinedAt, AddressFree, KeysFree, KeysDistinct;
  }

  lemma FreshAddress(c: Config, s: State, ev: Event, joined: set<Member>)
    requires AddressesOk(c, s.table) && InRoom(s.table, ev.room)
    ensures AddressFree(c, s, ev, joined)
  {
    if ev.Register? && Succeeds(c, s, ev.room, ev.user) {
      forall m | m in s.table && m != (ev.room, ev.user)
        ensures s.table[m].address != AddressFor(c, s, ev.room, ev.user)
      {
        assert s.table[m].address in UsedIn(s.table, ev.room);
      }
    }
  }

  ghost predicate OneToOne(device: map<string, Ip>) {
    forall k, l :: k in device && l in device && device[k] == device[l] ==> k == l
  }

  lemma RouteKeepsOneToOne(device: map<string, Ip>, key: string, address: Ip, dropped: string)
    requires OneToOne(device)
    ensures OneToOne(Route(device, key, address)) && OneToOne(Route(device - {dropped}, key, address))
    ensures OneToOne(device - {dropped})
  {
  }

  // The device never routes one address to two peers.
  lemma {:induction false} OneRoutePerAddress(c: Config, table: map<Member, Row>, evs: seq<Event>)
    ensures OneToOne(Run(c, table, evs).device)
  {
    if evs == [] {
    } else {
      var before, ev := evs[..|evs| - 1], evs[|evs| - 1];
      var s := Run(c, table, before);
      var m := (ev.room, ev.user);
      OneRoutePerAddress(c, table, before);
      var dropped := if m in s.table then s.table[m].publicKey else "";
      RouteKeepsOneToOne(s.device, "", c.gateway, dropped);
      if ev.Register? && Succeeds(c, s, ev.room, ev.user) {
        RouteKeepsOneToOne(s.device, ev.publicKey, AddressFor(c, s, ev.room, ev.user), dropped);
      }
      hide OneToOne, Route, Allocation;
    }
  }

  // Within one room and with distinct stored keys a registration leaves every other peer on the
  // device if and only if no other peer on the device has its key, or the room is full and the
  // caller has no row.
  lemma SharedKeyDisplaces(c: Config, s: State, room: nat, user: nat, key: string)
    requires AddressesOk(c, s.table) && KeysDistinct(s.table) && forall m | m in s.table :: m.0 == room
    ensures (forall m | m != (room, user) && OnDevice(s, m) :: OnDevice(Step(c, s, Register(room, user, key)), m)) <==>
      (forall m | m != (room, user) && OnDevice(s, m) :: s.table[m].publicKey != key)
      || ((room, user) !in s.table && Allocation(c, s.table, room).None?)
  {
    var ev, x := Register(room, user, key), (room, user);
    var t := Step(c, s, ev);
    RegisterKeepsAddresses(c, s, room, user, key);
    forall m | m != x && OnDevice(s, m)
      ensures m in t.table && t.table[m] == s.table[m]
      ensures OnDevice(t, m) <==> s.table[m].publicKey != key || !Succeeds(c, s, room, user) {
      OnDeviceStep(c, s, ev, m);
      hide LowestFree;
      if Succeeds(c, s, room, user) {
        assert x in t.table && t.table[x].address == AddressFor(c, s, room, user);
      }
    }
    hide Step, OnDevice, Allocation, KeysDistinct, AddressesOk;
  }

  // ---------------------------------------------------------------- addresses across rooms

  ghost predicate OnlyRegisters(evs: seq<Event>) {
    forall ev | ev in evs :: ev.Register?
  }

  // The hosts below .n, without the gateway.
  ghost function HostsBelow(c: Config, n: nat): set<Ip>
    requires n <= LAST + 1
  {
    set i: nat | FIRST <= i < n && Candidate(c, i) != c.gateway :: Candidate(c, i)
  }

  ghost predicate FilledUp(c: Config, table: map<Member, Row>, room: nat) {
    exists n: nat :: n <= LAST + 1 && UsedIn(table, room) == HostsBelow(c, n)
  }

  lemma AllocationFillsUp(c: Config, table: map<Member, Row>, room: nat, n: nat)
    requires n <= LAST + 1 && UsedIn(table, room) == HostsBelow(c, n) && Allocation(c, table, room).Some?
    ensures var i := Allocation(c, table, room).value;
      UsedIn(table, room) + {Candidate(c, i)} == HostsBelow(c, i + 1)
  {
    var used := UsedIn(table, room);
    var i := Allocation(c, table, room).value;
    assert FIRST <= i <= LAST && Candidate(c, i) !in used && Candidate(c, i) != c.gateway;
    assert forall j: nat | FIRST <= j < i :: Candidate(c, j) in used || Candidate(c, j) == c.gateway;
    hide LowestFree, Allocation, UsedIn;
    NextHost(c, used, n, i);
  }

  // Adding the lowest host that is neither used nor the gateway.
  lemma NextHost(c: Config, used: set<Ip>, n: nat, i: nat)
    requires n <= LAST + 1 && used == HostsBelow(c, n)
    requires FIRST <= i <= LAST && Candidate(c, i) !in used && Candidate(c, i) != c.gateway
    requires forall j: nat | FIRST <= j < i :: Candidate(c, j) in used || Candidate(c, j) == c.gateway
    ensures used + {Candidate(c, i)} == HostsBelow(c, i + 1)
  {
    assert forall j: nat | FIRST <= j < n :: Candidate(c, j) in used || Candidate(c, j) == c.gateway;
    var all := HostsBelow(c, i + 1);
    forall a | a in all ensures a in used + {Candidate(c, i)} {
      var j: nat :| FIRST <= j < i + 1 && Candidate(c, j) != c.gateway && a == Candidate(c, j);
    }
    forall a | a in used ensures a in all {
      var j: nat :| FIRST <= j < n && Candidate(c, j) != c.gateway && a == Candidate(c, j);
      assert j < i + 1;
    }
    assert Candidate(c, i) in all;
  }

  lemma UsedAfterRow(table: map<Member, Row>, m: Member, row: Row, room: nat)
    requires m !in table || table[m].address == row.address
    ensures UsedIn(table[m := row], room) == UsedIn(table, room) + if m.0 == room then {row.address} else {}
  {
    var t := table[m := row];
    forall a | a in UsedIn(table, room) ensures a in UsedIn(t, room) {
      var x :| x in table && x.0 == room && table[x].address == a;
      assert x in t && t[x].address == a;
    }
    if m.0 == room {
      assert m in t && t[m].address == row.address;
    }
  }

  // In every run of registrations from an empty table each room's rows hold exactly its first
  // hosts, the gateway left out.
  lemma {:induction false} RoomsFillUp(c: Config, evs: seq<Event>, room: nat)
    requires OnlyRegisters(evs)
    ensures FilledUp(c, Run(c, map[], evs).table, room)
  {
    if evs == [] {
      assert UsedIn(map[], room) == HostsBelow(c, 0);
    } else {
      var n := |evs| - 1;
      var before, ev := evs[..n], evs[n];
      assert evs == before + [ev];
      RoomsFillUp(c, before, room);
      var s := Run(c, map[], before);
      var m := (ev.room, ev.user);
      if m in s.table {
        UsedAfterRow(s.table, m, s.table[m].(publicKey := ev.publicKey), room);
        assert m.0 == room ==> s.table[m].address in UsedIn(s.table, room);
      } else if Allocation(c, s.table, ev.room).Some? {
        var i := Allocation(c, s.table, ev.room).value;
        UsedAfterRow(s.table, m, Row(ev.publicKey, Candidate(c, i)), room);
        if ev.room == room {
          var k: nat :| k <= LAST + 1 && UsedIn(s.table, room) == HostsBelow(c, k);
          AllocationFillsUp(c, s.table, room, k);
        }
      }
      hide UsedIn, HostsBelow, Allocation, LowestFree;
    }
  }

  ghost predicate HasRow(table: map<Member, Row>, room: nat) {
    exists m :: m in table && m.0 == room
  }

  ghost predicate ShareAddress(table: map<Member, Row>, a: nat, b: nat) {
    exists m, n :: m in table && n in table && m.0 == a && n.0 == b && table[m].address == table[n].address
  }

  // Two rooms then hold a common address if and only if both have a row.
  lemma RoomsShareIff(c: Config, evs: seq<Event>, a: nat, b: nat)
    requires OnlyRegisters(evs)
    ensures var t := Run(c, map[], evs).table; ShareAddress(t, a, b) <==> HasRow(t, a) && HasRow(t, b)
  {
    var t := Run(c, map[], evs).table;
    RoomsFillUp(c, evs, a);
    RoomsFillUp(c, evs, b);
    hide Run;
    if HasRow(t, a) && HasRow(t, b) {
      var m :| m in t && m.0 == a;
      var n :| n in t && n.0 == b;
      assert t[m].address in UsedIn(t, a) && t[n].address in UsedIn(t, b);
      var i: nat :| i <= LAST + 1 && UsedIn(t, a) == HostsBelow(c, i);
      var j: nat :| j <= LAST + 1 && UsedIn(t, b) == HostsBelow(c, j);
      var ip := if i <= j then t[m].address else t[n].address;
      assert ip in UsedIn(t, a) && ip in UsedIn(t, b) by {
        assert ip in HostsBelow(c, i) && ip in HostsBelow(c, j);
      }
      var x :| x in t && x.0 == a && t[x].address == ip;
      var y :| y in t && y.0 == b && t[y].address == ip;
    }
  }

  // And all addresses in use are pairwise distinct if and only if all rows are in one room.
  lemma AddressesUniqueIff(c: Config, evs: seq<Event>)
    requires OnlyRegisters(evs)
    ensures var t := Run(c, map[], evs).table;
      (forall m, n | m in t && n in t && m != n :: t[m].address != t[n].address) <==>
      (forall m, n | m in t && n in t :: m.0 == n.0)
  {
    var t := Run(c, map[], evs).table;
    AllocationOverRuns(c, map[], evs);
    hide Run;
    if forall m, n | m in t && n in t && m != n :: t[m].address != t[n].address {
      forall m, n | m in t && n in t ensures m.0 == n.0 {
        RoomsShareIff(c, evs, m.0, n.0);
        assert HasRow(t, m.0) && HasRow(t, n.0);
      }
    }
  }

  // ---------------------------------------------------------------- the subnet

  function Value(ip: Ip): nat {
    ip.a as int * 0x100_0000 + ip.b as int * 0x1_0000 + ip.c as int * 0x100 + ip.d as int
  }

  function Pow2(n: nat): (r: nat)
    ensures r >= 1
  {
    if n == 0 then 1 else 2 * Pow2(n - 1)
  }

  predicate InSubnet(c: Config, ip: Ip)
    requires c.prefix <= 32
  {
    Value(ip) / Pow2(32 - c.prefix) == Value(c.base) / Pow2(32 - c.prefix)
  }

  lemma {:induction false} Pow2Grows(m: nat, n: nat)
    requires m <= n
    ensures Pow2(m) <= Pow2(n)
    ensures Pow2(n) % Pow2(m) == 0
  {
    if m < n {
      Pow2Grows(m, n - 1);
      var q := Pow2(n - 1) / Pow2(m);
      assert Pow2(n - 1) == q * Pow2(m);
      assert Pow2(n) == (2 * q) * Pow2(m);
      MultipleModulo(2 * q, Pow2(m));
    } else {
      assert Pow2(n) == 1 * Pow2(m);
      MultipleModulo(1, Pow2(m));
    }
  }

  lemma MultipleModulo(q: nat, d: nat)
    requires d >= 1
    ensures (q * d) % d == 0 && (q * d) / d == q
  {
    SameBlock(q, d, 0);
  }

  lemma MulMono(a: nat, b: nat, d: nat)
    requires a <= b
    ensures a * d <= b * d
  {
  }

  lemma SameBlock(q: nat, d: nat, r: nat)
    requires r < d
    ensures (q * d + r) / d == q && (q * d + r) % d == r
  {
    var v := q * d + r;
    var q', r' := v / d, v % d;
    assert v == q' * d + r';
    if q' < q {
      MulMono(q' + 1, q, d);
    } else if q' > q {
      MulMono(q + 1, q', d);
    }
  }

  lemma MultipleOfMultiple(v: nat, d: nat)
    requires d > 0 && v % d == 0 && d % 256 == 0
    ensures v % 256 == 0
  {
    var q, k := v / d, d / 256;
    assert v == q * d && d == k * 256;
    assert q * (k * 256) == (q * k) * 256;
    SameBlock(q * k, 256, 0);
  }

  lemma NextInBlock(v: nat, d: nat, i: nat)
    requires d > 0 && v % d == 0 && i < d
    ensures (v + i) / d == v / d
  {
    SameBlock(v / d, d, i);
  }

  lemma FarApart(lo: nat, hi: nat, d: nat)
    requires 0 < d <= 128 && hi == lo + 252
    ensures lo / d != hi / d
  {
    var q, r := lo / d, lo % d;
    assert lo == q * d + r;
    assert hi == hi / d * d + hi % d;
  }

  lemma WideSubnet(c: Config, i: nat)
    requires c.prefix <= 24 && Value(c.base) % Pow2(32 - c.prefix) == 0 && i < 256
    ensures InSubnet(c, Candidate(c, i))
  {
    var d := Pow2(32 - c.prefix);
    Pow2Grows(8, 32 - c.prefix);
    assert Pow2(8) == 256 by { assert Pow2(4) == 16; }
    hide Pow2;
    MultipleOfMultiple(Value(c.base), d);
    assert Value(Candidate(c, i)) == Value(c.base) + i;
    hide Value;
    NextInBlock(Value(c.base), d, i);
  }

  lemma NarrowSubnet(c: Config)
    requires 24 < c.prefix <= 32
    ensures !InSubnet(c, Candidate(c, FIRST)) || !InSubnet(c, Candidate(c, LAST))
  {
    var d := Pow2(32 - c.prefix);
    Pow2Grows(32 - c.prefix, 7);
    assert Pow2(7) == 128 by { assert Pow2(4) == 16; }
    hide Pow2;
    var lo, hi := Value(Candidate(c, FIRST)), Value(Candidate(c, LAST));
    assert hi == lo + 252;
    hide Value;
    FarApart(lo, hi, d);
  }

  // The hosts .2 to .254 all lie inside the subnet exactly when its prefix is at most /24.
  lemma HostsInSubnet(c: Config)
    requires c.prefix <= 32 && Value(c.base) % Pow2(32 - c.prefix) == 0
    ensures (forall i: nat :: FIRST <= i <= LAST ==> InSubnet(c, Candidate(c, i))) <==> c.prefix <= 24
  {
    if c.prefix <= 24 {
      forall i: nat | FIRST <= i <= LAST ensures InSubnet(c, Candidate(c, i)) { WideSubnet(c, i); }
    } else {
      NarrowSubnet(c);
    }
  }
}
