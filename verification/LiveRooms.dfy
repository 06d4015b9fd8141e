// Grouping live streams into the rooms of the public page.

module LiveRooms {
  import opened Text

  datatype Info = Info(key: string, viewers: nat, bitrate: real)

  datatype Ref = Ref(streamKey: string, roomID: nat, roomName: string, caption: string)

  datatype WebStream = WebStream(streamKey: string, caption: string, clients: nat, bitrate: real)

  datatype Room = Room(known: bool, name: string, roomID: nat, streams: seq<WebStream>, streamCnt: nat)

  const UNKNOWN_LABEL := "\U{672A}\U{77E5}\U{6D41}"
  const VIRTUAL_PREFIX := "\U{4E34}\U{65F6}\U{76F4}\U{64AD}-"

  // ---------------------------------------------------------------- order

  predicate LexLe(a: string, b: string) {
    a == [] || (b != [] && (a[0] < b[0] || (a[0] == b[0] && LexLe(a[1..], b[1..]))))
  }

  lemma {:induction false} LexTotal(a: string, b: string)
    ensures LexLe(a, b) || LexLe(b, a)
    ensures LexLe(a, b) && LexLe(b, a) ==> a == b
  {
    if a != [] && b != [] && a[0] == b[0] {
      LexTotal(a[1..], b[1..]);
      assert a == [a[0]] + a[1..] && b == [b[0]] + b[1..];
    }
  }

  lemma {:induction false} LexTransitive(a: string, b: string, c: string)
    requires LexLe(a, b) && LexLe(b, c)
    ensures LexLe(a, c)
  {
    if a != [] && a[0] == b[0] == c[0] {
      LexTransitive(a[1..], b[1..], c[1..]);
    }
  }

  predicate StreamLe(a: WebStream, b: WebStream) {
    LexLe(a.streamKey, b.streamKey)
  }

  // "known" sorts before "virtual".
  predicate RoomLe(a: Room, b: Room) {
    if a.known != b.known then a.known else LexLe(a.name, b.name)
  }

  ghost predicate TotalPreorder<T(!new)>(le: (T, T) -> bool) {
    (forall a, b :: le(a, b) || le(b, a)) && (forall a, b, c :: le(a, b) && le(b, c) ==> le(a, c))
  }

  ghost predicate Sorted<T(!new)>(le: (T, T) -> bool, s: seq<T>) {
    forall i, j :: 0 <= i < j < |s| ==> le(s[i], s[j])
  }

  lemma OrdersAreTotal()
    ensures TotalPreorder(StreamLe) && TotalPreorder(RoomLe)
  {
    forall a, b: string ensures LexLe(a, b) || LexLe(b, a) { LexTotal(a, b); }
    forall a, b, c: string | LexLe(a, b) && LexLe(b, c) ensures LexLe(a, c) { LexTransitive(a, b, c); }
  }

  // sort.Slice: some sorted permutation, with no promise about equal elements.
  method SortSlice<T(!new)>(s: seq<T>, le: (T, T) -> bool) returns (r: seq<T>)
    requires TotalPreorder(le)
    ensures Sorted(le, r) && multiset(r) == multiset(s) && |r| == |s|
  {
    r := [];
    for i := 0 to |s|
      invariant Sorted(le, r) && |r| == i
      invariant multiset(r) == multiset(s[..i])
    {
      var j := 0;
      while j < |r| && le(r[j], s[i])
        invariant j <= |r|
        invariant forall k :: 0 <= k < j ==> le(r[k], s[i])
      {
        j := j + 1;
      }
      assert s[..i + 1] == s[..i] + [s[i]];
      assert r == r[..j] + r[j..];
      InsertKeepsSorted(le, r, j, s[i]);
      r := r[..j] + [s[i]] + r[j..];
    }
    assert s[..|s|] == s;
  }

  lemma InsertKeepsSorted<T(!new)>(le: (T, T) -> bool, r: seq<T>, j: nat, x: T)
    requires TotalPreorder(le) && Sorted(le, r) && j <= |r|
    requires forall k :: 0 <= k < j ==> le(r[k], x)
    requires j < |r| ==> !le(r[j], x)
    ensures Sorted(le, r[..j] + [x] + r[j..])
  {
    if j < |r| {
      assert le(x, r[j]);
      assert forall k :: j < k < |r| ==> le(r[j], r[k]);
    }
  }

  // ---------------------------------------------------------------- what belongs where

  // A later reference to the same key replaces an earlier one.
  function RefMap(refs: seq<Ref>): map<string, Ref> {
    if refs == [] then map[] else RefMap(refs[..|refs| - 1])[refs[|refs| - 1].streamKey := refs[|refs| - 1]]
  }

  function ToWebStream(info: Info, caption: string): WebStream {
    WebStream(info.key, caption, info.viewers, info.bitrate)
  }

  function KnownStream(live: Info, ref: Ref): WebStream {
    var caption := TrimSpace(ref.caption);
    ToWebStream(live, if caption == "" then live.key else caption)
  }

  function VirtualRoom(live: Info): Room {
    Room(false, VIRTUAL_PREFIX + (if |live.key| > 8 then live.key[..8] else live.key), 0,
         [ToWebStream(live, UNKNOWN_LABEL)], 1)
  }

  predicate InRoom(m: map<string, Ref>, live: Info, roomID: nat) {
    live.key in m && m[live.key].roomID == roomID
  }

  // The streams of one room, in the order in which the live streams are listed.
  function StreamsOf(m: map<string, Ref>, lives: seq<Info>, roomID: nat): seq<WebStream> {
    if lives == [] then [] else
      var last := lives[|lives| - 1];
      StreamsOf(m, lives[..|lives| - 1], roomID) +
        if InRoom(m, last, roomID) then [KnownStream(last, m[last.key])] else []
  }

  // The room name in the reference of the first live stream that belongs to the room.
  function RoomName(m: map<string, Ref>, lives: seq<Info>, roomID: nat): string {
    if lives == [] then "" else
      var before, last := lives[..|lives| - 1], lives[|lives| - 1];
      if StreamsOf(m, before, roomID) != [] then RoomName(m, before, roomID)
      else if InRoom(m, last, roomID) then m[last.key].roomName
      else ""
  }

  // The rooms partition the live streams.
  ghost predicate Grouping(m: map<string, Ref>, lives: seq<Info>, rooms: seq<Room>) {
    && (forall r :: r in rooms ==> RoomOk(m, lives, r))
    && (forall i, j :: 0 <= i < j < |rooms| && rooms[i].known && rooms[j].known ==> rooms[i].roomID != rooms[j].roomID)
    && (forall live :: live in lives && live.key in m ==>
          exists r :: r in rooms && r.known && r.roomID == m[live.key].roomID)
    && (forall live :: live in lives && live.key !in m ==> multiset(rooms)[VirtualRoom(live)] == multiset(lives)[live])
  }

  ghost predicate RoomOk(m: map<string, Ref>, lives: seq<Info>, r: Room) {
    && r.streams != [] && r.streamCnt == |r.streams|
    && Sorted(StreamLe, r.streams)
    && (r.known ==> multiset(r.streams) == multiset(StreamsOf(m, lives, r.roomID)))
    && (r.known ==> r.name == RoomName(m, lives, r.roomID))
    && (!r.known ==> IsVirtual(m, lives, r))
  }

  // ---------------------------------------------------------------- the loops

  method BuildRefMap(refs: seq<Ref>) returns (m: map<string, Ref>)
    ensures m == RefMap(refs)
  {
    m := map[];
    for i := 0 to |refs|
      invariant m == RefMap(refs[..i])
    {
      assert refs[..i + 1][..i] == refs[..i];
      m := m[refs[i].streamKey := refs[i]];
    }
    assert refs[..|refs|] == refs;
  }

  // The index map points at the known rooms, one for each room id.
  ghost predicate Indexed(rooms: seq<Room>, index: map<nat, nat>) {
    && (forall id :: id in index ==> index[id] < |rooms| && rooms[index[id]].known && rooms[index[id]].roomID == id)
    && (forall i :: 0 <= i < |rooms| && rooms[i].known ==> rooms[i].roomID in index && index[rooms[i].roomID] == i)
  }

  ghost predicate KnownFilled(m: map<string, Ref>, lives: seq<Info>, rooms: seq<Room>) {
    forall i :: 0 <= i < |rooms| && rooms[i].known ==>
      && rooms[i].streams == StreamsOf(m, lives, rooms[i].roomID) && rooms[i].streams != []
      && rooms[i].name == RoomName(m, lives, rooms[i].roomID)
  }

  ghost predicate IsVirtual(m: map<string, Ref>, lives: seq<Info>, r: Room) {
    exists live :: live in lives && live.key !in m && r == VirtualRoom(live)
  }

  ghost predicate VirtualsCounted(m: map<string, Ref>, lives: seq<Info>, rooms: seq<Room>) {
    && (forall r :: r in rooms && !r.known ==> IsVirtual(m, lives, r))
    && (forall live: Info :: live.key !in m ==> multiset(rooms)[VirtualRoom(live)] == multiset(lives)[live])
  }

  ghost predicate Covered(m: map<string, Ref>, lives: seq<Info>, index: map<nat, nat>) {
    forall live :: live in lives && live.key in m ==> m[live.key].roomID in index
  }

  // The rooms before counting and sorting.
  ghost predicate Collected(m: map<string, Ref>, lives: seq<Info>, rooms: seq<Room>, index: map<nat, nat>) {
    Indexed(rooms, index) && KnownFilled(m, lives, rooms) &&
      VirtualsCounted(m, lives, rooms) && Covered(m, lives, index)
  }

  lemma {:induction false} NoStreams(m: map<string, Ref>, lives: seq<Info>, roomID: nat)
    requires forall live :: live in lives && live.key in m ==> m[live.key].roomID != roomID
    ensures StreamsOf(m, lives, roomID) == []
  {
    if lives != [] {
      NoStreams(m, lives[..|lives| - 1], roomID);
    }
  }

  lemma StreamsAppend(m: map<string, Ref>, lives: seq<Info>, live: Info, roomID: nat)
    ensures StreamsOf(m, lives + [live], roomID) ==
      StreamsOf(m, lives, roomID) + if InRoom(m, live, roomID) then [KnownStream(live, m[live.key])] else []
    ensures StreamsOf(m, lives, roomID) != [] ==> RoomName(m, lives + [live], roomID) == RoomName(m, lives, roomID)
    ensures StreamsOf(m, lives, roomID) == [] && InRoom(m, live, roomID) ==>
      RoomName(m, lives + [live], roomID) == m[live.key].roomName
  {
    assert (lives + [live])[..|lives|] == lives;
  }

  lemma VirtualRoomInjective(a: Info, b: Info)
    ensures VirtualRoom(a) == VirtualRoom(b) <==> a == b
  {
    if VirtualRoom(a) == VirtualRoom(b) {
      assert VirtualRoom(a).streams[0] == VirtualRoom(b).streams[0];
    }
  }

  lemma VirtualGrows(m: map<string, Ref>, lives: seq<Info>, live: Info, r: Room)
    requires IsVirtual(m, lives, r)
    ensures IsVirtual(m, lives + [live], r)
  {
    var x :| x in lives && x.key !in m && r == VirtualRoom(x);
    assert x in lives + [live];
  }

  lemma VirtualStep(m: map<string, Ref>, lives: seq<Info>, rooms: seq<Room>, live: Info)
    requires VirtualsCounted(m, lives, rooms) && live.key !in m
    ensures VirtualsCounted(m, lives + [live], rooms + [VirtualRoom(live)])
  {
    var lives', rooms' := lives + [live], rooms + [VirtualRoom(live)];
    assert live in lives' && IsVirtual(m, lives', VirtualRoom(live));
    forall r | r in rooms' && !r.known ensures IsVirtual(m, lives', r) {
      if r in rooms { VirtualGrows(m, lives, live, r); }
    }
    forall x: Info | x.key !in m ensures multiset(rooms')[VirtualRoom(x)] == multiset(lives')[x] {
      VirtualRoomInjective(x, live);
    }
  }

  // Adding a known stream leaves the virtual rooms as they are.
  lemma VirtualsKept(m: map<string, Ref>, lives: seq<Info>, rooms: seq<Room>, live: Info, rooms': seq<Room>)
    requires VirtualsCounted(m, lives, rooms) && live.key in m
    requires forall r: Room :: !r.known ==> multiset(rooms')[r] == multiset(rooms)[r]
    ensures VirtualsCounted(m, lives + [live], rooms')
  {
    forall x: Info ensures !VirtualRoom(x).known { VirtualRoomUnknown(x); }
    hide VirtualRoom, IsVirtual;
    forall r | r in rooms' && !r.known ensures IsVirtual(m, lives + [live], r) {
      assert r in multiset(rooms') && r in multiset(rooms);
      VirtualGrows(m, lives, live, r);
    }
  }

  lemma AppendedKnown(rooms: seq<Room>, x: Room)
    requires x.known
    ensures forall r: Room :: !r.known ==> multiset(rooms + [x])[r] == multiset(rooms)[r]
  {
  }

  lemma ReplacedKnown(rooms: seq<Room>, i: nat, x: Room)
    requires i < |rooms| && rooms[i].known && x.known
    ensures forall r: Room :: !r.known ==> multiset(rooms[i := x])[r] == multiset(rooms)[r]
  {
  }

  lemma KnownVirtualStep(m: map<string, Ref>, lives: seq<Info>, rooms: seq<Room>, live: Info, r: Room)
    requires KnownFilled(m, lives, rooms) && live.key !in m && !r.known
    ensures KnownFilled(m, lives + [live], rooms + [r])
  {
    hide StreamsOf, RoomName;
    forall i | 0 <= i < |rooms| && rooms[i].known
      ensures StreamsOf(m, lives + [live], rooms[i].roomID) == rooms[i].streams
      ensures RoomName(m, lives + [live], rooms[i].roomID) == rooms[i].name
    {
      StreamsAppend(m, lives, live, rooms[i].roomID);
    }
  }

  lemma KnownNewStep(m: map<string, Ref>, lives: seq<Info>, rooms: seq<Room>, index: map<nat, nat>, live: Info, r: Room)
    requires Indexed(rooms, index) && KnownFilled(m, lives, rooms) && Covered(m, lives, index)
    requires live.key in m && m[live.key].roomID !in index
    requires r.known && r.roomID == m[live.key].roomID && r.name == m[live.key].roomName
    requires r.streams == [KnownStream(live, m[live.key])]
    ensures KnownFilled(m, lives + [live], rooms + [r])
  {
    NoStreams(m, lives, r.roomID);
    hide StreamsOf, KnownStream, RoomName;
    StreamsAppend(m, lives, live, r.roomID);
    forall i | 0 <= i < |rooms| && rooms[i].known
      ensures StreamsOf(m, lives + [live], rooms[i].roomID) == rooms[i].streams
      ensures RoomName(m, lives + [live], rooms[i].roomID) == rooms[i].name
    {
      StreamsAppend(m, lives, live, rooms[i].roomID);
    }
  }

  lemma KnownOldStep(m: map<string, Ref>, lives: seq<Info>, rooms: seq<Room>, index: map<nat, nat>, live: Info)
    requires Indexed(rooms, index) && KnownFilled(m, lives, rooms)
    requires live.key in m && m[live.key].roomID in index
    ensures var i := index[m[live.key].roomID];
      KnownFilled(m, lives + [live],
        rooms[i := rooms[i].(streams := rooms[i].streams + [KnownStream(live, m[live.key])])])
  {
    var k := index[m[live.key].roomID];
    var rooms' := rooms[k := rooms[k].(streams := rooms[k].streams + [KnownStream(live, m[live.key])])];
    hide StreamsOf, KnownStream, RoomName;
    forall i | 0 <= i < |rooms'| && rooms'[i].known
      ensures StreamsOf(m, lives + [live], rooms'[i].roomID) == rooms'[i].streams && rooms'[i].streams != []
      ensures RoomName(m, lives + [live], rooms'[i].roomID) == rooms'[i].name
    {
      StreamsAppend(m, lives, live, rooms[i].roomID);
    }
  }

  lemma IndexSteps(rooms: seq<Room>, index: map<nat, nat>, r: Room)
    requires Indexed(rooms, index)
    ensures !r.known ==> Indexed(rooms + [r], index)
    ensures r.known && r.roomID !in index ==> Indexed(rooms + [r], index[r.roomID := |rooms|])
  {
  }

  lemma IndexReplace(rooms: seq<Room>, index: map<nat, nat>, i: nat, streams: seq<WebStream>)
    requires Indexed(rooms, index) && i < |rooms|
    ensures Indexed(rooms[i := rooms[i].(streams := streams)], index)
  {
  }

  // One round of the loop over the live streams.
  method CollectOne(m: map<string, Ref>, ghost lives: seq<Info>, rooms: seq<Room>, index: map<nat, nat>, live: Info)
    returns (rooms': seq<Room>, index': map<nat, nat>)
    requires Collected(m, lives, rooms, index)
    ensures Collected(m, lives + [live], rooms', index')
  {
    hide StreamsOf, RoomName, VirtualRoom, KnownStream, Indexed, KnownFilled, VirtualsCounted, TrimSpace;
    rooms', index' := rooms, index;
    if live.key in m {
      var ref := m[live.key];
      if ref.roomID !in index {
        ghost var r := Room(true, ref.roomName, ref.roomID, [KnownStream(live, ref)], 0);
        KnownNewStep(m, lives, rooms, index, live, r);
        IndexSteps(rooms, index, r);
        AppendedKnown(rooms, r);
        VirtualsKept(m, lives, rooms, live, rooms + [r]);
        rooms' := rooms + [Room(true, ref.roomName, ref.roomID, [], 0)];
        index' := index[ref.roomID := |rooms'| - 1];
      } else {
        IndexInRange(rooms, index, ref.roomID);
        KnownOldStep(m, lives, rooms, index, live);
        var i := index[ref.roomID];
        ghost var streams := rooms[i].streams + [KnownStream(live, ref)];
        IndexReplace(rooms, index, i, streams);
        ReplacedKnown(rooms, i, rooms[i].(streams := streams));
        VirtualsKept(m, lives, rooms, live, rooms[i := rooms[i].(streams := streams)]);
      }
      var i := index'[ref.roomID];
      var s := MakeStream(live, ref);
      rooms' := rooms'[i := rooms'[i].(streams := rooms'[i].streams + [s])];
      if ref.roomID !in index {
        assert i == |rooms| && [] + [s] == [s];
        assert rooms' == rooms + [Room(true, ref.roomName, ref.roomID, [KnownStream(live, ref)], 0)];
      }
    } else {
      VirtualRoomUnknown(live);
      KnownVirtualStep(m, lives, rooms, live, VirtualRoom(live));
      IndexSteps(rooms, index, VirtualRoom(live));
      VirtualStep(m, lives, rooms, live);
      rooms' := rooms + [VirtualRoom(live)];
    }
  }

  lemma VirtualRoomUnknown(live: Info)
    ensures !VirtualRoom(live).known
  {
  }

  lemma IndexInRange(rooms: seq<Room>, index: map<nat, nat>, id: nat)
    requires Indexed(rooms, index) && id in index
    ensures index[id] < |rooms| && rooms[index[id]].known && rooms[index[id]].roomID == id
  {
  }

  method MakeStream(live: Info, ref: Ref) returns (s: WebStream)
    ensures s == KnownStream(live, ref)
  {
    var caption := TrimSpace(ref.caption);
    if caption == "" {
      caption := live.key;
    }
    s := ToWebStream(live, caption);
  }

  method Collect(m: map<string, Ref>, lives: seq<Info>) returns (rooms: seq<Room>, ghost knownIndex: map<nat, nat>)
    ensures Collected(m, lives, rooms, knownIndex)
  {
    rooms := [];
    var index: map<nat, nat> := map[];
    for n := 0 to |lives|
      invariant Collected(m, lives[..n], rooms, index)
    {
      assert lives[..n + 1] == lives[..n] + [lives[n]];
      rooms, index := CollectOne(m, lives[..n], rooms, index, lives[n]);
    }
    assert lives[..|lives|] == lives;
    knownIndex := index;
  }

  // Counting and sorting the streams of each room.
  method Finish(m: map<string, Ref>, lives: seq<Info>, collected: seq<Room>, ghost index: map<nat, nat>)
    returns (rooms: seq<Room>)
    requires Collected(m, lives, collected, index)
    ensures Grouping(m, lives, rooms)
  {
    OrdersAreTotal();
    hide Collected, Grouping, Sorted, LexLe;
    rooms := collected;
    for i := 0 to |collected|
      invariant |rooms| == |collected|
      invariant forall j :: i <= j < |rooms| ==> rooms[j] == collected[j]
      invariant forall j :: 0 <= j < i ==> Finished(collected[j], rooms[j])
    {
      rooms := rooms[i := rooms[i].(streamCnt := |rooms[i].streams|)];
      var streams := SortSlice(rooms[i].streams, StreamLe);
      rooms := rooms[i := rooms[i].(streams := streams)];
      assert Finished(collected[i], rooms[i]);
    }
    FinishedIsGrouping(m, lives, collected, index, rooms);
  }

  ghost predicate Finished(before: Room, after: Room) {
    && after == before.(streams := after.streams, streamCnt := |after.streams|)
    && multiset(after.streams) == multiset(before.streams) && |after.streams| == |before.streams|
    && Sorted(StreamLe, after.streams)
  }

  lemma FinishedVirtual(before: Room, after: Room, live: Info)
    requires Finished(before, after) && before == VirtualRoom(live)
    ensures after == before
  {
    assert before.streams == [before.streams[0]];
    assert after.streams == [after.streams[0]];
    assert after.streams[0] in multiset(before.streams);
  }

  lemma FinishedRoomOk(m: map<string, Ref>, lives: seq<Info>, before: Room, after: Room)
    requires Finished(before, after)
    requires before.streams != []
    requires before.known ==>
      before.streams == StreamsOf(m, lives, before.roomID) && before.name == RoomName(m, lives, before.roomID)
    requires !before.known ==> IsVirtual(m, lives, before)
    ensures RoomOk(m, lives, after) && (!before.known ==> after == before)
  {
    hide StreamsOf, RoomName, Sorted;
    if !before.known {
      var live :| live in lives && live.key !in m && before == VirtualRoom(live);
      FinishedVirtual(before, after, live);
    }
  }

  lemma FinishedIsGrouping(m: map<string, Ref>, lives: seq<Info>, collected: seq<Room>,
                           index: map<nat, nat>, rooms: seq<Room>)
    requires Collected(m, lives, collected, index) && |rooms| == |collected|
    requires forall j :: 0 <= j < |rooms| ==> Finished(collected[j], rooms[j])
    ensures Grouping(m, lives, rooms)
  {
    forall j | 0 <= j < |rooms|
      ensures RoomOk(m, lives, rooms[j]) && (!collected[j].known ==> rooms[j] == collected[j])
    {
      assert collected[j] in collected;
      FinishedRoomOk(m, lives, collected[j], rooms[j]);
    }
    hide RoomOk, StreamsOf, RoomName, VirtualRoom, IsVirtual;
    forall live | live in lives && live.key in m
      ensures exists r :: r in rooms && r.known && r.roomID == m[live.key].roomID
    {
      var j := index[m[live.key].roomID];
      assert Finished(collected[j], rooms[j]) && rooms[j] in rooms;
    }
    forall live: Info
      ensures multiset(rooms)[VirtualRoom(live)] == multiset(collected)[VirtualRoom(live)]
    {
      VirtualCounts(collected, rooms, live);
    }
  }

  lemma {:induction false} VirtualCounts(a: seq<Room>, b: seq<Room>, live: Info)
    requires |a| == |b|
    requires forall j :: 0 <= j < |a| ==> a[j].known == b[j].known && (!a[j].known ==> a[j] == b[j])
    ensures multiset(a)[VirtualRoom(live)] == multiset(b)[VirtualRoom(live)]
  {
    if a != [] {
      var v := VirtualRoom(live);
      assert !v.known;
      hide VirtualRoom;
      VirtualCounts(a[..|a| - 1], b[..|b| - 1], live);
      CountLast(a, v);
      CountLast(b, v);
    }
  }

  lemma CountLast(s: seq<Room>, x: Room)
    requires s != []
    ensures multiset(s)[x] == multiset(s[..|s| - 1])[x] + if s[|s| - 1] == x then 1 else 0
  {
    assert s == s[..|s| - 1] + [s[|s| - 1]];
  }

  // ---------------------------------------------------------------- the final order

  lemma {:induction false} TwoOccurrences(s: seq<Room>, x: Room)
    ensures multiset(s)[x] >= 2 <==> exists i, j :: 0 <= i < j < |s| && s[i] == x && s[j] == x
  {
    if s != [] {
      var before, last := s[..|s| - 1], s[|s| - 1];
      assert s == before + [last];
      TwoOccurrences(before, x);
      if multiset(before)[x] >= 2 {
        var i, j :| 0 <= i < j < |before| && before[i] == x && before[j] == x;
        assert s[i] == x && s[j] == x;
      } else if multiset(before)[x] == 1 && last == x {
        var i :| 0 <= i < |before| && before[i] == x;
        assert s[i] == x && s[|s| - 1] == x;
      }
      if exists i, j :: 0 <= i < j < |s| && s[i] == x && s[j] == x {
        var i, j :| 0 <= i < j < |s| && s[i] == x && s[j] == x;
        assert before[i] == x;
        assert x in before;
        if j < |before| {
          assert before[j] == x;
        }
      }
    }
  }

  lemma GroupingPermutes(m: map<string, Ref>, lives: seq<Info>, a: seq<Room>, b: seq<Room>)
    requires Grouping(m, lives, a) && multiset(a) == multiset(b)
    ensures Grouping(m, lives, b)
  {
    assert forall r :: r in b <==> r in multiset(b);
    assert forall r :: r in a <==> r in multiset(a);
    forall i, j | 0 <= i < j < |b| && b[i].known && b[j].known
      ensures b[i].roomID != b[j].roomID
    {
      assert b[i] in a && b[j] in a;
      TwoOccurrences(a, b[i]);
      TwoOccurrences(b, b[i]);
    }
  }

  method BuildWebLiveRooms(lives: seq<Info>, refs: seq<Ref>) returns (rooms: seq<Room>)
    ensures Grouping(RefMap(refs), lives, rooms)
    ensures Sorted(RoomLe, rooms)
  {
    OrdersAreTotal();
    var m := BuildRefMap(refs);
    var collected, index := Collect(m, lives);
    var counted := Finish(m, lives, collected, index);
    rooms := SortSlice(counted, RoomLe);
    GroupingPermutes(m, lives, counted, rooms);
  }

  // ---------------------------------------------------------------- what a visitor sees

  ghost predicate Shows(r: Room, key: string) {
    exists s :: s in r.streams && s.streamKey == key
  }

  ghost predicate DistinctKeys(lives: seq<Info>) {
    forall i, j :: 0 <= i < j < |lives| ==> lives[i].key != lives[j].key
  }

  // The keys shown by a room are those of the live streams that belong to it.
  lemma {:induction false} StreamsOfKeys(m: map<string, Ref>, lives: seq<Info>, roomID: nat, s: WebStream)
    ensures s in StreamsOf(m, lives, roomID) <==>
      exists live :: live in lives && InRoom(m, live, roomID) && s == KnownStream(live, m[live.key])
  {
    if lives != [] {
      var before, last := lives[..|lives| - 1], lives[|lives| - 1];
      assert lives == before + [last];
      StreamsOfKeys(m, before, roomID, s);
      assert forall live :: live in lives <==> live in before || live == last;
    }
  }

  lemma SomeStream(m: map<string, Ref>, lives: seq<Info>, roomID: nat, j: nat)
    requires j < |lives| && InRoom(m, lives[j], roomID)
    ensures StreamsOf(m, lives, roomID) != []
  {
    assert lives[j] in lives;
    StreamsOfKeys(m, lives, roomID, KnownStream(lives[j], m[lives[j].key]));
  }

  // The first live stream of a room in the listing gives it its name; later references do not.
  lemma {:induction false} FirstStreamNamesRoom(m: map<string, Ref>, lives: seq<Info>, roomID: nat) returns (i: nat)
    requires StreamsOf(m, lives, roomID) != []
    ensures i < |lives| && InRoom(m, lives[i], roomID) && RoomName(m, lives, roomID) == m[lives[i].key].roomName
    ensures forall j :: 0 <= j < i ==> !InRoom(m, lives[j], roomID)
  {
    var before := lives[..|lives| - 1];
    if StreamsOf(m, before, roomID) != [] {
      i := FirstStreamNamesRoom(m, before, roomID);
    } else {
      i := |before|;
      forall j | 0 <= j < i ensures !InRoom(m, lives[j], roomID) {
        if InRoom(m, before[j], roomID) {
          SomeStream(m, before, roomID, j);
        }
      }
    }
  }

  lemma KnownRoomShows(m: map<string, Ref>, lives: seq<Info>, r: Room, key: string)
    requires RoomOk(m, lives, r) && r.known
    ensures Shows(r, key) <==> key in m && m[key].roomID == r.roomID && exists live :: live in lives && live.key == key
  {
    var streams := StreamsOf(m, lives, r.roomID);
    assert forall s :: s in r.streams <==> s in multiset(r.streams);
    assert forall s :: s in streams <==> s in multiset(streams);
    if Shows(r, key) {
      var s :| s in r.streams && s.streamKey == key;
      StreamsOfKeys(m, lives, r.roomID, s);
    }
    if key in m && m[key].roomID == r.roomID && exists live :: live in lives && live.key == key {
      var live :| live in lives && live.key == key;
      StreamsOfKeys(m, lives, r.roomID, KnownStream(live, m[key]));
    }
  }

  lemma VirtualRoomShows(m: map<string, Ref>, lives: seq<Info>, r: Room, key: string)
    requires RoomOk(m, lives, r) && !r.known
    ensures Shows(r, key) ==> key !in m && exists live :: live in lives && live.key == key && r == VirtualRoom(live)
  {
    if Shows(r, key) {
      var live :| live in lives && live.key !in m && r == VirtualRoom(live);
      assert live.key == key;
    }
  }

  lemma {:induction false} OneLive(lives: seq<Info>, live: Info)
    requires DistinctKeys(lives) && live in lives
    ensures multiset(lives)[live] == 1
  {
    var before, last := lives[..|lives| - 1], lives[|lives| - 1];
    assert lives == before + [last];
    if live in before {
      OneLive(before, live);
    }
  }

  // Every live stream is shown by exactly one room; two streams with a reference share a room
  // exactly when their room ids match, and a stream without one has a room to itself.
  lemma RoomsPartitionStreams(m: map<string, Ref>, lives: seq<Info>, rooms: seq<Room>, live: Info)
    requires Grouping(m, lives, rooms) && DistinctKeys(lives) && live in lives
    ensures exists i :: 0 <= i < |rooms| && Shows(rooms[i], live.key)
    ensures forall i, j :: 0 <= i < j < |rooms| ==> !(Shows(rooms[i], live.key) && Shows(rooms[j], live.key))
    ensures forall i, other :: 0 <= i < |rooms| && other in lives && other != live && Shows(rooms[i], live.key) ==>
      (Shows(rooms[i], other.key) <==> live.key in m && other.key in m && m[live.key].roomID == m[other.key].roomID)
  {
    if live.key in m {
      var r :| r in rooms && r.known && r.roomID == m[live.key].roomID;
      KnownRoomShows(m, lives, r, live.key);
      var i :| 0 <= i < |rooms| && rooms[i] == r;
      assert Shows(rooms[i], live.key);
    } else {
      OneLive(lives, live);
      assert VirtualRoom(live) in multiset(rooms);
      var i :| 0 <= i < |rooms| && rooms[i] == VirtualRoom(live);
      assert rooms[i].streams[0] in rooms[i].streams;
      assert Shows(rooms[i], live.key);
    }
    forall i, j | 0 <= i < j < |rooms| && Shows(rooms[i], live.key) && Shows(rooms[j], live.key)
      ensures false
    {
      ShownBy(m, lives, rooms, live, i);
      ShownBy(m, lives, rooms, live, j);
      if live.key !in m {
        OneLive(lives, live);
        TwoOccurrences(rooms, VirtualRoom(live));
      }
    }
    forall i, other | 0 <= i < |rooms| && other in lives && other != live && Shows(rooms[i], live.key)
      ensures Shows(rooms[i], other.key) <==>
        live.key in m && other.key in m && m[live.key].roomID == m[other.key].roomID
    {
      ShownBy(m, lives, rooms, live, i);
      if live.key in m {
        KnownRoomShows(m, lives, rooms[i], other.key);
      } else {
        var p :| 0 <= p < |lives| && lives[p] == live;
        var q :| 0 <= q < |lives| && lives[q] == other;
        assert live.key != other.key;
      }
    }
  }

  lemma ShownBy(m: map<string, Ref>, lives: seq<Info>, rooms: seq<Room>, live: Info, i: nat)
    requires Grouping(m, lives, rooms) && DistinctKeys(lives) && live in lives
    requires i < |rooms| && Shows(rooms[i], live.key)
    ensures if live.key in m then rooms[i].known && rooms[i].roomID == m[live.key].roomID
      else rooms[i] == VirtualRoom(live)
  {
    var r := rooms[i];
    assert RoomOk(m, lives, r);
    if r.known {
      KnownRoomShows(m, lives, r, live.key);
    } else {
      VirtualRoomShows(m, lives, r, live.key);
      var x :| x in lives && x.key == live.key && r == VirtualRoom(x);
      var p :| 0 <= p < |lives| && lives[p] == x;
      var q :| 0 <= q < |lives| && lives[q] == live;
    }
  }
}
