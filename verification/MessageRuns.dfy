// The cache over time. The server stores messages one by one; a broadcast may reach the client at
// any later moment, or never, and in any order; syncLatest asks for its pages in between.

module MessageRuns {
  import opened Bytes
  import opened MessageSync

  // A syncLatest under way: the id it asks from, and the page that is on its way to the cache.
  datatype Sync = Sync(room: nat, limit: int, cursor: Option<nat>, page: Option<seq<Message>>)

  datatype World = World(log: seq<Message>, cache: Table, syncs: map<nat, Sync>)

  // Heard(i) is the broadcast of the i-th stored message reaching the client. A sync begins by
  // reading the newest cached id, has each page answered and then written, and may fail anywhere.
  datatype Event =
    | Stored(message: Message)
    | Heard(index: nat)
    | Begin(sid: nat, room: nat, limit: int, latest: Option<nat>)
    | Fetch(sid: nat)
    | Write(sid: nat)
    | Abort(sid: nat)

  const EMPTY: World := World([], map[], map[])

  ghost function Mine(w: World, room: nat): seq<Message> {
    InRoom(w.log, room)
  }

  ghost function Kept(w: World, scope: Scope, room: nat): set<Message> {
    Cached(w.cache, scope, room)
  }

  ghost predicate Happens(w: World, scope: Scope, ev: Event) {
    match ev
    case Stored(m) => Ascending(w.log + [m])
    case Heard(i) => i < |w.log|
    case Begin(sid, room, _, latest) => sid !in w.syncs && IsLatest(w.cache, scope, room, latest)
    case Fetch(sid) => sid in w.syncs && w.syncs[sid].page.None?
    case Write(sid) => sid in w.syncs && w.syncs[sid].page.Some?
    case Abort(sid) => sid in w.syncs
  }

  // What the event writes into the cache.
  ghost function Batch(w: World, scope: Scope, ev: Event): seq<Message> {
    if !Happens(w, scope, ev) then []
    else if ev.Heard? then [w.log[ev.index]]
    else if ev.Write? then w.syncs[ev.sid].page.value
    else []
  }

  // An empty or short page ends the loop; a full one moves the cursor to its last id.
  function AfterPage(syncs: map<nat, Sync>, sid: nat, s: Sync, page: seq<Message>): map<nat, Sync> {
    if page == [] || |page| < s.limit then syncs - {sid}
    else syncs[sid := s.(cursor := Some(page[|page| - 1].id), page := None)]
  }

  ghost function SyncsAfter(w: World, scope: Scope, ev: Event): map<nat, Sync>
    requires Happens(w, scope, ev)
  {
    match ev
    case Begin(sid, room, limit, latest) => w.syncs[sid := Sync(room, limit, latest, None)]
    case Fetch(sid) =>
      var s := w.syncs[sid];
      w.syncs[sid := s.(page := Some(NextList(Mine(w, s.room), s.limit, s.cursor)))]
    case Write(sid) => AfterPage(w.syncs, sid, w.syncs[sid], w.syncs[sid].page.value)
    case Abort(sid) => w.syncs - {sid}
    case _ => w.syncs
  }

  ghost function Step(w: World, scope: Scope, ev: Event): World {
    if !Happens(w, scope, ev) then w else
      World(if ev.Stored? then w.log + [ev.message] else w.log,
            Upserted(w.cache, scope, Batch(w, scope, ev)),
            SyncsAfter(w, scope, ev))
  }

  ghost function Run(scope: Scope, evs: seq<Event>): World {
    if evs == [] then EMPTY else Step(Run(scope, evs[..|evs| - 1]), scope, evs[|evs| - 1])
  }

  // ---------------------------------------------------------------- leaping over a message

  // `x` is missing between two cached messages of its room.
  ghost predicate Missing(c: set<Message>, mine: seq<Message>, x: Message) {
    && x in mine && x !in c
    && (exists a :: a in c && a.id <= x.id) && (exists b :: b in c && x.id <= b.id)
  }

  // All of `c` lies on one side of `x`, and some of `f` on the other.
  ghost predicate Straddles(c: set<Message>, f: set<Message>, x: Message) {
    && c != {} && f != {}
    && (((forall a :: a in c ==> a.id < x.id) && exists b :: b in f && x.id <= b.id)
        || ((forall b :: b in c ==> x.id < b.id) && exists a :: a in f && a.id <= x.id))
  }

  ghost function Brought(w: World, scope: Scope, ev: Event, room: nat): set<Message> {
    set m | m in Batch(w, scope, ev) && m.room == room
  }

  // The event caches messages beyond `x`, which is stored, but not `x` itself: a broadcast, or
  // the page of a sync that began with nothing cached. Later pages of a sync never do.
  ghost predicate Leaps(w: World, scope: Scope, ev: Event, x: Message) {
    && (ev.Heard? || (ev.Write? && ev.sid in w.syncs && w.syncs[ev.sid].cursor.None?))
    && x in Mine(w, x.room) && x !in Kept(w, scope, x.room) && x !in Brought(w, scope, ev, x.room)
    && Straddles(Kept(w, scope, x.room), Brought(w, scope, ev, x.room), x)
  }

  ghost predicate Brings(w: World, scope: Scope, ev: Event, x: Message) {
    x in Batch(w, scope, ev)
  }

  // Some event leapt over `x`, and no broadcast or page has brought it since.
  ghost predicate LeftOut(scope: Scope, evs: seq<Event>, x: Message) {
    evs != [] &&
    var w, ev := Run(scope, evs[..|evs| - 1]), evs[|evs| - 1];
    Leaps(w, scope, ev, x) || (LeftOut(scope, evs[..|evs| - 1], x) && !Brings(w, scope, ev, x))
  }

  // ---------------------------------------------------------------- what every step keeps

  // A page holds messages of the room above the cursor and skips none of them below its last; the
  // first page of an empty cache is a stretch of the room without a hole.
  ghost predicate PageOk(p: seq<Message>, cursor: Option<nat>, mine: seq<Message>) {
    && (forall q :: q in p ==> q in mine)
    && match cursor
       case Some(k) =>
         && (forall q :: q in p ==> k < q.id)
         && (forall x, q :: x in mine && q in p && k < x.id <= q.id ==> x in p)
       case None =>
         forall x, q, r :: x in mine && q in p && r in p && q.id <= x.id <= r.id ==> x in p
  }

  ghost predicate CursorOk(c: set<Message>, cursor: Option<nat>) {
    cursor.Some? ==> cursor.value >= 1 && exists a :: a in c && a.id == cursor.value
  }

  ghost predicate SyncOk(c: set<Message>, mine: seq<Message>, s: Sync) {
    CursorOk(c, s.cursor) && (s.page.Some? ==> PageOk(s.page.value, s.cursor, mine))
  }

  ghost predicate SyncsOk(w: World, scope: Scope) {
    forall sid :: sid in w.syncs ==>
      var s := w.syncs[sid]; SyncOk(Kept(w, scope, s.room), Mine(w, s.room), s)
  }

  ghost predicate Sound(w: World, scope: Scope) {
    Ascending(w.log) && Agrees(w.cache, scope, w.log) && SyncsOk(w, scope)
  }

  lemma SaidInRoom(log: seq<Message>, m: Message, room: nat)
    ensures InRoom(log + [m], room) == InRoom(log, room) + if m.room == room then [m] else []
  {
    assert (log + [m])[..|log|] == log;
  }

  lemma OlderThan(log: seq<Message>, m: Message, room: nat)
    requires Ascending(log + [m])
    ensures forall x :: x in InRoom(log, room) ==> x.id < m.id
  {
    RoomLog(log, room);
    LastIsGreatest(log + [m], log);
  }

  lemma KeptInMine(w: World, scope: Scope, room: nat)
    requires Sound(w, scope)
    ensures forall a :: a in Kept(w, scope, room) ==> a in Mine(w, room)
    ensures forall x :: x in Mine(w, room) ==> x.room == room && x in w.log && x.id >= 1
  {
    RoomLog(w.log, room);
  }

  // The server's answer, as the page of a sync.
  lemma AnswerIsOk(mine: seq<Message>, limit: int, cursor: Option<nat>)
    requires Ascending(mine) && (cursor.Some? ==> cursor.value >= 1)
    ensures PageOk(NextList(mine, limit, cursor), cursor, mine)
  {
    var p := NextList(mine, limit, cursor);
    match cursor
    case Some(k) =>
      FilterBasics(mine, k);
      var up := Above(mine, k);
      hide Above, Ascending;
      forall x, q | x in mine && q in p && k < x.id <= q.id ensures x in p {
        FirstOnes(up, Clamp(limit), x, q);
      }
    case None =>
      SuffixIsGreatest(mine, |mine| - Min(Clamp(limit), |mine|));
  }

  lemma FirstOnes(up: seq<Message>, n: nat, x: Message, b: Message)
    requires Ascending(up) && x in up && b in FirstN(up, n) && x.id <= b.id
    ensures x in FirstN(up, n)
  {
    var i :| 0 <= i < |up| && up[i] == x;
    var j :| 0 <= j < |FirstN(up, n)| && FirstN(up, n)[j] == b;
    assert i <= j && FirstN(up, n)[i] == x;
  }

  // A new message is newer than every page and every cursor.
  lemma PageStaysOk(p: seq<Message>, cursor: Option<nat>, mine: seq<Message>, m: Message)
    requires PageOk(p, cursor, mine) && forall x :: x in mine ==> x.id < m.id
    ensures PageOk(p, cursor, mine + [m])
  {
  }

  // The room of everything the event writes.
  ghost function BatchRoom(w: World, ev: Event): nat {
    match ev
    case Heard(i) => if i < |w.log| then w.log[i].room else 0
    case Write(sid) => if sid in w.syncs then w.syncs[sid].room else 0
    case _ => 0
  }

  lemma BatchInLog(w: World, scope: Scope, ev: Event)
    requires Sound(w, scope)
    ensures forall m :: m in Batch(w, scope, ev) ==> m in w.log && m.room == BatchRoom(w, ev)
  {
    if ev.Write? && ev.sid in w.syncs && w.syncs[ev.sid].page.Some? {
      var s := w.syncs[ev.sid];
      assert SyncOk(Kept(w, scope, s.room), Mine(w, s.room), s);
      KeptInMine(w, scope, s.room);
    }
  }

  lemma StepCaches(w: World, scope: Scope, ev: Event)
    requires Sound(w, scope) && Happens(w, scope, ev)
    ensures var w' := Step(w, scope, ev);
      && Ascending(w'.log) && Agrees(w'.cache, scope, w'.log)
      && forall room: nat :: Kept(w', scope, room) == Kept(w, scope, room) + Brought(w, scope, ev, room)
  {
    var w', f, room := Step(w, scope, ev), Batch(w, scope, ev), BatchRoom(w, ev);
    BatchInLog(w, scope, ev);
    assert Agrees(w.cache, scope, w'.log);
    UpsertAdds(w.cache, scope, w'.log, room, f);
    hide Upserted, Batch, Agrees, Ascending;
    forall r: nat ensures Kept(w', scope, r) == Kept(w, scope, r) + Brought(w, scope, ev, r) {
      if r == room {
        assert Brought(w, scope, ev, r) == Elements(f);
      } else {
        assert Brought(w, scope, ev, r) == {};
      }
    }
  }

  lemma StepStores(w: World, scope: Scope, ev: Event, room: nat)
    requires Happens(w, scope, ev)
    ensures Mine(Step(w, scope, ev), room) ==
      Mine(w, room) + if ev.Stored? && ev.message.room == room then [ev.message] else []
  {
    if ev.Stored? {
      SaidInRoom(w.log, ev.message, room);
    } else {
      assert Mine(w, room) + [] == Mine(w, room);
    }
  }

  // A sync that the event does not concern.
  lemma SyncStays(w: World, scope: Scope, ev: Event, s: Sync)
    requires Sound(w, scope) && Happens(w, scope, ev)
    requires SyncOk(Kept(w, scope, s.room), Mine(w, s.room), s)
    ensures var w' := Step(w, scope, ev); SyncOk(Kept(w', scope, s.room), Mine(w', s.room), s)
  {
    StepCaches(w, scope, ev);
    StepStores(w, scope, ev, s.room);
    var mine := Mine(w, s.room);
    assert mine + [] == mine;
    if ev.Stored? {
      OlderThan(w.log, ev.message, s.room);
    }
    hide Kept, Mine, Step, Brought, PageOk;
    if ev.Stored? && ev.message.room == s.room && s.page.Some? {
      PageStaysOk(s.page.value, s.cursor, mine, ev.message);
    }
  }

  lemma BeginMoves(w: World, scope: Scope, room: nat, limit: int, latest: Option<nat>)
    requires Sound(w, scope) && IsLatest(w.cache, scope, room, latest)
    ensures SyncOk(Kept(w, scope, room), Mine(w, room), Sync(room, limit, latest, None))
  {
    if latest.Some? {
      CachedIds(w.cache, scope, room, w.log, latest.value);
    }
  }

  lemma FetchMoves(w: World, scope: Scope, s: Sync)
    requires Sound(w, scope) && SyncOk(Kept(w, scope, s.room), Mine(w, s.room), s)
    ensures var page := NextList(Mine(w, s.room), s.limit, s.cursor);
      SyncOk(Kept(w, scope, s.room), Mine(w, s.room), s.(page := Some(page)))
  {
    RoomLog(w.log, s.room);
    AnswerIsOk(Mine(w, s.room), s.limit, s.cursor);
    hide PageOk, Ascending, Kept, Mine, NextList;
  }

  lemma WriteMoves(c: set<Message>, mine: seq<Message>, s: Sync, c': set<Message>)
    requires SyncOk(c, mine, s) && s.page.Some? && s.page.value != []
    requires forall m :: m in mine ==> m.id >= 1
    requires Elements(s.page.value) <= c'
    ensures SyncOk(c', mine, s.(cursor := Some(s.page.value[|s.page.value| - 1].id), page := None))
  {
    var last := s.page.value[|s.page.value| - 1];
    assert last in s.page.value && last in Elements(s.page.value);
  }

  // The sync that the event moves on.
  lemma SyncMoves(w: World, scope: Scope, ev: Event)
    requires Sound(w, scope) && Happens(w, scope, ev) && (ev.Begin? || ev.Fetch? || ev.Write?)
    requires ev.sid in SyncsAfter(w, scope, ev)
    ensures var w' := Step(w, scope, ev);
      var s := SyncsAfter(w, scope, ev)[ev.sid];
      SyncOk(Kept(w', scope, s.room), Mine(w', s.room), s)
  {
    var s := SyncsAfter(w, scope, ev)[ev.sid];
    StepCaches(w, scope, ev);
    StepStores(w, scope, ev, s.room);
    assert Mine(w, s.room) + [] == Mine(w, s.room);
    match ev {
      case Begin(sid, room, limit, latest) =>
        hide Kept, Mine, Step, SyncOk, Upserted;
        BeginMoves(w, scope, room, limit, latest);
        NothingBrought(w, scope, ev, s.room);
      case Fetch(sid) =>
        assert SyncOk(Kept(w, scope, s.room), Mine(w, s.room), w.syncs[sid]);
        hide Kept, Mine, Step, SyncOk, Upserted, NextList;
        FetchMoves(w, scope, w.syncs[sid]);
        NothingBrought(w, scope, ev, s.room);
      case Write(sid) =>
        assert SyncOk(Kept(w, scope, s.room), Mine(w, s.room), w.syncs[sid]);
        KeptInMine(w, scope, s.room);
        BatchInLog(w, scope, ev);
        assert Elements(w.syncs[sid].page.value) == Brought(w, scope, ev, s.room);
        hide Kept, Mine, Step, SyncOk, Upserted, Brought, Batch, Elements;
        WriteMoves(Kept(w, scope, s.room), Mine(w, s.room), w.syncs[sid], Kept(Step(w, scope, ev), scope, s.room));
    }
  }

  lemma NothingBrought(w: World, scope: Scope, ev: Event, room: nat)
    requires !ev.Heard? && !ev.Write?
    ensures Kept(w, scope, room) + Brought(w, scope, ev, room) == Kept(w, scope, room)
  {
    assert Brought(w, scope, ev, room) == {};
  }

  lemma StepKeepsSound(w: World, scope: Scope, ev: Event)
    requires Sound(w, scope) && Happens(w, scope, ev)
    ensures Sound(Step(w, scope, ev), scope)
  {
    var w' := Step(w, scope, ev);
    StepCaches(w, scope, ev);
    forall sid | sid in w'.syncs
      ensures var s := w'.syncs[sid]; SyncOk(Kept(w', scope, s.room), Mine(w', s.room), s)
    {
      if (ev.Begin? || ev.Fetch? || ev.Write?) && sid == ev.sid {
        SyncMoves(w, scope, ev);
      } else {
        assert sid in w.syncs && w'.syncs[sid] == w.syncs[sid];
        hide *;
        SyncStays(w, scope, ev, w.syncs[sid]);
      }
    }
  }

  lemma {:induction false} RunIsSound(scope: Scope, evs: seq<Event>)
    ensures Sound(Run(scope, evs), scope)
  {
    if evs == [] {
    } else {
      var w, ev := Run(scope, evs[..|evs| - 1]), evs[|evs| - 1];
      RunIsSound(scope, evs[..|evs| - 1]);
      if Happens(w, scope, ev) {
        StepKeepsSound(w, scope, ev);
      }
    }
  }

  // ---------------------------------------------------------------- what one step does to a message

  ghost predicate UniqueIds(mine: seq<Message>) {
    forall x, y :: x in mine && y in mine && x.id == y.id ==> x == y
  }

  lemma AscendingIsUnique(mine: seq<Message>)
    requires Ascending(mine)
    ensures UniqueIds(mine)
  {
    forall x, y | x in mine && y in mine && x.id == y.id ensures x == y {
      UniqueById(mine, x, y);
    }
  }

  ghost predicate Stretch(f: set<Message>, mine: seq<Message>) {
    forall x, q, r :: x in mine && q in f && r in f && q.id <= x.id <= r.id ==> x in f
  }

  // Adding a stretch of the room: it leaves out what lies between it and the cache.
  lemma StretchJoins(c: set<Message>, f: set<Message>, mine: seq<Message>, x: Message)
    requires UniqueIds(mine) && Stretch(f, mine)
    requires forall a :: a in c || a in f ==> a in mine
    ensures Missing(c + f, mine, x) <==>
      (Missing(c, mine, x) && x !in f) || (x in mine && x !in c && x !in f && Straddles(c, f, x))
  {
    if Missing(c + f, mine, x) && !Missing(c, mine, x) {
      var a :| a in c + f && a.id <= x.id;
      var b :| b in c + f && x.id <= b.id;
      hide UniqueIds, Stretch;
      StretchSide(c, f, mine, x, a, b);
    }
  }

  lemma StretchSide(c: set<Message>, f: set<Message>, mine: seq<Message>, x: Message, a: Message, b: Message)
    requires UniqueIds(mine) && Stretch(f, mine)
    requires forall m :: m in c || m in f ==> m in mine
    requires x in mine && x !in c + f && !Missing(c, mine, x)
    requires a in c + f && a.id <= x.id && b in c + f && x.id <= b.id
    ensures Straddles(c, f, x)
  {
    assert a in c ==> b in f;
    assert a in f ==> b in c;
  }

  // Adding a page above a cached cursor never leaves anything out.
  lemma PageJoins(c: set<Message>, f: set<Message>, mine: seq<Message>, k: nat, x: Message)
    requires exists a :: a in c && a.id == k
    requires forall q :: q in f ==> k < q.id
    requires forall y, q :: y in mine && q in f && k < y.id <= q.id ==> y in f
    ensures Missing(c + f, mine, x) <==> Missing(c, mine, x) && x !in f
  {
    var top :| top in c && top.id == k;
    if Missing(c + f, mine, x) {
      var a :| a in c + f && a.id <= x.id;
      var b :| b in c + f && x.id <= b.id;
      assert b in f ==> x.id <= top.id;
      assert a in f ==> top.id <= x.id;
    }
  }

  ghost predicate MissingIn(w: World, scope: Scope, x: Message) {
    Missing(Kept(w, scope, x.room), Mine(w, x.room), x)
  }

  // The step misses out `x` exactly if it leaps over it, or `x` was missing and is not brought.
  lemma StepMisses(w: World, scope: Scope, ev: Event, x: Message)
    requires Sound(w, scope) && Happens(w, scope, ev)
    ensures MissingIn(Step(w, scope, ev), scope, x) <==>
      Leaps(w, scope, ev, x) || (MissingIn(w, scope, x) && !Brings(w, scope, ev, x))
  {
    var c, mine, f := Kept(w, scope, x.room), Mine(w, x.room), Brought(w, scope, ev, x.room);
    KeptInMine(w, scope, x.room);
    StepCaches(w, scope, ev);
    StepStores(w, scope, ev, x.room);
    assert Brings(w, scope, ev, x) <==> x in f;
    assert mine + [] == mine;
    if ev.Stored? {
      OlderThan(w.log, ev.message, x.room);
      NothingBrought(w, scope, ev, x.room);
      hide Kept, Mine, Step, Brought, Batch;
      assert Missing(c, mine + [ev.message], x) <==> Missing(c, mine, x);
    } else if ev.Heard? || ev.Write? {
      hide Step;
      BatchMisses(w, scope, ev, x);
    } else {
      NothingBrought(w, scope, ev, x.room);
      hide Kept, Mine, Step;
    }
  }

  lemma BatchMisses(w: World, scope: Scope, ev: Event, x: Message)
    requires Sound(w, scope) && Happens(w, scope, ev) && (ev.Heard? || ev.Write?)
    ensures var c, mine, f := Kept(w, scope, x.room), Mine(w, x.room), Brought(w, scope, ev, x.room);
      Missing(c + f, mine, x) <==> Leaps(w, scope, ev, x) || (Missing(c, mine, x) && x !in f)
  {
    var c, mine, f := Kept(w, scope, x.room), Mine(w, x.room), Brought(w, scope, ev, x.room);
    KeptInMine(w, scope, x.room);
    RoomLog(w.log, x.room);
    AscendingIsUnique(mine);
    BatchInLog(w, scope, ev);
    if ev.Write? && w.syncs[ev.sid].cursor.Some? {
      var s := w.syncs[ev.sid];
      assert SyncOk(Kept(w, scope, s.room), Mine(w, s.room), s);
      if s.room == x.room {
        assert forall q :: q in f <==> q in s.page.value;
        hide Kept, Mine, Brought, Batch;
        PageJoins(c, f, mine, s.cursor.value, x);
      } else {
        assert f == {} && c + f == c;
      }
    } else {
      assert Stretch(f, mine) by { BatchIsStretch(w, scope, ev, x.room); }
      hide Kept, Mine, Brought, Batch, Stretch, UniqueIds;
      StretchJoins(c, f, mine, x);
    }
  }

  lemma BatchIsStretch(w: World, scope: Scope, ev: Event, room: nat)
    requires Sound(w, scope) && Happens(w, scope, ev)
    requires ev.Heard? || (ev.Write? && w.syncs[ev.sid].cursor.None?)
    ensures Stretch(Brought(w, scope, ev, room), Mine(w, room))
  {
    KeptInMine(w, scope, room);
    RoomLog(w.log, room);
    AscendingIsUnique(Mine(w, room));
    BatchInLog(w, scope, ev);
    if ev.Write? {
      var s := w.syncs[ev.sid];
      assert SyncOk(Kept(w, scope, s.room), Mine(w, s.room), s);
      hide Kept, Mine;
    } else {
      hide Kept;
      assert forall q :: q in Brought(w, scope, ev, room) ==> q == w.log[ev.index] && q in Mine(w, room);
    }
  }

  // ---------------------------------------------------------------- whole runs

  // In every run a stored message is missing between two cached ones of its room exactly if some
  // event leapt over it and neither its broadcast nor a page has brought it since.
  lemma {:induction false} MissingIff(scope: Scope, evs: seq<Event>, x: Message)
    ensures MissingIn(Run(scope, evs), scope, x) <==> LeftOut(scope, evs, x)
  {
    if evs == [] {
      assert Mine(EMPTY, x.room) == [];
    } else {
      var before, ev := evs[..|evs| - 1], evs[|evs| - 1];
      MissingIff(scope, before, x);
      RunIsSound(scope, before);
      if Happens(Run(scope, before), scope, ev) {
        hide Sound, Step, Leaps, Brings, MissingIn, Happens;
        StepMisses(Run(scope, before), scope, ev, x);
      } else {
        assert !Leaps(Run(scope, before), scope, ev, x) && !Brings(Run(scope, before), scope, ev, x);
      }
    }
  }

  // The cache of a room has no gap exactly if every message that was ever leapt over has been
  // heard or fetched since.
  lemma GapFreeIff(scope: Scope, evs: seq<Event>, room: nat)
    ensures var w := Run(scope, evs);
      Contiguous(Kept(w, scope, room), Mine(w, room)) <==>
        forall x: Message :: x.room == room ==> !LeftOut(scope, evs, x)
  {
    var w := Run(scope, evs);
    var c, mine := Kept(w, scope, room), Mine(w, room);
    RunIsSound(scope, evs);
    KeptInMine(w, scope, room);
    hide Sound, Run, LeftOut, Kept, Mine;
    forall x: Message | x.room == room ensures Missing(c, mine, x) <==> LeftOut(scope, evs, x) {
      MissingIff(scope, evs, x);
    }
    ContiguousMeansNoneMissing(c, mine);
    hide Contiguous, Missing;
    assert forall x :: Missing(c, mine, x) ==> x in mine by { MissingInMine(c, mine); }
  }

  lemma MissingInMine(c: set<Message>, mine: seq<Message>)
    ensures forall x :: Missing(c, mine, x) ==> x in mine
  {
  }

  lemma ContiguousMeansNoneMissing(c: set<Message>, mine: seq<Message>)
    ensures Contiguous(c, mine) <==> forall x :: !Missing(c, mine, x)
  {
    if !Contiguous(c, mine) {
      var a, b, x :| a in c && b in c && x in mine && a.id <= x.id <= b.id && x !in c;
      assert Missing(c, mine, x);
    }
  }

  // ---------------------------------------------------------------- when a message stays missing

  // No sync under way can still ask for `x`.
  ghost predicate NoneBelow(w: World, x: Message) {
    forall sid :: sid in w.syncs && w.syncs[sid].room == x.room ==>
      w.syncs[sid].cursor.Some? && x.id <= w.syncs[sid].cursor.value
  }

  lemma LogGrows(w: World, scope: Scope, ev: Event, k: nat)
    requires Ascending(w.log) && k < |w.log|
    ensures var w' := Step(w, scope, ev); k < |w'.log| && w'.log[k] == w.log[k]
    ensures forall i: nat :: i < |w.log| && w.log[i] == w.log[k] ==> i == k
  {
  }

  lemma OnlyHeardBrings(w: World, scope: Scope, ev: Event, k: nat)
    requires Sound(w, scope) && k < |w.log| && NoneBelow(w, w.log[k])
    ensures Brings(w, scope, ev, w.log[k]) <==> ev == Heard(k)
  {
    var x := w.log[k];
    LogGrows(w, scope, ev, k);
    if ev.Write? && Happens(w, scope, ev) {
      var s := w.syncs[ev.sid];
      assert SyncOk(Kept(w, scope, s.room), Mine(w, s.room), s);
      BatchInLog(w, scope, ev);
      hide Kept, Mine;
      assert x !in s.page.value;
    }
  }

  lemma CursorsRise(w: World, scope: Scope, ev: Event, x: Message, sid: nat)
    requires Sound(w, scope) && Happens(w, scope, ev) && NoneBelow(w, x)
    requires exists b :: b in Kept(w, scope, x.room) && x.id <= b.id
    requires sid in SyncsAfter(w, scope, ev) && SyncsAfter(w, scope, ev)[sid].room == x.room
    ensures var cursor := SyncsAfter(w, scope, ev)[sid].cursor; cursor.Some? && x.id <= cursor.value
  {
    if ev.Write? && sid == ev.sid {
      var s := w.syncs[sid];
      assert SyncOk(Kept(w, scope, s.room), Mine(w, s.room), s);
      hide Kept, Mine, SyncsOk, Agrees, Ascending;
      assert s.page.value[|s.page.value| - 1] in s.page.value;
    } else {
      hide Mine, SyncsOk, Agrees, Ascending, NextList;
    }
  }

  lemma StaysNoneBelow(w: World, scope: Scope, ev: Event, x: Message)
    requires Sound(w, scope) && Happens(w, scope, ev) && NoneBelow(w, x)
    requires exists b :: b in Kept(w, scope, x.room) && x.id <= b.id
    ensures NoneBelow(Step(w, scope, ev), x)
  {
    var syncs := SyncsAfter(w, scope, ev);
    assert Step(w, scope, ev).syncs == syncs by { hide SyncsAfter, Upserted, Batch; }
    hide Step, Sound, SyncsAfter;
    forall sid | sid in syncs && syncs[sid].room == x.room
      ensures syncs[sid].cursor.Some? && x.id <= syncs[sid].cursor.value
    {
      CursorsRise(w, scope, ev, x, sid);
    }
  }

  lemma {:induction false} StaysBelowCached(scope: Scope, evs: seq<Event>, more: seq<Event>, k: nat)
    requires k < |Run(scope, evs).log| && NoneBelow(Run(scope, evs), Run(scope, evs).log[k])
    requires var x := Run(scope, evs).log[k]; exists b :: b in Kept(Run(scope, evs), scope, x.room) && x.id <= b.id
    ensures var x, w := Run(scope, evs).log[k], Run(scope, evs + more);
      && k < |w.log| && w.log[k] == x && NoneBelow(w, x)
      && exists b :: b in Kept(w, scope, x.room) && x.id <= b.id
    ensures var x := Run(scope, evs).log[k];
      x in Kept(Run(scope, evs + more), scope, x.room) <==>
        x in Kept(Run(scope, evs), scope, x.room) || Heard(k) in more
  {
    var x := Run(scope, evs).log[k];
    if more == [] {
      assert evs + more == evs;
    } else {
      var before, ev := evs + more[..|more| - 1], more[|more| - 1];
      assert (evs + more)[..|evs + more| - 1] == before && more == more[..|more| - 1] + [ev];
      StaysBelowCached(scope, evs, more[..|more| - 1], k);
      RunIsSound(scope, before);
      var w := Run(scope, before);
      assert Run(scope, evs + more) == Step(w, scope, ev);
      OnlyHeardBrings(w, scope, ev, k);
      LogGrows(w, scope, ev, k) by { assert Ascending(w.log); }
      if Happens(w, scope, ev) {
        hide Run;
        StepCaches(w, scope, ev);
        StaysNoneBelow(w, scope, ev, x);
        hide Step, Kept, Sound, NoneBelow, Batch;
        assert x in Brought(w, scope, ev, x.room) <==> ev == Heard(k);
      }
    }
  }

  // A missing message that no sync under way can still ask for: whatever follows, however many
  // syncs, it reaches the cache if and only if its own broadcast does.
  lemma MissingUntilHeard(scope: Scope, evs: seq<Event>, more: seq<Event>, k: nat)
    requires k < |Run(scope, evs).log| && MissingIn(Run(scope, evs), scope, Run(scope, evs).log[k])
    requires NoneBelow(Run(scope, evs), Run(scope, evs).log[k])
    ensures var x := Run(scope, evs).log[k];
      x in Kept(Run(scope, evs + more), scope, x.room) <==> Heard(k) in more
  {
    StaysBelowCached(scope, evs, more, k);
  }

  // ---------------------------------------------------------------- an undisturbed sync

  function Rounds(sid: nat, n: nat): seq<Event> {
    if n == 0 then [] else [Fetch(sid)] + ([Write(sid)] + Rounds(sid, n - 1))
  }

  lemma RunSnoc(scope: Scope, evs: seq<Event>, ev: Event)
    ensures Run(scope, evs + [ev]) == Step(Run(scope, evs), scope, ev)
  {
    assert (evs + [ev])[..|evs|] == evs;
  }

  lemma FetchStep(w: World, scope: Scope, sid: nat, s: Sync)
    requires sid !in w.syncs && s.page.None?
    ensures var list := NextList(Mine(w, s.room), s.limit, s.cursor);
      Step(w.(syncs := w.syncs[sid := s]), scope, Fetch(sid)) ==
        w.(syncs := w.syncs[sid := s.(page := Some(list))])
  {
    var w1 := w.(syncs := w.syncs[sid := s]);
    var list := NextList(Mine(w, s.room), s.limit, s.cursor);
    assert Mine(w1, s.room) == Mine(w, s.room) && Upserted(w.cache, scope, []) == w.cache;
    assert w1.syncs[sid := s.(page := Some(list))] == w.syncs[sid := s.(page := Some(list))];
    hide Mine, Upserted, NextList;
  }

  lemma WriteStep(w: World, scope: Scope, sid: nat, s: Sync, list: seq<Message>)
    requires sid !in w.syncs && s.page.None?
    ensures Step(w.(syncs := w.syncs[sid := s.(page := Some(list))]), scope, Write(sid)) ==
      World(w.log, Upserted(w.cache, scope, list), AfterPage(w.syncs[sid := s], sid, s, list))
  {
    var syncs, syncs' := w.syncs[sid := s], w.syncs[sid := s.(page := Some(list))];
    assert syncs' - {sid} == syncs - {sid};
    if list != [] {
      var t := s.(cursor := Some(list[|list| - 1].id), page := None);
      assert syncs'[sid := t] == syncs[sid := t];
    }
    hide Mine, Upserted;
  }

  lemma OneRound(scope: Scope, evs: seq<Event>, w: World, sid: nat, s: Sync)
    requires Run(scope, evs) == w.(syncs := w.syncs[sid := s]) && sid !in w.syncs && s.page.None?
    ensures var list := NextList(Mine(w, s.room), s.limit, s.cursor);
      Run(scope, evs + [Fetch(sid)] + [Write(sid)]) ==
        World(w.log, Upserted(w.cache, scope, list), AfterPage(w.syncs[sid := s], sid, s, list))
  {
    hide *;
    RunSnoc(scope, evs, Fetch(sid));
    RunSnoc(scope, evs + [Fetch(sid)], Write(sid));
    FetchStep(w, scope, sid, s);
    WriteStep(w, scope, sid, s, NextList(Mine(w, s.room), s.limit, s.cursor));
  }

  // The world `w` with `fetched` written by a sync that asks from `after` next.
  ghost function Syncing(w: World, scope: Scope, sid: nat, room: nat, limit: int,
                         fetched: seq<Message>, after: Option<nat>): World {
    World(w.log, Upserted(w.cache, scope, fetched), w.syncs[sid := Sync(room, limit, after, None)])
  }

  ghost function Synced(w: World, scope: Scope, fetched: seq<Message>): World {
    w.(cache := Upserted(w.cache, scope, fetched))
  }

  lemma RoundRuns(scope: Scope, evs: seq<Event>, w: World, sid: nat, room: nat, limit: int,
                  fetched: seq<Message>, after: Option<nat>)
    requires Run(scope, evs) == Syncing(w, scope, sid, room, limit, fetched, after) && sid !in w.syncs
    ensures var list := NextList(Mine(w, room), limit, after);
      Run(scope, evs + [Fetch(sid)] + [Write(sid)]) ==
        if list == [] || |list| < limit then Synced(w, scope, fetched + list)
        else Syncing(w, scope, sid, room, limit, fetched + list, Some(list[|list| - 1].id))
  {
    var list, s := NextList(Mine(w, room), limit, after), Sync(room, limit, after, None);
    OneRound(scope, evs, Synced(w, scope, fetched), sid, s);
    UpsertTwice(w.cache, scope, fetched, list);
    AfterPageOf(w.syncs, sid, s, list);
    hide NextList, Run, Upserted, Mine, AfterPage;
  }

  lemma AfterPageOf(syncs: map<nat, Sync>, sid: nat, s: Sync, list: seq<Message>)
    requires sid !in syncs && s.page.None?
    ensures AfterPage(syncs[sid := s], sid, s, list) ==
      if list == [] || |list| < s.limit then syncs
      else syncs[sid := Sync(s.room, s.limit, Some(list[|list| - 1].id), None)]
  {
    if list == [] || |list| < s.limit {
      assert syncs[sid := s] - {sid} == syncs;
    } else {
      var t := Sync(s.room, s.limit, Some(list[|list| - 1].id), None);
      assert syncs[sid := s][sid := t] == syncs[sid := t];
    }
  }

  lemma QuietRounds(scope: Scope, evs: seq<Event>, w: World, sid: nat, room: nat, limit: int,
                    start: Option<nat>, fetched: seq<Message>, after: Option<nat>) returns (n: nat)
    requires Run(scope, evs) == Syncing(w, scope, sid, room, limit, fetched, after) && sid !in w.syncs
    requires Ascending(Mine(w, room)) && Progress(Mine(w, room), start, limit, fetched, after)
    ensures Run(scope, evs + Rounds(sid, n)) == Synced(w, scope, Fetched(Mine(w, room), start, limit))
    decreases Measure(Mine(w, room), fetched, after)
  {
    var mine := Mine(w, room);
    var list := NextList(mine, limit, after);
    var evs' := evs + [Fetch(sid)] + [Write(sid)];
    hide *;
    RoundRuns(scope, evs, w, sid, room, limit, fetched, after);
    RoundProgress(mine, start, limit, fetched, after);
    if list == [] || |list| < limit {
      n := 1;
      MoreRounds(evs, sid, 0);
      assert evs' + Rounds(sid, 0) == evs' by { NoRounds(sid); }
    } else {
      var last := Some(list[|list| - 1].id);
      var m := QuietRounds(scope, evs', w, sid, room, limit, start, fetched + list, last);
      n := m + 1;
      MoreRounds(evs, sid, m);
    }
  }

  lemma RoundProgress(mine: seq<Message>, start: Option<nat>, limit: int, fetched: seq<Message>, after: Option<nat>)
    requires Ascending(mine) && Progress(mine, start, limit, fetched, after)
    ensures var list := NextList(mine, limit, after);
      && (list == [] || |list| < limit ==> fetched + list == Fetched(mine, start, limit))
      && (list != [] && |list| >= limit ==>
            var last := Some(list[|list| - 1].id);
            Progress(mine, start, limit, fetched + list, last)
            && Measure(mine, fetched + list, last) < Measure(mine, fetched, after))
  {
    if NextList(mine, limit, after) == [] {
      EmptyPage(mine, start, limit, fetched, after);
      assert fetched + [] == fetched;
    } else {
      PageAdvances(mine, start, limit, fetched, after);
    }
  }

  lemma NoRounds(sid: nat)
    ensures Rounds(sid, 0) == []
  {
  }

  lemma MoreRounds(evs: seq<Event>, sid: nat, m: nat)
    ensures evs + Rounds(sid, m + 1) == evs + [Fetch(sid)] + [Write(sid)] + Rounds(sid, m)
  {
  }

  // A sync that nothing disturbs ends, having added exactly what SyncLatest adds.
  lemma QuietSync(scope: Scope, evs: seq<Event>, sid: nat, room: nat, limit: int, start: Option<nat>)
    returns (n: nat)
    requires sid !in Run(scope, evs).syncs && IsLatest(Run(scope, evs).cache, scope, room, start)
    ensures var w := Run(scope, evs);
      Run(scope, evs + [Begin(sid, room, limit, start)] + Rounds(sid, n)) ==
        Synced(w, scope, Fetched(Mine(w, room), start, limit))
  {
    var w, begin := Run(scope, evs), Begin(sid, room, limit, start);
    RunIsSound(scope, evs);
    RoomLog(w.log, room);
    RunSnoc(scope, evs, begin);
    assert Upserted(w.cache, scope, []) == w.cache && Progress(Mine(w, room), start, limit, [], start);
    assert Step(w, scope, begin) == Syncing(w, scope, sid, room, limit, [], start);
    hide Run, Syncing, Synced, Step, Progress, Upserted, Fetched;
    n := QuietRounds(scope, evs + [begin], w, sid, room, limit, start, [], start);
  }

  // Whatever came before, an undisturbed sync leaves a suffix of the room's log if and only if
  // every message that was ever leapt over has been heard or fetched, and the page size leaves
  // nothing newer behind.
  lemma LiveThenSync(scope: Scope, evs: seq<Event>, sid: nat, room: nat, limit: int, start: Option<nat>)
    returns (n: nat)
    requires sid !in Run(scope, evs).syncs && IsLatest(Run(scope, evs).cache, scope, room, start)
    ensures var w := Run(scope, evs + [Begin(sid, room, limit, start)] + Rounds(sid, n));
      CachedSuffix(Kept(w, scope, room), Mine(w, room)) <==>
        && (forall x: Message :: x.room == room ==> !LeftOut(scope, evs, x))
        && (start.Some? ==> limit <= 100 || |Above(Mine(w, room), start.value)| <= 50)
  {
    var w := Run(scope, evs);
    n := QuietSync(scope, evs, sid, room, limit, start);
    GapFreeIff(scope, evs, room);
    RunIsSound(scope, evs);
    SyncFillsSuffix(w.log, w.cache, scope, room, limit, start);
    hide Run, LeftOut, Contiguous, CachedSuffix, Above, Fetched, Upserted, Cached, InRoom;
  }

  // ---------------------------------------------------------------- runs that leap

  ghost predicate Stands(scope: Scope, evs: seq<Event>, room: nat, log: seq<Message>, kept: set<Message>,
                         syncs: map<nat, Sync>) {
    && Run(scope, evs).log == log && Kept(Run(scope, evs), scope, room) == kept && Run(scope, evs).syncs == syncs
  }

  lemma StoredNext(scope: Scope, evs: seq<Event>, room: nat, log: seq<Message>, kept: set<Message>,
                   syncs: map<nat, Sync>, m: Message)
    requires Stands(scope, evs, room, log, kept, syncs) && Ascending(log + [m])
    ensures Stands(scope, evs + [Stored(m)], room, log + [m], kept, syncs)
  {
    RunSnoc(scope, evs, Stored(m));
    hide Run, Ascending;
  }

  lemma HeardNext(scope: Scope, evs: seq<Event>, room: nat, log: seq<Message>, kept: set<Message>,
                  syncs: map<nat, Sync>, i: nat)
    requires Stands(scope, evs, room, log, kept, syncs) && i < |log| && log[i].room == room
    ensures Stands(scope, evs + [Heard(i)], room, log, kept + {log[i]}, syncs)
  {
    RunSnoc(scope, evs, Heard(i));
    RunIsSound(scope, evs);
    StepCaches(Run(scope, evs), scope, Heard(i));
    hide Run, Ascending, Sound, Kept, Upserted, Agrees;
    assert Brought(Run(scope, evs), scope, Heard(i), room) == {log[i]};
  }

  lemma InRoomOf(one: Message, two: Message, three: Message)
    requires one.room == two.room == three.room
    ensures forall m :: m in InRoom([one, two, three], one.room) <==> m == one || m == two || m == three
  {
    var log := [one, two, three];
    RoomLog(log, one.room);
    assert one in log && two in log && three in log;
  }

  // One message is heard, two more are stored, and the broadcast of the last comes first.
  function Leap(one: Message, two: Message, three: Message): seq<Event> {
    [] + [Stored(one)] + [Heard(0)] + [Stored(two)] + [Stored(three)] + [Heard(2)]
  }

  ghost predicate Consecutive(one: Message, two: Message, three: Message) {
    1 <= one.id < two.id < three.id && one.room == two.room == three.room
  }

  lemma ThreeStored(scope: Scope, one: Message, two: Message, three: Message)
    requires Consecutive(one, two, three)
    ensures Stands(scope, [] + [Stored(one)] + [Heard(0)] + [Stored(two)] + [Stored(three)], one.room,
                   [one, two, three], {one}, map[])
  {
    var room := one.room;
    assert Stands(scope, [], room, [], {}, map[]);
    assert [] + [one] == [one] && [one] + [two] == [one, two] && [one, two] + [three] == [one, two, three];
    assert Ascending([one]) && Ascending([one, two]) && Ascending([one, two, three]);
    assert {} + {one} == {one};
    hide Stands, Ascending, Consecutive;
    StoredNext(scope, [], room, [], {}, map[], one);
    HeardNext(scope, [] + [Stored(one)], room, [one], {}, map[], 0);
    StoredNext(scope, [] + [Stored(one)] + [Heard(0)], room, [one], {one}, map[], two);
    StoredNext(scope, [] + [Stored(one)] + [Heard(0)] + [Stored(two)], room, [one, two], {one}, map[], three);
  }

  // The message in between is left out until its own broadcast arrives, which closes the gap.
  lemma LateArrivalExample(scope: Scope, one: Message, two: Message, three: Message)
    requires Consecutive(one, two, three)
    ensures LeftOut(scope, Leap(one, two, three), two) && NoneBelow(Run(scope, Leap(one, two, three)), two)
    ensures var w := Run(scope, Leap(one, two, three) + [Heard(1)]);
      Kept(w, scope, one.room) == {one, two, three} && Contiguous(Kept(w, scope, one.room), Mine(w, one.room))
  {
    var room, log, evs := one.room, [one, two, three], Leap(one, two, three);
    InRoomOf(one, two, three);
    ThreeStored(scope, one, two, three);
    HeardNext(scope, [] + [Stored(one)] + [Heard(0)] + [Stored(two)] + [Stored(three)], room, log, {one}, map[], 2);
    assert {one} + {three} == {one, three} && {one, three} + {two} == {one, two, three};
    HeardNext(scope, evs, room, log, {one, three}, map[], 1);
    MissingIff(scope, evs, two);
    hide Run, LeftOut, Kept, InRoom;
    assert one in {one, three} && three in {one, three};
  }

  // A sync that had begun before the leap fetches the message too.
  lemma SyncCatchesUpExample(scope: Scope, one: Message, two: Message, three: Message)
    requires Consecutive(one, two, three)
    ensures var evs := [] + [Stored(one)] + [Heard(0)] + [Stored(two)] + [Stored(three)]
                       + [Begin(7, one.room, 50, Some(one.id))] + [Heard(2)];
      && LeftOut(scope, evs, two)
      && two in Kept(Run(scope, evs + [Fetch(7)] + [Write(7)]), scope, one.room)
  {
    var room, log := one.room, [one, two, three];
    var evs0 := [] + [Stored(one)] + [Heard(0)] + [Stored(two)] + [Stored(three)];
    var sync := Sync(room, 50, Some(one.id), None);
    var evs1 := evs0 + [Begin(7, room, 50, Some(one.id))];
    InRoomOf(one, two, three);
    ThreeStored(scope, one, two, three);
    BeginNext(scope, evs0, one, log);
    HeardNext(scope, evs1, room, log, {one}, map[7 := sync], 2);
    MissingIff(scope, evs1 + [Heard(2)], two);
    hide LeftOut, InRoom;
    assert one in {one} + {three} && three in {one} + {three};
    FetchedNext(scope, evs1 + [Heard(2)], one, two, log, {one} + {three}, sync);
  }

  lemma BeginNext(scope: Scope, evs: seq<Event>, one: Message, log: seq<Message>)
    requires Stands(scope, evs, one.room, log, {one}, map[])
    ensures var begin := Begin(7, one.room, 50, Some(one.id));
      Stands(scope, evs + [begin], one.room, log, {one}, map[7 := Sync(one.room, 50, Some(one.id), None)])
  {
    RunSnoc(scope, evs, Begin(7, one.room, 50, Some(one.id)));
    hide Run;
    assert one in {one};
  }

  lemma FetchedNext(scope: Scope, evs: seq<Event>, one: Message, two: Message, log: seq<Message>, kept: set<Message>,
                    sync: Sync)
    requires Stands(scope, evs, one.room, log, kept, map[7 := sync])
    requires sync == Sync(one.room, 50, Some(one.id), None) && one.id >= 1
    requires |log| <= 50 && two in InRoom(log, one.room) && one.id < two.id
    ensures two in Kept(Run(scope, evs + [Fetch(7)] + [Write(7)]), scope, one.room)
  {
    var w := Run(scope, evs);
    var w0 := w.(syncs := map[]);
    var list := NextList(InRoom(log, one.room), 50, Some(one.id));
    RunIsSound(scope, evs);
    KeptInMine(w, scope, one.room);
    FilterBasics(InRoom(log, one.room), one.id);
    assert list == Above(InRoom(log, one.room), one.id) && two in list;
    assert w.syncs == w0.syncs[7 := sync];
    OneRound(scope, evs, w0, 7, sync);
    UpsertAdds(w.cache, scope, w.log, one.room, list);
    hide Run, Upserted, InRoom, NextList, Sound, Agrees, Ascending;
  }
}
