// Message history: the server's paged queries, the client's local cache and the loop that
// brings the cache up to date.

module MessageSync {
  import opened Bytes

  // Ids are assigned by the database in increasing order, over all rooms.
  datatype Message = Message(id: nat, room: nat, sender: nat, content: string)

  ghost predicate Ascending(log: seq<Message>) {
    (forall i :: 0 <= i < |log| ==> log[i].id >= 1) && (forall i, j :: 0 <= i < j < |log| ==> log[i].id < log[j].id)
  }

  // ---------------------------------------------------------------- queries as functions

  function InRoom(log: seq<Message>, room: nat): (r: seq<Message>)
    ensures |r| <= |log|
  {
    if log == [] then [] else
      InRoom(log[..|log| - 1], room) + if log[|log| - 1].room == room then [log[|log| - 1]] else []
  }

  // WHERE id > after
  function Above(log: seq<Message>, after: nat): (r: seq<Message>)
    ensures |r| <= |log|
  {
    if log == [] then [] else
      Above(log[..|log| - 1], after) + if log[|log| - 1].id > after then [log[|log| - 1]] else []
  }

  // WHERE id < before
  function Below(log: seq<Message>, before: nat): (r: seq<Message>)
    ensures |r| <= |log|
  {
    if log == [] then [] else
      Below(log[..|log| - 1], before) + if log[|log| - 1].id < before then [log[|log| - 1]] else []
  }

  function Min(a: nat, b: nat): nat {
    if a < b then a else b
  }

  function FirstN(log: seq<Message>, n: nat): seq<Message> {
    log[..Min(n, |log|)]
  }

  function LastN(log: seq<Message>, n: nat): seq<Message> {
    log[|log| - Min(n, |log|)..]
  }

  function Clamp(limit: int): nat {
    if limit <= 0 || limit > 100 then 50 else limit
  }

  // The page the server answers with; an id of zero counts as not given.
  function Page(log: seq<Message>, room: nat, afterID: nat, beforeID: nat, limit: int): seq<Message> {
    var mine := InRoom(log, room);
    if afterID > 0 then FirstN(Above(mine, afterID), Clamp(limit))
    else if beforeID > 0 then LastN(Below(mine, beforeID), Clamp(limit))
    else LastN(mine, Clamp(limit))
  }

  // ---------------------------------------------------------------- the server in place

  // Swaps a descending result into ascending order.
  method ReverseInPlace(a: array<Message>)
    modifies a
    ensures forall k :: 0 <= k < a.Length ==> a[k] == old(a[a.Length - 1 - k])
  {
    var i, j := 0, a.Length - 1;
    while i < j
      invariant 0 <= i <= j + 1 && i + j == a.Length - 1
      invariant forall k :: 0 <= k < i ==> a[k] == old(a[a.Length - 1 - k]) && a[a.Length - 1 - k] == old(a[k])
      invariant forall k :: i <= k <= j ==> a[k] == old(a[k])
    {
      a[i], a[j] := a[j], a[i];
      i, j := i + 1, j - 1;
    }
  }

  // ORDER BY id DESC LIMIT limit, reversed before it is returned.
  method NewestFirstReversed(eligible: seq<Message>, limit: nat) returns (page: seq<Message>)
    ensures page == LastN(eligible, limit)
  {
    var n := Min(limit, |eligible|);
    var messages := new Message[n](i requires 0 <= i < n => eligible[|eligible| - 1 - i]);
    ReverseInPlace(messages);
    page := messages[..];
  }

  class MessageStore {
    var log: seq<Message>

    method GetMessagesAfter(room: nat, afterID: nat, limit: nat) returns (page: seq<Message>)
      ensures page == FirstN(Above(InRoom(log, room), afterID), limit)
    {
      page := FirstN(Above(InRoom(log, room), afterID), limit);
    }

    method GetMessagesBefore(room: nat, beforeID: nat, limit: nat) returns (page: seq<Message>)
      ensures page == LastN(Below(InRoom(log, room), beforeID), limit)
    {
      page := NewestFirstReversed(Below(InRoom(log, room), beforeID), limit);
    }

    method GetLatestMessages(room: nat, limit: nat) returns (page: seq<Message>)
      ensures page == LastN(InRoom(log, room), limit)
    {
      page := NewestFirstReversed(InRoom(log, room), limit);
    }

    // None answers a caller who is not a member of the room.
    method GetMessages(member: bool, room: nat, afterID: nat, beforeID: nat, rawLimit: int)
      returns (r: Option<seq<Message>>)
      ensures r == if member then Some(Page(log, room, afterID, beforeID, rawLimit)) else None
    {
      if !member {
        return None;
      }
      var limit := rawLimit;
      if limit <= 0 || limit > 100 {
        limit := 50;
      }
      var messages;
      if afterID > 0 {
        messages := GetMessagesAfter(room, afterID, limit);
      } else if beforeID > 0 {
        messages := GetMessagesBefore(room, beforeID, limit);
      } else {
        messages := GetLatestMessages(room, limit);
      }
      r := Some(messages);
    }
  }

  // ---------------------------------------------------------------- pages

  lemma {:induction false} FilterBasics(log: seq<Message>, id: nat)
    ensures forall m :: m in Above(log, id) <==> m in log && m.id > id
    ensures forall m :: m in Below(log, id) <==> m in log && m.id < id
    ensures Ascending(log) ==> Ascending(Above(log, id)) && Ascending(Below(log, id))
  {
    if log != [] {
      var before, last := log[..|log| - 1], log[|log| - 1];
      assert log == before + [last];
      FilterBasics(before, id);
      if Ascending(log) {
        assert Ascending(before);
        AscendingAppend(Above(before, id), last) by { LastIsGreatest(log, Above(before, id)); }
        AscendingAppend(Below(before, id), last) by { LastIsGreatest(log, Below(before, id)); }
      }
    }
  }

  lemma LastIsGreatest(log: seq<Message>, some: seq<Message>)
    requires log != [] && Ascending(log)
    requires forall m :: m in some ==> m in log[..|log| - 1]
    ensures log[|log| - 1].id >= 1
    ensures forall i :: 0 <= i < |some| ==> some[i].id < log[|log| - 1].id
  {
    forall i | 0 <= i < |some| ensures some[i].id < log[|log| - 1].id {
      assert some[i] in some;
    }
  }

  lemma AscendingAppend(log: seq<Message>, m: Message)
    requires Ascending(log) && m.id >= 1
    requires forall i :: 0 <= i < |log| ==> log[i].id < m.id
    ensures Ascending(log + [m])
  {
  }

  lemma {:induction false} RoomLog(log: seq<Message>, room: nat)
    ensures forall m :: m in InRoom(log, room) <==> m in log && m.room == room
    ensures Ascending(log) ==> Ascending(InRoom(log, room))
  {
    if log != [] {
      var before, last := log[..|log| - 1], log[|log| - 1];
      assert log == before + [last];
      RoomLog(before, room);
      if Ascending(log) {
        assert Ascending(before);
        LastIsGreatest(log, InRoom(before, room));
        AscendingAppend(InRoom(before, room), last);
      }
    }
  }

  function Eligible(log: seq<Message>, room: nat, beforeID: nat): seq<Message> {
    if beforeID > 0 then Below(InRoom(log, room), beforeID) else InRoom(log, room)
  }

  lemma EligibleLog(log: seq<Message>, room: nat, beforeID: nat)
    requires Ascending(log)
    ensures Ascending(Eligible(log, room, beforeID))
    ensures forall m :: m in Eligible(log, room, beforeID) <==>
      m in log && m.room == room && (beforeID > 0 ==> m.id < beforeID)
  {
    hide InRoom, Below, Ascending;
    RoomLog(log, room);
    FilterBasics(InRoom(log, room), beforeID);
  }

  lemma PageIsSuffix(log: seq<Message>, room: nat, beforeID: nat, limit: int)
    ensures var e := Eligible(log, room, beforeID);
      Page(log, room, 0, beforeID, limit) == e[|e| - Min(Clamp(limit), |e|)..]
  {
  }

  // A before or latest page holds, in ascending order, exactly the greatest eligible ids: as
  // many as the limit allows, and every eligible message outside it is older than all of it.
  lemma PageHoldsTheGreatest(log: seq<Message>, room: nat, beforeID: nat, limit: int)
    requires Ascending(log)
    ensures var page := Page(log, room, 0, beforeID, limit);
      && Ascending(page) && |page| == Min(Clamp(limit), |Eligible(log, room, beforeID)|)
      && (forall m :: m in page ==> m in log && m.room == room && (beforeID > 0 ==> m.id < beforeID))
      && (forall m, p :: m in log && m.room == room && (beforeID > 0 ==> m.id < beforeID) && m !in page && p in page ==>
        m.id < p.id)
  {
    EligibleLog(log, room, beforeID);
    hide Eligible, Ascending;
    var eligible := Eligible(log, room, beforeID);
    PageIsSuffix(log, room, beforeID, limit);
    SuffixIsGreatest(eligible, |eligible| - Min(Clamp(limit), |eligible|));
  }

  lemma SuffixIsGreatest(s: seq<Message>, k: nat)
    requires Ascending(s) && k <= |s|
    ensures Ascending(s[k..])
    ensures forall m, p :: m in s && m !in s[k..] && p in s[k..] ==> m.id < p.id
  {
    forall m, p | m in s && m !in s[k..] && p in s[k..]
      ensures m.id < p.id
    {
      assert s == s[..k] + s[k..] && m in s[..k];
      var i :| 0 <= i < k && s[i] == m;
      var j :| k <= j < |s| && s[j] == p;
    }
  }

  function Flatten(pages: seq<seq<Message>>): seq<Message> {
    if pages == [] then [] else Flatten(pages[..|pages| - 1]) + pages[|pages| - 1]
  }

  // One more entry at the end of the log.
  lemma FilterAppend(log: seq<Message>, m: Message, id: nat)
    ensures m.id < id ==> Below(log + [m], id) == Below(log, id) + [m]
    ensures m.id >= id ==> Below(log + [m], id) == Below(log, id)
    ensures m.id > id ==> Above(log + [m], id) == Above(log, id) + [m]
    ensures m.id <= id ==> Above(log + [m], id) == Above(log, id)
  {
    assert (log + [m])[..|log|] == log;
  }

  lemma {:induction false} BelowTwice(log: seq<Message>, a: nat, b: nat)
    requires a <= b
    ensures Below(Below(log, b), a) == Below(log, a)
  {
    if log != [] {
      var before, last := log[..|log| - 1], log[|log| - 1];
      BelowTwice(before, a, b);
      assert log == before + [last];
      hide *;
      FilterAppend(before, last, a);
      FilterAppend(before, last, b);
      FilterAppend(Below(before, b), last, a);
    }
  }

  lemma {:induction false} AboveTwice(log: seq<Message>, a: nat, b: nat)
    requires a <= b
    ensures Above(Above(log, a), b) == Above(log, b)
  {
    if log != [] {
      var before, last := log[..|log| - 1], log[|log| - 1];
      AboveTwice(before, a, b);
      assert log == before + [last];
      hide *;
      FilterAppend(before, last, a);
      FilterAppend(before, last, b);
      FilterAppend(Above(before, a), last, b);
    }
  }

  // In an ascending log, the ids below (above) an element are the ones before (after) it.
  lemma {:induction false} SplitAt(s: seq<Message>, k: nat)
    requires Ascending(s) && k < |s|
    ensures Below(s, s[k].id) == s[..k] && Above(s, s[k].id) == s[k + 1..]
  {
    var before, last := s[..|s| - 1], s[|s| - 1];
    if k == |s| - 1 {
      AllBelow(before, last.id);
      assert s[k + 1..] == [];
    } else {
      SplitAt(before, k);
      assert s[..k] == before[..k] && s[k + 1..] == before[k + 1..] + [last];
    }
  }

  lemma {:induction false} AllBelow(s: seq<Message>, id: nat)
    requires forall i :: 0 <= i < |s| ==> s[i].id < id
    ensures Below(s, id) == s && Above(s, id) == []
  {
    if s != [] {
      AllBelow(s[..|s| - 1], id);
    }
  }

  lemma EligibleBelow(log: seq<Message>, room: nat, beforeID: nat, id: nat)
    requires id > 0 && (beforeID > 0 ==> id <= beforeID)
    ensures Eligible(log, room, id) == Below(Eligible(log, room, beforeID), id)
  {
    hide InRoom, Below;
    BelowTwice(InRoom(log, room), id, if beforeID > 0 then beforeID else id);
  }

  // Cutting an ascending log before its k-th entry.
  lemma CutAt(eligible: seq<Message>, k: nat)
    requires Ascending(eligible) && k < |eligible|
    ensures eligible[k].id >= 1 && eligible == Below(eligible, eligible[k].id) + eligible[k..]
  {
    assert eligible[k].id >= 1;
    hide *;
    SplitAt(eligible, k);
    Halves(eligible, k);
  }

  lemma Halves(s: seq<Message>, k: nat)
    requires k <= |s|
    ensures s == s[..k] + s[k..]
  {
  }

  // What lies before a page's first id is what the page left out.
  lemma PageCutsEligible(log: seq<Message>, room: nat, beforeID: nat, limit: int)
    requires Ascending(log) && Page(log, room, 0, beforeID, limit) != []
    ensures var page := Page(log, room, 0, beforeID, limit);
      page[0].id > 0 && Eligible(log, room, beforeID) == Eligible(log, room, page[0].id) + page
  {
    var eligible, page := Eligible(log, room, beforeID), Page(log, room, 0, beforeID, limit);
    var k := |eligible| - Min(Clamp(limit), |eligible|);
    assert Ascending(eligible) && (beforeID > 0 ==> forall m | m in eligible :: m.id < beforeID) by {
      EligibleLog(log, room, beforeID);
    }
    assert page == eligible[k..] by { PageIsSuffix(log, room, beforeID, limit); }
    hide *;
    assert page[0] == eligible[k] && page[0] in eligible;
    CutAt(eligible, k);
    EligibleBelow(log, room, beforeID, eligible[k].id);
  }

  // Scrolling back: the latest page, then the page before its first id, and so on.
  ghost function PagesBack(log: seq<Message>, room: nat, beforeID: nat, limit: int): seq<seq<Message>>
    requires Ascending(log)
    decreases |Eligible(log, room, beforeID)|
  {
    var page := Page(log, room, 0, beforeID, limit);
    if page == [] then [] else
      PageCutsEligible(log, room, beforeID, limit);
      PagesBack(log, room, page[0].id, limit) + [page]
  }

  // Chaining before_id from each page's first id tiles the room's log: no gap, no repeat.
  lemma {:induction false} PagesTileTheLog(log: seq<Message>, room: nat, beforeID: nat, limit: int)
    requires Ascending(log)
    ensures Flatten(PagesBack(log, room, beforeID, limit)) == Eligible(log, room, beforeID)
    decreases |Eligible(log, room, beforeID)|
  {
    var page := Page(log, room, 0, beforeID, limit);
    if page == [] {
      assert Eligible(log, room, beforeID) == [];
    } else {
      PageCutsEligible(log, room, beforeID, limit);
      hide Eligible, Page;
      PagesTileTheLog(log, room, page[0].id, limit);
      var older := PagesBack(log, room, page[0].id, limit);
      assert (older + [page])[..|older|] == older;
    }
  }

  // ---------------------------------------------------------------- the client's cache

  // Cached rows belong to a server and an account; ids are unique only within that scope.
  datatype Scope = Scope(serverUrl: string, account: nat)

  type Table = map<(Scope, nat), Message>

  function Upserted(t: Table, scope: Scope, messages: seq<Message>): Table {
    if messages == [] then t else
      var last := messages[|messages| - 1];
      Upserted(t, scope, messages[..|messages| - 1])[(scope, last.id) := last]
  }

  ghost function Cached(t: Table, scope: Scope, room: nat): set<Message> {
    set k | k in t && k.0 == scope && t[k].room == room :: t[k]
  }

  ghost predicate IsLatest(t: Table, scope: Scope, room: nat, latest: Option<nat>) {
    match latest
    case None => Cached(t, scope, room) == {}
    case Some(id) =>
      (exists m :: m in Cached(t, scope, room) && m.id == id) && forall m :: m in Cached(t, scope, room) ==> m.id <= id
  }

  class MessagesDao {
    var table: Table

    method GetLatestMessageId(room: nat, scope: Scope) returns (latest: Option<nat>)
      ensures IsLatest(table, scope, room, latest)
    {
      latest := None;
      var rest := table.Keys;
      ghost var seen: set<Message> := {};
      while rest != {}
        invariant rest <= table.Keys
        invariant seen == set k | k in table && k !in rest && k.0 == scope && table[k].room == room :: table[k]
        invariant latest.None? ==> seen == {}
        invariant latest.Some? ==>
          (exists m :: m in seen && m.id == latest.value) && forall m :: m in seen ==> m.id <= latest.value
      {
        var k :| k in rest;
        if k.0 == scope && table[k].room == room {
          if latest.None? || latest.value < table[k].id {
            latest := Some(table[k].id);
          }
          seen := seen + {table[k]};
        }
        rest := rest - {k};
      }
      assert seen == Cached(table, scope, room);
    }

    method UpsertMessages(scope: Scope, entries: seq<Message>)
      modifies this
      ensures table == Upserted(old(table), scope, entries)
    {
      ghost var was := table;
      for i := 0 to |entries|
        invariant table == Upserted(was, scope, entries[..i])
      {
        assert entries[..i + 1][..i] == entries[..i];
        table := table[(scope, entries[i].id) := entries[i]];
      }
      assert entries[..|entries|] == entries;
    }
  }

  // What one sync adds to a cache whose newest id is `latest`, against a fixed room log.
  function Fetched(mine: seq<Message>, latest: Option<nat>, limit: int): seq<Message> {
    if latest.None? || latest.value == 0 then LastN(mine, Clamp(limit))
    else if limit <= 100 then Above(mine, latest.value)
    else FirstN(Above(mine, latest.value), Clamp(limit))
  }

  // A room log's last page leaves nothing above it.
  lemma NothingAboveLast(mine: seq<Message>, n: nat)
    requires Ascending(mine) && mine != [] && n >= 1
    ensures LastN(mine, n) != [] && LastN(mine, n)[|LastN(mine, n)| - 1] == mine[|mine| - 1]
    ensures Above(mine, mine[|mine| - 1].id) == []
  {
    SplitAt(mine, |mine| - 1);
  }

  lemma NextPage(mine: seq<Message>, after: nat, n: nat)
    requires Ascending(mine) && 1 <= n <= |Above(mine, after)|
    ensures var up := Above(mine, after);
      up[n - 1].id > after && Above(mine, up[n - 1].id) == up[n..]
  {
    hide Above, Below, Ascending;
    var up := Above(mine, after);
    FilterBasics(mine, after);
    assert up[n - 1] in up;
    AboveTwice(mine, after, up[n - 1].id);
    SplitAt(up, n - 1);
  }

  lemma {:induction false} UpsertTwice(t: Table, scope: Scope, a: seq<Message>, b: seq<Message>)
    ensures Upserted(Upserted(t, scope, a), scope, b) == Upserted(t, scope, a + b)
  {
    if b == [] {
      assert a + b == a;
    } else {
      UpsertTwice(t, scope, a, b[..|b| - 1]);
      assert (a + b)[..|a + b| - 1] == a + b[..|b| - 1];
    }
  }

  // Where the loop stands: everything fetched so far, and what is still above the cursor.
  ghost predicate Progress(mine: seq<Message>, start: Option<nat>, limit: int,
                           fetched: seq<Message>, after: Option<nat>) {
    if fetched == [] then after == start else
      && limit <= 100 && after.Some? && after.value >= 1
      && fetched + Above(mine, after.value) == Fetched(mine, start, limit)
  }

  // One round of the loop: an empty page is not written.
  method SyncPage(store: MessageStore, dao: MessagesDao, room: nat, scope: Scope, limit: int, afterId: Option<nat>,
                  ghost was: Table, ghost start: Option<nat>, ghost fetched: seq<Message>)
    returns (list: seq<Message>)
    requires Ascending(InRoom(store.log, room))
    requires dao.table == Upserted(was, scope, fetched) &&
      Progress(InRoom(store.log, room), start, limit, fetched, afterId)
    modifies dao
    ensures dao.table == Upserted(was, scope, fetched + list)
    ensures list == [] || |list| < limit ==> fetched + list == Fetched(InRoom(store.log, room), start, limit)
    ensures list != [] && |list| >= limit ==>
      var mine, last := InRoom(store.log, room), Some(list[|list| - 1].id);
      Progress(mine, start, limit, fetched + list, last) &&
        Measure(mine, fetched + list, last) < Measure(mine, fetched, afterId)
  {
    hide *;
    var data := store.GetMessages(true, room, if afterId.None? then 0 else afterId.value, 0, limit);
    list := data.value;
    PageIsNextList(store.log, room, limit, afterId);
    if |list| == 0 {
      EmptyPage(InRoom(store.log, room), start, limit, fetched, afterId);
      assert fetched + list == fetched;
      return;
    }
    dao.UpsertMessages(scope, list);
    UpsertTwice(was, scope, fetched, list);
    PageAdvances(InRoom(store.log, room), start, limit, fetched, afterId);
  }

  // syncLatest ends and leaves the cache with exactly what Fetched adds.
  method SyncLatest(store: MessageStore, dao: MessagesDao, room: nat, scope: Scope, limit: int)
    returns (ghost start: Option<nat>)
    requires Ascending(store.log)
    modifies dao
    ensures IsLatest(old(dao.table), scope, room, start)
    ensures dao.table == Upserted(old(dao.table), scope, Fetched(InRoom(store.log, room), start, limit))
  {
    ghost var was := dao.table;
    RoomLog(store.log, room);
    var afterId := dao.GetLatestMessageId(room, scope);
    start := afterId;
    ghost var fetched: seq<Message> := [];
    assert Upserted(was, scope, []) == was && Progress(InRoom(store.log, room), start, limit, [], start);
    hide *;
    while true
      invariant dao.table == Upserted(was, scope, fetched)
      invariant Progress(InRoom(store.log, room), start, limit, fetched, afterId)
      decreases Measure(InRoom(store.log, room), fetched, afterId)
    {
      var list := SyncPage(store, dao, room, scope, limit, afterId, was, start, fetched);
      fetched := fetched + list;
      if |list| == 0 || |list| < limit {
        break;
      }
      afterId := Some(list[|list| - 1].id);
    }
  }

  ghost function Measure(mine: seq<Message>, fetched: seq<Message>, after: Option<nat>): nat {
    if fetched == [] || after.None? then |mine| + 1 else |Above(mine, after.value)|
  }

  lemma PageIsNextList(log: seq<Message>, room: nat, limit: int, after: Option<nat>)
    ensures Page(log, room, if after.None? then 0 else after.value, 0, limit) ==
      NextList(InRoom(log, room), limit, after)
  {
  }

  ghost function NextList(mine: seq<Message>, limit: int, after: Option<nat>): seq<Message> {
    if after.Some? && after.value > 0 then FirstN(Above(mine, after.value), Clamp(limit)) else LastN(mine, Clamp(limit))
  }

  lemma EmptyPage(mine: seq<Message>, start: Option<nat>, limit: int, fetched: seq<Message>, after: Option<nat>)
    requires Progress(mine, start, limit, fetched, after) && NextList(mine, limit, after) == []
    ensures fetched == Fetched(mine, start, limit)
  {
  }

  lemma LatestPageAdvances(mine: seq<Message>, limit: int, start: Option<nat>)
    requires Ascending(mine) && mine != [] && (start.None? || start.value == 0)
    ensures var list := LastN(mine, Clamp(limit));
      && list != [] && list[|list| - 1].id >= 1
      && Above(mine, list[|list| - 1].id) == []
      && list == Fetched(mine, start, limit)
      && (|list| >= limit ==> limit <= 100)
  {
    NothingAboveLast(mine, Clamp(limit));
    assert mine[|mine| - 1].id >= 1;
  }

  lemma PageAbove(mine: seq<Message>, limit: int, after: nat)
    requires Ascending(mine) && after >= 1 && Above(mine, after) != []
    ensures var up, list := Above(mine, after), FirstN(Above(mine, after), Clamp(limit));
      && list != [] && list[|list| - 1].id > after
      && list + Above(mine, list[|list| - 1].id) == up
      && (|list| < limit <= 100 ==> list == up)
      && (|list| >= limit ==> limit <= 100)
      && |Above(mine, list[|list| - 1].id)| < |up|
  {
    hide Above, Ascending;
    var up := Above(mine, after);
    var n := Min(Clamp(limit), |up|);
    NextPage(mine, after, n);
    assert up[..n] + up[n..] == up;
  }

  // The first page moves the cursor up and completes a short fetch.
  ghost predicate FirstAdvances(mine: seq<Message>, start: Option<nat>, limit: int, list: seq<Message>) {
    && list != [] && list[|list| - 1].id >= 1
    && (|list| < limit ==> list == Fetched(mine, start, limit))
    && (|list| >= limit ==> limit <= 100 && list + Above(mine, list[|list| - 1].id) == Fetched(mine, start, limit))
    && |Above(mine, list[|list| - 1].id)| < |mine| + 1
  }

  lemma FirstPageAbove(mine: seq<Message>, start: nat, limit: int)
    requires Ascending(mine) && start > 0 && Above(mine, start) != []
    ensures FirstAdvances(mine, Some(start), limit, FirstN(Above(mine, start), Clamp(limit)))
  {
    PageAbove(mine, limit, start);
    assert |Above(mine, start)| <= |mine|;
    hide Above, Ascending;
  }

  lemma FirstPageLatest(mine: seq<Message>, start: Option<nat>, limit: int)
    requires Ascending(mine) && mine != [] && (start.None? || start.value == 0)
    ensures FirstAdvances(mine, start, limit, LastN(mine, Clamp(limit)))
  {
    LatestPageAdvances(mine, limit, start);
    hide Above, LastN, Fetched, Ascending;
    var list := LastN(mine, Clamp(limit));
    assert list + [] == list;
  }

  lemma FirstPageAdvances(mine: seq<Message>, start: Option<nat>, limit: int)
    requires Ascending(mine) && NextList(mine, limit, start) != []
    ensures FirstAdvances(mine, start, limit, NextList(mine, limit, start))
  {
    hide Ascending, Above, Fetched, FirstAdvances;
    if start.Some? && start.value > 0 {
      FirstPageAbove(mine, start.value, limit);
    } else {
      FirstPageLatest(mine, start, limit);
    }
  }

  lemma LaterPageAdvances(mine: seq<Message>, start: Option<nat>, limit: int, fetched: seq<Message>, after: nat)
    requires Ascending(mine) && fetched != [] && Progress(mine, start, limit, fetched, Some(after))
    requires NextList(mine, limit, Some(after)) != []
    ensures var list := NextList(mine, limit, Some(after));
      && list[|list| - 1].id >= 1
      && (|list| < limit ==> fetched + list == Fetched(mine, start, limit))
      && (fetched + list) + Above(mine, list[|list| - 1].id) == Fetched(mine, start, limit)
      && |Above(mine, list[|list| - 1].id)| < |Above(mine, after)|
  {
    var up, list := Above(mine, after), FirstN(Above(mine, after), Clamp(limit));
    assert after >= 1 && limit <= 100 && fetched + up == Fetched(mine, start, limit);
    assert NextList(mine, limit, Some(after)) == list && up != [];
    hide *;
    PageAbove(mine, limit, after);
    Regroup(fetched, list, Above(mine, list[|list| - 1].id));
  }

  lemma Regroup(a: seq<Message>, b: seq<Message>, c: seq<Message>)
    ensures a + (b + c) == (a + b) + c
  {
  }

  // A page that ends the loop completes the fetch; a full one moves the cursor up.
  lemma PageAdvances(mine: seq<Message>, start: Option<nat>, limit: int, fetched: seq<Message>, after: Option<nat>)
    requires Ascending(mine) && Progress(mine, start, limit, fetched, after) && NextList(mine, limit, after) != []
    ensures var list := NextList(mine, limit, after);
      var last := Some(list[|list| - 1].id);
      && (|list| < limit ==> fetched + list == Fetched(mine, start, limit))
      && (|list| >= limit ==> Progress(mine, start, limit, fetched + list, last))
      && (|list| >= limit ==> Measure(mine, fetched + list, last) < Measure(mine, fetched, after))
  {
    hide Above, NextList, Fetched, Ascending;
    var list := NextList(mine, limit, after);
    if fetched == [] {
      FirstPageAdvances(mine, start, limit);
      assert fetched + list == list;
    } else {
      LaterPageAdvances(mine, start, limit, fetched, after.value);
      assert fetched + list != [];
    }
  }

  // ---------------------------------------------------------------- what a sync achieves

  // Every cached row of the scope is the server's message of that id.
  ghost predicate Agrees(t: Table, scope: Scope, log: seq<Message>) {
    forall k :: k in t && k.0 == scope ==> t[k].id == k.1 && t[k] in log
  }

  lemma {:induction false} UpsertedRows(t: Table, scope: Scope, f: seq<Message>, k: (Scope, nat))
    ensures k in Upserted(t, scope, f) <==> k in t || (k.0 == scope && exists m :: m in f && m.id == k.1)
    ensures k in Upserted(t, scope, f) ==>
      (Upserted(t, scope, f)[k] in f && k.0 == scope && Upserted(t, scope, f)[k].id == k.1) ||
        (k in t && Upserted(t, scope, f)[k] == t[k])
  {
    if f != [] {
      UpsertedRows(t, scope, f[..|f| - 1], k);
      assert f == f[..|f| - 1] + [f[|f| - 1]];
    }
  }

  lemma UniqueById(log: seq<Message>, a: Message, b: Message)
    requires Ascending(log) && a in log && b in log && a.id == b.id
    ensures a == b
  {
    var i :| 0 <= i < |log| && log[i] == a;
    var j :| 0 <= j < |log| && log[j] == b;
    assert !(i < j) && !(j < i);
  }

  function Elements(s: seq<Message>): set<Message> {
    set m | m in s
  }

  // Upserting messages of one room adds exactly those rows, keeps the cache in agreement with
  // the server, and touches no other room, server or account.
  lemma UpsertAdds(t: Table, scope: Scope, log: seq<Message>, room: nat, f: seq<Message>)
    requires Ascending(log) && Agrees(t, scope, log)
    requires forall m :: m in f ==> m in log && m.room == room
    ensures Agrees(Upserted(t, scope, f), scope, log)
    ensures Cached(Upserted(t, scope, f), scope, room) == Cached(t, scope, room) + Elements(f)
    ensures forall other: Scope, r: nat :: (other != scope || r != room) ==>
      Cached(Upserted(t, scope, f), other, r) == Cached(t, other, r)
  {
    var u := Upserted(t, scope, f);
    forall k ensures k in t ==> k in u && u[k] == t[k] {
      UpsertedRows(t, scope, f, k);
      if k in t && u[k] in f && k.0 == scope && u[k].id == k.1 {
        UniqueById(log, u[k], t[k]);
      }
    }
    forall k ensures k in u && k !in t ==> k.0 == scope && u[k] in f && u[k].id == k.1 {
      UpsertedRows(t, scope, f, k);
    }
    forall m | m in f ensures (scope, m.id) in u && u[(scope, m.id)] == m {
      UpsertedRows(t, scope, f, (scope, m.id));
      UniqueById(log, u[(scope, m.id)], m);
    }
    hide Upserted;
    forall other: Scope, r: nat | other != scope || r != room
      ensures Cached(u, other, r) == Cached(t, other, r)
    {
    }
    assert Cached(u, scope, room) == Cached(t, scope, room) + Elements(f) by {
      forall m | m in f ensures m in Cached(u, scope, room) { assert (scope, m.id) in u && u[(scope, m.id)] == m; }
    }
  }

  lemma FetchedInLog(log: seq<Message>, room: nat, start: Option<nat>, limit: int)
    ensures forall m :: m in Fetched(InRoom(log, room), start, limit) ==> m in log && m.room == room
  {
    RoomLog(log, room);
    if start.Some? { FilterBasics(InRoom(log, room), start.value); }
  }

  // The cache gains every message newer than its maximum exactly when the page size is one the
  // server accepts, or there are too few new messages to notice; an empty cache gains the
  // latest page; rows of other rooms, servers and accounts stay.
  lemma SyncCompleteness(log: seq<Message>, t: Table, scope: Scope, room: nat, limit: int, start: Option<nat>)
    requires Ascending(log) && Agrees(t, scope, log) && IsLatest(t, scope, room, start)
    ensures var mine := InRoom(log, room);
      var after := Upserted(t, scope, Fetched(mine, start, limit));
      && Agrees(after, scope, log)
      && (forall other: Scope, r: nat :: (other != scope || r != room) ==>
        Cached(after, other, r) == Cached(t, other, r))
      && (start.None? ==> Cached(after, scope, room) == Elements(LastN(mine, Clamp(limit))))
      && (start.Some? ==>
            (Cached(after, scope, room) == Cached(t, scope, room) + Elements(Above(mine, start.value))
             <==> limit <= 100 || |Above(mine, start.value)| <= 50))
  {
    var mine := InRoom(log, room);
    var f := Fetched(mine, start, limit);
    FetchedInLog(log, room, start, limit);
    UpsertAdds(t, scope, log, room, f);
    if start.Some? {
      CachedIds(t, scope, room, log, start.value);
      RoomLog(log, room);
      FilterBasics(mine, start.value);
      hide Upserted, InRoom, Cached, Agrees, Above, Ascending, IsLatest;
      PartialFetch(mine, Cached(t, scope, room), start.value, limit);
    }
  }

  lemma CachedIds(t: Table, scope: Scope, room: nat, log: seq<Message>, latest: nat)
    requires Ascending(log) && Agrees(t, scope, log) && IsLatest(t, scope, room, Some(latest))
    ensures latest >= 1
    ensures forall m :: m in Cached(t, scope, room) ==> m in log && m.room == room && m.id <= latest
    ensures exists m :: m in Cached(t, scope, room) && m.id == latest
  {
    var m :| m in Cached(t, scope, room) && m.id == latest;
    assert m in log;
  }

  lemma PartialFetch(mine: seq<Message>, cached: set<Message>, latest: nat, limit: int)
    requires Ascending(mine) && Ascending(Above(mine, latest)) && latest >= 1
    requires forall m :: m in Above(mine, latest) ==> m.id > latest
    requires forall m :: m in cached ==> m.id <= latest
    ensures cached + Elements(Fetched(mine, Some(latest), limit)) == cached + Elements(Above(mine, latest))
      <==> limit <= 100 || |Above(mine, latest)| <= 50
  {
    hide Above;
    var up := Above(mine, latest);
    if limit > 100 {
      if |up| <= 50 {
        assert FirstN(up, 50) == up;
      } else {
        var m := up[50];
        assert m in Elements(up) && m !in cached;
        assert m !in FirstN(up, 50);
      }
    }
  }

  // No message is missing between two cached ones.
  ghost predicate Contiguous(c: set<Message>, mine: seq<Message>) {
    forall a, b, m :: a in c && b in c && m in mine && a.id <= m.id <= b.id ==> m in c
  }

  // No message at or after a cached one is missing.
  ghost predicate CachedSuffix(c: set<Message>, mine: seq<Message>) {
    forall a, m :: a in c && m in mine && a.id <= m.id ==> m in c
  }

  // A sync turns the cache into a suffix of the room's log exactly when the cache had no gap
  // before, since messages missed below its maximum are never asked for, and nothing newer was
  // left behind.
  lemma SyncFillsSuffix(log: seq<Message>, t: Table, scope: Scope, room: nat, limit: int, start: Option<nat>)
    requires Ascending(log) && Agrees(t, scope, log) && IsLatest(t, scope, room, start)
    ensures var mine := InRoom(log, room);
      CachedSuffix(Cached(Upserted(t, scope, Fetched(mine, start, limit)), scope, room), mine)
      <==>
        Contiguous(Cached(t, scope, room), mine) &&
        (start.Some? ==> limit <= 100 || |Above(mine, start.value)| <= 50)
  {
    var mine := InRoom(log, room);
    RoomLog(log, room);
    SyncCompleteness(log, t, scope, room, limit, start);
    if start.Some? {
      CachedIds(t, scope, room, log, start.value);
      FilterBasics(mine, start.value);
      if limit <= 100 || |Above(mine, start.value)| <= 50 {
        hide Upserted, InRoom, Cached, Agrees, Above, Ascending, IsLatest, Fetched;
        SuffixIffContiguous(Cached(t, scope, room), mine, start.value);
      } else {
        FetchedInLog(log, room, start, limit);
        UpsertAdds(t, scope, log, room, Fetched(mine, start, limit));
        hide Upserted, InRoom, Cached, Agrees, Above, IsLatest;
        LeftBehind(mine, Cached(t, scope, room), start.value, limit);
      }
    } else {
      hide Upserted, InRoom, Agrees, Fetched;
      var k := |mine| - Min(Clamp(limit), |mine|);
      SuffixIsGreatest(mine, k);
      assert Cached(t, scope, room) == {};
    }
  }

  lemma LeftBehind(mine: seq<Message>, cached: set<Message>, latest: nat, limit: int)
    requires Ascending(Above(mine, latest)) && latest >= 1 && limit > 100 && |Above(mine, latest)| > 50
    requires forall m :: m in Above(mine, latest) ==> m in mine && m.id > latest
    requires forall m :: m in cached ==> m.id <= latest
    ensures !CachedSuffix(cached + Elements(Fetched(mine, Some(latest), limit)), mine)
  {
    hide Above;
    var up := Above(mine, latest);
    assert up[0] in FirstN(up, 50) && up[50] !in FirstN(up, 50) && up[50] in up;
    assert up[0].id <= up[50].id && up[50] !in cached;
  }

  lemma SuffixIffContiguous(c: set<Message>, mine: seq<Message>, latest: nat)
    requires forall m :: m in c ==> m.id <= latest
    requires exists m :: m in c && m.id == latest
    requires forall m :: m in Above(mine, latest) <==> m in mine && m.id > latest
    ensures CachedSuffix(c + Elements(Above(mine, latest)), mine) <==> Contiguous(c, mine)
  {
    hide Above;
    var all := c + Elements(Above(mine, latest));
    var top :| top in c && top.id == latest;
    if Contiguous(c, mine) {
      forall a, m | a in all && m in mine && a.id <= m.id ensures m in all {
        if m.id <= latest {
          assert a in c && a.id <= m.id <= top.id;
        }
      }
    }
    if CachedSuffix(all, mine) {
      forall a, b, m | a in c && b in c && m in mine && a.id <= m.id <= b.id ensures m in c {
        assert a in all && m in all;
      }
    }
  }
}
