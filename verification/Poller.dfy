/** Change discovery by polling (src/engine/syncPoller.ts): cursors, windows and pages, with edits
    landing at any moment. */
module Poller {
  import opened Canonical
  import opened Connector
  import EventStore

  type Condition = Native -> bool

  /** Which record stream is polled, and how its events are named. */
  datatype Stream = Stream(system: SystemId, objectType: string, isoText: Time -> string, sha: string -> string, condition: Condition)

  /** One version of one record: what a poll event stands for. */
  datatype Version = Version(id: Id, modifiedAt: Time)

  function PollEvent(s: Stream, v: Version): EventStore.Event {
    EventStore.Event(s.system, s.objectType, v.id, EventStore.Updated, s.isoText(v.modifiedAt),
      Some("poll:" + EventStore.SystemName(s.system) + ":" + s.objectType + ":" + v.id + ":" + s.isoText(v.modifiedAt)))
  }

  /** The event says that this very version of the record was written. */
  predicate Tells(s: Stream, v: Version, e: EventStore.Event) {
    && e.system == s.system && e.objectType == s.objectType && e.sourceId == v.id
    && e.change == EventStore.Updated && e.occurredAt == s.isoText(v.modifiedAt)
  }

  /** The queue has a job whose event says so. */
  predicate HasJob(s: Stream, store: EventStore.Store, v: Version) {
    exists id :: id in store.jobs && Tells(s, v, store.jobs[id].event)
  }

  /** What the queue knows the event of a version by. */
  function NameOf(s: Stream, v: Version): string { EventStore.Identity(s.sha, PollEvent(s, v)) }

  /** The queue is in order, and under the name of a version it holds an event that tells of it. */
  ghost predicate Truthful(s: Stream, store: EventStore.Store) {
    EventStore.Valid(store) && forall v :: NameOf(s, v) in store.index ==> Tells(s, v, store.jobs[store.index[NameOf(s, v)]].event)
  }

  /** Time stamps are written with equally many characters, as ISO texts are. */
  ghost predicate EvenTexts(s: Stream) { forall t, u :: |s.isoText(t)| == |s.isoText(u)| }

  /** A poll under way: its window, when it began, the next page (none once the last has been
      read) and the versions collected so far. */
  datatype Phase = Idle | Polling(since: Time, startedAt: Time, next: Option<nat>, found: seq<Version>)

  datatype PollState = PollState(crm: Crm, clock: Time, cursor: Option<Time>, first: Option<Time>, phase: Phase, store: EventStore.Store)

  /** Writes to the polled system, the passing of time, and the poll's own steps. A poll may fail
      at any point, also between enqueueing its events and committing its cursor. */
  datatype PollStep =
    | Put(id: Id, values: Fields)
    | Drop(id: Id)
    | Tick(to: Time)
    | Start(lookback: nat)
    | ReadPage
    | Commit(supply: seq<EventStore.Fresh>)
    | Fail(enqueued: Option<seq<EventStore.Fresh>>)
    | QueueMoves(after: EventStore.Store)

  function Versions(crm: Crm, ids: seq<Id>): (r: seq<Version>)
    requires forall id :: id in ids ==> id in crm.records
    ensures |r| == |ids| && forall i :: 0 <= i < |ids| ==> r[i] == Version(ids[i], crm.records[ids[i]].modifiedAt)
  {
    seq(|ids|, i requires 0 <= i < |ids| && ids[i] in crm.records => Version(ids[i], crm.records[ids[i]].modifiedAt))
  }

  lemma VersionsAppend(crm: Crm, a: seq<Id>, b: seq<Id>)
    requires (forall id :: id in a ==> id in crm.records) && (forall id :: id in b ==> id in crm.records)
    ensures (forall id :: id in a + b ==> id in crm.records) && Versions(crm, a + b) == Versions(crm, a) + Versions(crm, b)
  {
  }

  function EventsOf(s: Stream, found: seq<Version>): seq<EventStore.Event> {
    seq(|found|, i requires 0 <= i < |found| => PollEvent(s, found[i]))
  }

  function PutIn(crm: Crm, id: Id, values: Fields, at: Time): Crm {
    crm.(order := if id in crm.records then crm.order else crm.order + [id],
         records := crm.records[id := Native(values, at)])
  }

  function PageOf(s: Stream, crm: Crm, since: Time, start: nat): seq<Id> {
    PageIds(Listing(crm, Some(since), s.condition), start)
  }

  function EnqueueFound(s: Stream, store: EventStore.Store, found: seq<Version>, supply: seq<EventStore.Fresh>): EventStore.Store {
    if |supply| == |found| then EventStore.EnqueueAll(s.sha, store, EventsOf(s, found), supply) else store
  }

  function PollNext(s: Stream, st: PollState, step: PollStep): PollState {
    match step
    case Put(id, values) => st.(crm := PutIn(st.crm, id, values, st.clock))
    case Drop(id) => st.(crm := Remove(st.crm, id))
    case Tick(to) => if to >= st.clock then st.(clock := to) else st
    case Start(lookback) =>
      if st.phase.Polling? then st
      else
        var since := if st.cursor.Some? then st.cursor.value else st.clock - lookback * 86_400_000;
        st.(phase := Polling(since, st.clock, Some(0), []))
    case ReadPage =>
      if st.phase.Polling? && st.phase.next.Some? then
        var ids := PageOf(s, st.crm, st.phase.since, st.phase.next.value);
        var all := Listing(st.crm, Some(st.phase.since), s.condition);
        st.(phase := st.phase.(next := NextCursor(all, st.phase.next.value),
                               found := st.phase.found + Versions(st.crm, ids)))
      else st
    case Commit(supply) =>
      if st.phase.Polling? && st.phase.next == None then
        st.(store := EnqueueFound(s, st.store, st.phase.found, supply),
            cursor := Some(st.phase.startedAt),
            first := if st.first.Some? then st.first else Some(st.phase.since),
            phase := Idle)
      else st
    case Fail(enqueued) =>
      if st.phase.Polling? then
        st.(phase := Idle,
            store := if enqueued.Some? && st.phase.next == None
                     then EnqueueFound(s, st.store, st.phase.found, enqueued.value) else st.store)
      else st
    case QueueMoves(after) => st.(store := after)
  }

  // ----- which runs are studied -----

  /** The times a poll that began at `t` answers for: those before `t` and, if `closed`, `t` too. */
  function Until(closed: bool, t: Time): Time { if closed then t + 1 else t }

  /** The listing a poll is going through. */
  function Ahead(s: Stream, st: PollState): (all: seq<Id>)
    requires st.phase.Polling?
    ensures forall i :: 0 <= i < |all| ==> all[i] in st.crm.records
  {
    var all := Listing(st.crm, Some(st.phase.since), s.condition);
    assert forall i :: 0 <= i < |all| ==> all[i] in all;
    all
  }

  /** No record on a page that has been read leaves the listing. */
  ghost predicate ReadStay(s: Stream, all: seq<Id>, n: nat, since: Time, after: Crm) {
    forall i :: 0 <= i < n && i < |all| ==> Listed(after, Some(since), s.condition, all[i])
  }

  /** The first record of the next page still has to be read by this poll. */
  predicate Waits(s: Stream, st: PollState, closed: bool)
    requires st.phase.Polling? && st.phase.next.Some?
  {
    var all, n := Ahead(s, st), st.phase.next.value;
    && n < |all| && st.crm.records[all[n]].modifiedAt < Until(closed, st.phase.startedAt)
    && Version(all[n], st.crm.records[all[n]].modifiedAt) !in st.phase.found
  }

  /** While pages are left to read, none that has been read loses a record, or nothing waits to be
      read in the place that would be skipped. */
  ghost predicate SafeMove(s: Stream, st: PollState, after: Crm, closed: bool) {
    st.phase.Polling? && st.phase.next.Some? ==>
      ReadStay(s, Ahead(s, st), st.phase.next.value, st.phase.since, after) || !Waits(s, st, closed)
  }

  /** In the instant in which the poll under way began: the record just written need not be read, has
      been read in this very version, or is on a page still to come. */
  ghost predicate StillRead(s: Stream, st: PollState, after: Crm, id: Id)
    requires st.phase.Polling? && id in after.records
  {
    || !s.condition(after.records[id])
    || Version(id, after.records[id].modifiedAt) in st.phase.found
    || (st.phase.next.Some? && OnPageFrom(Listing(after, Some(st.phase.since), s.condition), st.phase.next.value, id))
  }

  /** In the instant of the cursor: the version just written need not have a job, or has one. */
  predicate StillCovered(s: Stream, st: PollState, after: Crm, id: Id)
    requires id in after.records
  {
    !s.condition(after.records[id]) || HasJob(s, st.store, Version(id, after.records[id].modifiedAt))
  }

  /** A write in an instant in which a poll began leaves nothing to the next poll. */
  ghost predicate TimelyPut(s: Stream, st: PollState, after: Crm, id: Id)
    requires id in after.records
  {
    && (st.phase.Polling? && st.clock == st.phase.startedAt ==> StillRead(s, st, after, id))
    && (st.cursor.Some? && st.clock == st.cursor.value ==> StillCovered(s, st, after, id))
  }

  ghost predicate PollLegal(s: Stream, st: PollState, step: PollStep, closed: bool) {
    match step
    case Put(id, _) =>
      SafeMove(s, st, PollNext(s, st, step).crm, closed) && (closed ==> TimelyPut(s, st, PollNext(s, st, step).crm, id))
    case Drop(_) => SafeMove(s, st, PollNext(s, st, step).crm, closed)
    case Commit(supply) => st.phase.Polling? ==> |supply| == |st.phase.found| && EventStore.Unused(st.store, supply)
    case Fail(enqueued) => st.phase.Polling? && enqueued.Some? ==> EventStore.Unused(st.store, enqueued.value)
    case QueueMoves(after) => EventStore.KeepsEvents(st.store, after) && Truthful(s, after)
    case _ => true
  }

  function PollRun(s: Stream, st: PollState, steps: seq<PollStep>): PollState
    decreases |steps|
  {
    if steps == [] then st else PollRun(s, PollNext(s, st, steps[0]), steps[1..])
  }

  ghost predicate PollLegalRun(s: Stream, st: PollState, steps: seq<PollStep>, closed: bool)
    decreases |steps|
  {
    steps == [] || (PollLegal(s, st, steps[0], closed) && PollLegalRun(s, PollNext(s, st, steps[0]), steps[1..], closed))
  }

  // ----- coverage -----

  /** Every version in a window of time of a record that meets the condition has a job. */
  ghost predicate Covered(s: Stream, crm: Crm, store: EventStore.Store, from: Time, to: Time) {
    forall id :: id in crm.records && s.condition(crm.records[id]) && from <= crm.records[id].modifiedAt < to ==>
      HasJob(s, store, Version(id, crm.records[id].modifiedAt))
  }

  /** The record's version has been read, or the record is on a page still to come. */
  ghost predicate Collected(s: Stream, crm: Crm, phase: Phase, id: Id, closed: bool)
    requires phase.Polling?
  {
    Listed(crm, Some(phase.since), s.condition, id) && crm.records[id].modifiedAt < Until(closed, phase.startedAt) ==>
      || Version(id, crm.records[id].modifiedAt) in phase.found
      || (phase.next.Some? && OnPageFrom(Listing(crm, Some(phase.since), s.condition), phase.next.value, id))
  }

  predicate OnPageFrom(all: seq<Id>, start: nat, id: Id) {
    exists i :: start <= i < |all| && all[i] == id
  }

  /** What every reachable state keeps: time stamps do not run ahead of the clock, the committed
      window is covered, and a poll under way has not passed over anything. */
  ghost predicate PollInv(s: Stream, st: PollState, closed: bool) {
    && WellFormed(st.crm) && Truthful(s, st.store)
    && (forall id :: id in st.crm.records ==> st.crm.records[id].modifiedAt <= st.clock)
    && (st.cursor.Some? <==> st.first.Some?)
    && (st.cursor.Some? ==>
          st.first.value <= st.cursor.value <= st.clock && Covered(s, st.crm, st.store, st.first.value, Until(closed, st.cursor.value)))
    && (st.phase.Polling? ==>
          && st.phase.since <= st.phase.startedAt <= st.clock
          && (st.cursor.Some? ==> st.phase.since == st.cursor.value)
          && AllCollected(s, st.crm, st.phase, closed))
  }

  ghost predicate AllCollected(s: Stream, crm: Crm, phase: Phase, closed: bool)
    requires phase.Polling?
  {
    forall id :: id in crm.records ==> Collected(s, crm, phase, id, closed)
  }

  // ----- paging facts -----

  /** If none of the first `n` listed records leaves, no later one moves before place `n`. */
  lemma {:induction false} StaysAhead(a: Crm, b: Crm, since: Option<Time>, c: Condition, order: seq<Id>, n: nat, id: Id)
    requires forall i :: 0 <= i < n && i < |Filter(a, since, c, order)| ==> Listed(b, since, c, Filter(a, since, c, order)[i])
    ensures Min(n, |Filter(a, since, c, order)|) <= |Filter(b, since, c, order)|
    ensures OnPageFrom(Filter(a, since, c, order), n, id) && Listed(b, since, c, id) ==> OnPageFrom(Filter(b, since, c, order), n, id)
  {
    if order != [] {
      var k := |order| - 1;
      var fa, fb := Filter(a, since, c, order[..k]), Filter(b, since, c, order[..k]);
      assert fa <= Filter(a, since, c, order) && fb <= Filter(b, since, c, order);
      forall i | 0 <= i < n && i < |fa| ensures Listed(b, since, c, fa[i]) {
        assert fa[i] == Filter(a, since, c, order)[i];
      }
      StaysAhead(a, b, since, c, order[..k], n, id);
      if OnPageFrom(Filter(a, since, c, order), n, id) && Listed(b, since, c, id) {
        LastOrBefore(fa, fb, Filter(a, since, c, order), Filter(b, since, c, order), order[k], n, id);
      }
    }
  }

  lemma LastOrBefore(fa: seq<Id>, fb: seq<Id>, ga: seq<Id>, gb: seq<Id>, last: Id, n: nat, id: Id)
    requires (ga == fa || ga == fa + [last]) && fb <= gb && OnPageFrom(ga, n, id) && Min(n, |fa|) <= |fb|
    requires OnPageFrom(fa, n, id) ==> OnPageFrom(fb, n, id)
    requires id == last ==> gb == fb + [last]
    ensures OnPageFrom(gb, n, id)
  {
    var i :| n <= i < |ga| && ga[i] == id;
    if i < |fa| {
      assert fa[i] == id;
      StillOnPage(fb, gb, n, id);
    } else {
      assert gb[|fb|] == id;
    }
  }

  lemma StillOnPage(all: seq<Id>, longer: seq<Id>, start: nat, id: Id)
    requires OnPageFrom(all, start, id) && all <= longer
    ensures OnPageFrom(longer, start, id)
  {
    var i :| start <= i < |all| && all[i] == id;
    assert longer[i] == id;
  }

  /** Taking away a record that is not listed leaves the listing as it is. */
  lemma {:induction false} UnlistedGone(a: Crm, b: Crm, since: Option<Time>, c: Condition, order: seq<Id>, gone: Id)
    requires forall x :: x != gone ==> (Listed(a, since, c, x) <==> Listed(b, since, c, x))
    requires !Listed(a, since, c, gone)
    ensures Filter(b, since, c, Without(order, gone)) == Filter(a, since, c, order)
  {
    FilterFront(b, since, c, Without(order, gone));
    FilterFront(a, since, c, order);
    if order != [] {
      UnlistedGone(a, b, since, c, order[1..], gone);
      if order[0] != gone {
        assert Without(order, gone)[1..] == Without(order[1..], gone);
        FilterFront(b, since, c, [order[0]] + Without(order[1..], gone));
      }
    }
  }

  /** Filtering may as well start from the front. */
  lemma {:induction false} FilterFront(crm: Crm, since: Option<Time>, c: Condition, order: seq<Id>)
    ensures order != [] ==>
              Filter(crm, since, c, order)
              == (if Listed(crm, since, c, order[0]) then [order[0]] else []) + Filter(crm, since, c, order[1..])
  {
    if |order| > 1 {
      var n := |order| - 1;
      FilterFront(crm, since, c, order[..n]);
      assert order[..n][1..] == order[1..][..n - 1];
    }
  }

  lemma {:induction false} FilterWithout(a: Crm, b: Crm, since: Option<Time>, c: Condition, order: seq<Id>, gone: Id)
    requires forall x :: x != gone ==> (Listed(a, since, c, x) <==> Listed(b, since, c, x))
    ensures Filter(b, since, c, Without(order, gone)) == Without(Filter(a, since, c, order), gone)
  {
    if order != [] {
      var head, rest := order[0], order[1..];
      FilterWithout(a, b, since, c, rest, gone);
      FilterFront(a, since, c, order);
      WithoutFront(head, Filter(a, since, c, rest), gone);
      assert [] + Filter(a, since, c, rest) == Filter(a, since, c, rest);
      if head != gone {
        assert Without(order, gone) == [head] + Without(rest, gone);
        assert ([head] + Without(rest, gone))[1..] == Without(rest, gone);
        FilterFront(b, since, c, [head] + Without(rest, gone));
      }
    }
  }

  lemma WithoutFront(x: Id, rest: seq<Id>, gone: Id)
    ensures Without([x] + rest, gone) == (if x == gone then [] else [x]) + Without(rest, gone)
  {
    assert ([x] + rest)[1..] == rest;
  }

  ghost predicate NoneTwice(all: seq<Id>) { forall j, k :: 0 <= j < k < |all| ==> all[j] != all[k] }

  lemma {:induction false} WithoutShifts(all: seq<Id>, i: nat)
    requires i < |all| && NoneTwice(all)
    ensures Without(all, all[i]) == all[..i] + all[i + 1..]
    decreases i
  {
    WithoutFront(all[0], all[1..], all[i]);
    assert all == [all[0]] + all[1..];
    if i == 0 {
      NoneToDrop(all[1..], all[0]);
    } else {
      WithoutShifts(all[1..], i - 1);
      assert all[1..][..i - 1] == all[1..i] && all[1..][i..] == all[i + 1..];
      assert [all[0]] + all[1..i] == all[..i];
    }
  }

  lemma {:induction false} NoneToDrop(all: seq<Id>, x: Id)
    requires x !in all
    ensures Without(all, x) == all
  {
    if all != [] { NoneToDrop(all[1..], x); }
  }

  lemma {:induction false} FilterDistinct(crm: Crm, since: Option<Time>, c: Condition, order: seq<Id>)
    requires forall i, j :: 0 <= i < j < |order| ==> order[i] != order[j]
    ensures NoneTwice(Filter(crm, since, c, order))
  {
    if order != [] {
      var n := |order| - 1;
      FilterDistinct(crm, since, c, order[..n]);
      assert order[n] !in Filter(crm, since, c, order[..n]);
    }
  }

  // ----- every step keeps the invariant -----

  /** Versions with one name are one record's, with one time stamp. */
  lemma SameName(s: Stream, u: Version, v: Version)
    requires EvenTexts(s) && NameOf(s, u) == NameOf(s, v)
    ensures u.id == v.id && s.isoText(u.modifiedAt) == s.isoText(v.modifiedAt)
  {
    var head := EventStore.SystemName(s.system) + ":" + ("poll:" + EventStore.SystemName(s.system) + ":" + s.objectType + ":");
    NameText(s, u, head);
    NameText(s, v, head);
    SameTail(head, u.id, s.isoText(u.modifiedAt), v.id, s.isoText(v.modifiedAt));
  }

  lemma NameText(s: Stream, v: Version, head: string)
    requires head == EventStore.SystemName(s.system) + ":" + ("poll:" + EventStore.SystemName(s.system) + ":" + s.objectType + ":")
    ensures NameOf(s, v) == head + v.id + ":" + s.isoText(v.modifiedAt)
  {
    var id := "poll:" + EventStore.SystemName(s.system) + ":" + s.objectType + ":" + v.id + ":" + s.isoText(v.modifiedAt);
    assert NameOf(s, v) == EventStore.SystemName(s.system) + ":" + id;
  }

  lemma SameTail(head: string, a: string, x: string, b: string, y: string)
    requires head + a + ":" + x == head + b + ":" + y && |x| == |y|
    ensures a == b && x == y
  {
    var p, q := head + a + ":" + x, head + b + ":" + y;
    assert x == p[|p| - |x|..] && y == q[|q| - |y|..];
    assert a == p[|head|..|p| - |x| - 1] && b == q[|head|..|q| - |y| - 1];
  }

  /** Enqueueing the event of a version leaves a job that tells of it, and no name that misleads. */
  lemma OneTells(s: Stream, store: EventStore.Store, u: Version, born: EventStore.Fresh, after: EventStore.Store)
    requires EvenTexts(s) && Truthful(s, store) && born.id !in store.jobs
    requires after == EventStore.EnqueueOne(store, NameOf(s, u), PollEvent(s, u), born)
    ensures Truthful(s, after) && HasJob(s, after, u) && EventStore.KeepsEvents(store, after)
  {
    EventStore.EnqueueOneValid(store, NameOf(s, u), PollEvent(s, u), born);
    assert Tells(s, u, after.jobs[after.index[NameOf(s, u)]].event);
    forall v | NameOf(s, v) in after.index ensures Tells(s, v, after.jobs[after.index[NameOf(s, v)]].event) {
      if NameOf(s, v) == NameOf(s, u) { SameName(s, u, v); }
    }
  }

  lemma {:induction false} EnqueueTells(s: Stream, store: EventStore.Store, found: seq<Version>, supply: seq<EventStore.Fresh>)
    requires EvenTexts(s) && Truthful(s, store) && |supply| == |found| && EventStore.Unused(store, supply)
    ensures var after := EnqueueFound(s, store, found, supply);
            && Truthful(s, after) && EventStore.KeepsEvents(store, after)
            && forall v :: v in found ==> HasJob(s, after, v)
  {
    if found != [] {
      var n := |found| - 1;
      var before := EnqueueFound(s, store, found[..n], supply[..n]);
      EventStore.Shorter(store, supply);
      EnqueueTells(s, store, found[..n], supply[..n]);
      OneMoreFound(s, store, found, supply);
      OneTells(s, before, found[n], supply[n], EnqueueFound(s, store, found, supply));
      forall v | v in found ensures HasJob(s, EnqueueFound(s, store, found, supply), v) {
        if v in found[..n] { StillTold(s, before, EnqueueFound(s, store, found, supply), v); }
      }
    }
  }

  lemma OneMoreFound(s: Stream, store: EventStore.Store, found: seq<Version>, supply: seq<EventStore.Fresh>)
    requires |supply| == |found| && found != [] && EventStore.Valid(store) && EventStore.Unused(store, supply)
    ensures var n := |found| - 1;
            var before := EnqueueFound(s, store, found[..n], supply[..n]);
            && EnqueueFound(s, store, found, supply)
               == EventStore.EnqueueOne(before, NameOf(s, found[n]), PollEvent(s, found[n]), supply[n])
            && supply[n].id !in before.jobs
  {
    var n := |found| - 1;
    assert EventsOf(s, found)[..n] == EventsOf(s, found[..n]);
    EventStore.Shorter(store, supply);
    EventStore.EnqueueKeeps(s.sha, store, EventsOf(s, found[..n]), supply[..n]);
  }

  lemma StillTold(s: Stream, before: EventStore.Store, after: EventStore.Store, v: Version)
    requires HasJob(s, before, v) && EventStore.KeepsEvents(before, after)
    ensures HasJob(s, after, v)
  {
    var id :| id in before.jobs && Tells(s, v, before.jobs[id].event);
    assert Tells(s, v, after.jobs[id].event);
  }

  lemma CoveredStays(s: Stream, crm: Crm, before: EventStore.Store, after: EventStore.Store, from: Time, to: Time)
    requires Covered(s, crm, before, from, to) && EventStore.KeepsEvents(before, after)
    ensures Covered(s, crm, after, from, to)
  {
    forall id | id in crm.records && s.condition(crm.records[id]) && from <= crm.records[id].modifiedAt < to
      ensures HasJob(s, after, Version(id, crm.records[id].modifiedAt))
    {
      StillTold(s, before, after, Version(id, crm.records[id].modifiedAt));
    }
  }

  lemma PutWellFormed(crm: Crm, id: Id, values: Fields, at: Time)
    requires WellFormed(crm)
    ensures WellFormed(PutIn(crm, id, values, at))
  {
  }

  /** Only record `id` differs, and it stands where it stood, last, or nowhere. */
  ghost predicate MovesOne(a: Crm, b: Crm, since: Option<Time>, c: Condition, id: Id) {
    && WellFormed(a) && WellFormed(b)
    && (forall x :: x != id && x in a.records ==> x in b.records && b.records[x] == a.records[x])
    && (forall x :: x != id && x in b.records ==> x in a.records)
    && (b.order == a.order || b.order == a.order + [id] || (b.order == Without(a.order, id) && id !in b.records))
  }

  lemma SameElsewhere(a: Crm, b: Crm, since: Option<Time>, c: Condition, id: Id)
    requires MovesOne(a, b, since, c, id)
    ensures forall x :: x != id ==> (Listed(a, since, c, x) <==> Listed(b, since, c, x))
  {
  }

  /** The new listing begins with what is left of the old order. */
  lemma ListsOldOrder(a: Crm, b: Crm, since: Option<Time>, c: Condition, id: Id)
    requires MovesOne(a, b, since, c, id)
    ensures Filter(b, since, c, a.order) <= Listing(b, since, c)
    ensures !Listed(b, since, c, id) ==> Listing(b, since, c) == Filter(b, since, c, a.order)
  {
    if b.order == a.order + [id] {
      assert b.order[..|b.order| - 1] == a.order;
    } else if b.order == Without(a.order, id) && id !in b.records {
      UnlistedGone(b, b, since, c, a.order, id);
    }
  }

  /** When no record before place `n` leaves, the ones from there on stay ahead. */
  lemma MoveStaysAhead(a: Crm, b: Crm, since: Option<Time>, c: Condition, id: Id, n: nat, x: Id)
    requires MovesOne(a, b, since, c, id)
    requires forall i :: 0 <= i < n && i < |Listing(a, since, c)| ==> Listed(b, since, c, Listing(a, since, c)[i])
    requires OnPageFrom(Listing(a, since, c), n, x) && Listed(b, since, c, x)
    ensures OnPageFrom(Listing(b, since, c), n, x)
  {
    StaysAhead(a, b, since, c, a.order, n, x);
    ListsOldOrder(a, b, since, c, id);
    StillOnPage(Filter(b, since, c, a.order), Listing(b, since, c), n, x);
  }

  /** A record that leaves takes its place with it. */
  lemma LeavesListing(a: Crm, b: Crm, since: Option<Time>, c: Condition, id: Id)
    requires MovesOne(a, b, since, c, id) && !Listed(b, since, c, id)
    ensures Listing(b, since, c) == Without(Listing(a, since, c), id)
  {
    SameElsewhere(a, b, since, c, id);
    ListsOldOrder(a, b, since, c, id);
    FilterWithout(a, b, since, c, a.order, id);
    UnlistedGone(b, b, since, c, a.order, id);
  }

  lemma ListingDistinct(crm: Crm, since: Option<Time>, c: Condition)
    requires WellFormed(crm)
    ensures NoneTwice(Listing(crm, since, c))
  {
    FilterDistinct(crm, since, c, crm.order);
  }

  /** So when one before place `n` does, the record in place `n` moves to a page already read, and
      no other does. */
  lemma OneSkipped(a: Crm, b: Crm, since: Option<Time>, c: Condition, id: Id, i: nat, n: nat, x: Id)
    requires MovesOne(a, b, since, c, id) && i < n && i < |Listing(a, since, c)| && Listing(a, since, c)[i] == id
    requires !Listed(b, since, c, id) && OnPageFrom(Listing(a, since, c), n, x)
    ensures OnPageFrom(Listing(b, since, c), n, x) <==> x != Listing(a, since, c)[n]
  {
    var all := Listing(a, since, c);
    ListingDistinct(a, since, c);
    LeavesListing(a, b, since, c, id);
    WithoutShifts(all, i);
    ShiftedUp(all, i, n, x);
  }

  lemma ShiftedUp(all: seq<Id>, i: nat, n: nat, x: Id)
    requires i < n && OnPageFrom(all, n, x) && NoneTwice(all)
    ensures n < |all| && (OnPageFrom(all[..i] + all[i + 1..], n, x) <==> x != all[n])
  {
    var rest := all[..i] + all[i + 1..];
    var j :| n <= j < |all| && all[j] == x;
    assert rest[j - 1] == x;
    forall k | n <= k < |rest| ensures rest[k] != all[n] {
      assert rest[k] == all[k + 1];
    }
  }

  // ----- keep or skip -----

  /** A write or a removal of one record. */
  predicate Moves(step: PollStep, id: Id) { step == Drop(id) || (step.Put? && step.id == id) }

  lemma MoveShape(s: Stream, st: PollState, step: PollStep, after: Crm, id: Id, closed: bool)
    requires PollInv(s, st, closed) && Moves(step, id) && after == PollNext(s, st, step).crm && st.phase.Polling?
    ensures MovesOne(st.crm, after, Some(st.phase.since), s.condition, id)
    ensures id in after.records <==> step.Put?
    ensures id in after.records ==> after.records[id].modifiedAt == st.clock
  {
    if step.Put? {
      PutWellFormed(st.crm, id, step.values, st.clock);
    } else {
      RemoveValid(st.crm, id);
    }
  }

  /** A record that is not the written one stays collected, unless it is the one that is skipped. */
  lemma CollectedAfter(s: Stream, st: PollState, after: Crm, id: Id, x: Id, closed: bool)
    requires st.phase.Polling? && MovesOne(st.crm, after, Some(st.phase.since), s.condition, id)
    requires x != id && x in st.crm.records && Collected(s, st.crm, st.phase, x, closed)
    requires SafeMove(s, st, after, closed)
    ensures Collected(s, after, st.phase, x, closed)
  {
    var since, c := Some(st.phase.since), s.condition;
    if st.phase.next.Some? && OnPageFrom(Ahead(s, st), st.phase.next.value, x) && Listed(after, since, c, x) {
      if ReadStay(s, Ahead(s, st), st.phase.next.value, st.phase.since, after) {
        MoveStaysAhead(st.crm, after, since, c, id, st.phase.next.value, x);
      } else {
        var i :| 0 <= i < st.phase.next.value && i < |Ahead(s, st)| && !Listed(after, since, c, Ahead(s, st)[i]);
        SameElsewhere(st.crm, after, since, c, id);
        OneSkipped(st.crm, after, since, c, id, i, st.phase.next.value, x);
      }
    }
  }

  /** The written record itself is collected exactly when its write was timely for the poll. */
  lemma WrittenCollected(s: Stream, st: PollState, after: Crm, id: Id, closed: bool)
    requires PollInv(s, st, closed) && st.phase.Polling?
    requires id in after.records && after.records[id].modifiedAt == st.clock
    ensures Collected(s, after, st.phase, id, closed) <==> !closed || st.clock > st.phase.startedAt || StillRead(s, st, after, id)
  {
  }

  lemma OthersCollected(s: Stream, st: PollState, step: PollStep, id: Id, closed: bool)
    requires PollInv(s, st, closed) && Moves(step, id) && st.phase.Polling?
    requires SafeMove(s, st, PollNext(s, st, step).crm, closed)
    ensures forall x :: x in PollNext(s, st, step).crm.records && x != id ==> Collected(s, PollNext(s, st, step).crm, st.phase, x, closed)
  {
    var after := PollNext(s, st, step).crm;
    MoveShape(s, st, step, after, id, closed);
    forall x | x in after.records && x != id ensures Collected(s, after, st.phase, x, closed) {
      CollectedAfter(s, st, after, id, x, closed);
    }
  }

  /** The committed window stays covered exactly when the write was timely for the last poll. */
  lemma CoveredAfterPut(s: Stream, st: PollState, id: Id, values: Fields, closed: bool)
    requires PollInv(s, st, closed) && st.cursor.Some?
    ensures var after := PollNext(s, st, Put(id, values)).crm;
            Covered(s, after, st.store, st.first.value, Until(closed, st.cursor.value))
            <==> (closed && st.clock == st.cursor.value ==> StillCovered(s, st, after, id))
  {
    var after := PollNext(s, st, Put(id, values)).crm;
    assert forall x :: x in after.records && x != id ==> x in st.crm.records && after.records[x] == st.crm.records[x];
    assert after.records[id] == Native(values, st.clock);
  }

  lemma CoveredAfterDrop(s: Stream, st: PollState, id: Id, closed: bool)
    requires PollInv(s, st, closed) && st.cursor.Some?
    ensures Covered(s, PollNext(s, st, Drop(id)).crm, st.store, st.first.value, Until(closed, st.cursor.value))
  {
  }

  /** What a step that moves one record must keep: the poll's part and the cursor's part. */
  lemma MoveInv(s: Stream, st: PollState, step: PollStep, id: Id, closed: bool)
    requires PollInv(s, st, closed) && Moves(step, id)
    ensures var end := PollNext(s, st, step);
            PollInv(s, end, closed) <==>
            && (st.phase.Polling? ==> AllCollected(s, end.crm, st.phase, closed))
            && (st.cursor.Some? ==> Covered(s, end.crm, st.store, st.first.value, Until(closed, st.cursor.value)))
  {
    if step.Put? { PutWellFormed(st.crm, id, step.values, st.clock); } else { RemoveValid(st.crm, id); }
  }

  lemma SafeKeeps(s: Stream, st: PollState, step: PollStep, id: Id, closed: bool)
    requires PollInv(s, st, closed) && Moves(step, id) && SafeMove(s, st, PollNext(s, st, step).crm, closed)
    requires step.Put? && closed ==> TimelyPut(s, st, PollNext(s, st, step).crm, id)
    ensures PollInv(s, PollNext(s, st, step), closed)
  {
    MoveInv(s, st, step, id, closed);
    if st.phase.Polling? {
      MoveShape(s, st, step, PollNext(s, st, step).crm, id, closed);
      OthersCollected(s, st, step, id, closed);
      if step.Put? { WrittenCollected(s, st, PollNext(s, st, step).crm, id, closed); }
    }
    if st.cursor.Some? {
      if step.Put? { CoveredAfterPut(s, st, id, step.values, closed); } else { CoveredAfterDrop(s, st, id, closed); }
    }
  }

  /** A record waiting in place `n` is no longer on a page to come. */
  lemma UnsafeSkips(s: Stream, st: PollState, step: PollStep, id: Id, closed: bool)
    requires PollInv(s, st, closed) && Moves(step, id) && !SafeMove(s, st, PollNext(s, st, step).crm, closed)
    ensures var x := Ahead(s, st)[st.phase.next.value];
            x in PollNext(s, st, step).crm.records && !Collected(s, PollNext(s, st, step).crm, st.phase, x, closed)
  {
    var after, since, c, n := PollNext(s, st, step).crm, Some(st.phase.since), s.condition, st.phase.next.value;
    var all := Ahead(s, st);
    var i :| 0 <= i < n && i < |all| && !Listed(after, since, c, all[i]);
    MoveShape(s, st, step, after, id, closed);
    SameElsewhere(st.crm, after, since, c, id);
    ListingDistinct(st.crm, since, c);
    assert all[i] == id && all[n] != all[i];
    assert OnPageFrom(all, n, all[n]);
    OneSkipped(st.crm, after, since, c, id, i, n, all[n]);
    assert Listed(after, since, c, all[n]);
  }

  lemma LatePutMisses(s: Stream, st: PollState, id: Id, values: Fields)
    requires PollInv(s, st, true) && !TimelyPut(s, st, PollNext(s, st, Put(id, values)).crm, id)
    ensures !PollInv(s, PollNext(s, st, Put(id, values)), true)
  {
    var after := PollNext(s, st, Put(id, values)).crm;
    MoveInv(s, st, Put(id, values), id, true);
    if st.phase.Polling? { WrittenCollected(s, st, after, id, true); }
    if st.cursor.Some? { CoveredAfterPut(s, st, id, values, true); }
  }

  /** A write or a removal keeps the invariant exactly when it is safe and timely. A record is passed
      over if and only if one on a page already read leaves the listing while the first record of
      the next page is waiting to be read; and for versions as old as the cursor, if and only if a
      record is written in the instant in which a poll began, in a version that has no job and that
      the poll will not read. */
  lemma KeepOrSkip(s: Stream, st: PollState, step: PollStep, id: Id, closed: bool)
    requires PollInv(s, st, closed) && Moves(step, id)
    ensures PollInv(s, PollNext(s, st, step), closed) <==> PollLegal(s, st, step, closed)
  {
    if PollLegal(s, st, step, closed) {
      SafeKeeps(s, st, step, id, closed);
    } else if SafeMove(s, st, PollNext(s, st, step).crm, closed) {
      LatePutMisses(s, st, id, step.values);
    } else {
      UnsafeSkips(s, st, step, id, closed);
      MoveInv(s, st, step, id, closed);
    }
  }

  lemma StartKeeps(s: Stream, st: PollState, lookback: nat, closed: bool)
    requires PollInv(s, st, closed)
    ensures PollInv(s, PollNext(s, st, Start(lookback)), closed)
  {
    var after := PollNext(s, st, Start(lookback));
    if !st.phase.Polling? {
      var all := Listing(st.crm, Some(after.phase.since), s.condition);
      forall id | id in all ensures OnPageFrom(all, 0, id) {
        var i :| 0 <= i < |all| && all[i] == id;
      }
    }
  }

  /** A poll goes through every matching record changed since the cursor, in its instant included, and
      the first one through those changed in the last days of the look-back. */
  lemma StartReaches(s: Stream, st: PollState, lookback: nat, id: Id)
    requires WellFormed(st.crm) && !st.phase.Polling? && id in st.crm.records && s.condition(st.crm.records[id])
    requires if st.cursor.Some? then st.crm.records[id].modifiedAt >= st.cursor.value
             else st.clock - st.crm.records[id].modifiedAt <= lookback * 24 * 60 * 60 * 1000
    ensures PollNext(s, st, Start(lookback)).phase.Polling? && id in Ahead(s, PollNext(s, st, Start(lookback)))
  {
  }

  /** Reading a page moves its records from ahead to found. */
  lemma ReadKeeps(s: Stream, st: PollState, closed: bool)
    requires PollInv(s, st, closed)
    ensures PollInv(s, PollNext(s, st, ReadPage), closed)
  {
    if st.phase.Polling? && st.phase.next.Some? {
      var after := PollNext(s, st, ReadPage).phase;
      forall x | x in st.crm.records ensures Collected(s, st.crm, after, x, closed) {
        assert Collected(s, st.crm, st.phase, x, closed);
        PageCollects(s, st.crm, st.phase, x, closed);
      }
    }
  }

  lemma PageCollects(s: Stream, crm: Crm, phase: Phase, x: Id, closed: bool)
    requires phase.Polling? && phase.next.Some? && x in crm.records && Collected(s, crm, phase, x, closed)
    ensures var all := Listing(crm, Some(phase.since), s.condition);
            Collected(s, crm, phase.(next := NextCursor(all, phase.next.value),
                                     found := phase.found + Versions(crm, PageOf(s, crm, phase.since, phase.next.value))), x, closed)
  {
    var all, start := Listing(crm, Some(phase.since), s.condition), phase.next.value;
    var ids := PageOf(s, crm, phase.since, start);
    if OnPageFrom(all, start, x) {
      var i :| start <= i < |all| && all[i] == x;
      if i < start + PAGE_SIZE {
        assert ids[i - start] == x;
        assert Versions(crm, ids)[i - start] == Version(x, crm.records[x].modifiedAt);
      }
    }
  }

  /** Committing covers the window that the poll has gone through. */
  lemma CommitKeeps(s: Stream, st: PollState, supply: seq<EventStore.Fresh>, closed: bool)
    requires EvenTexts(s) && PollInv(s, st, closed) && PollLegal(s, st, Commit(supply), closed)
    ensures PollInv(s, PollNext(s, st, Commit(supply)), closed)
  {
    if st.phase.Polling? && st.phase.next == None {
      var after := PollNext(s, st, Commit(supply));
      EnqueueTells(s, st.store, st.phase.found, supply);
      if st.cursor.Some? {
        CoveredStays(s, st.crm, st.store, after.store, st.first.value, Until(closed, st.cursor.value));
      }
      forall id | id in st.crm.records && s.condition(st.crm.records[id])
          && st.phase.since <= st.crm.records[id].modifiedAt < Until(closed, st.phase.startedAt)
        ensures HasJob(s, after.store, Version(id, st.crm.records[id].modifiedAt))
      {
        assert Collected(s, st.crm, st.phase, id, closed);
      }
    }
  }

  lemma FailKeeps(s: Stream, st: PollState, enqueued: Option<seq<EventStore.Fresh>>, closed: bool)
    requires EvenTexts(s) && PollInv(s, st, closed) && PollLegal(s, st, Fail(enqueued), closed)
    ensures PollInv(s, PollNext(s, st, Fail(enqueued)), closed)
  {
    var after := PollNext(s, st, Fail(enqueued));
    if enqueued.Some? && st.phase.Polling? && |enqueued.value| == |st.phase.found| {
      EnqueueTells(s, st.store, st.phase.found, enqueued.value);
    }
    if st.cursor.Some? {
      CoveredStays(s, st.crm, st.store, after.store, st.first.value, Until(closed, st.cursor.value));
    }
  }

  lemma PollStepKeeps(s: Stream, st: PollState, step: PollStep, closed: bool)
    requires EvenTexts(s) && PollInv(s, st, closed) && PollLegal(s, st, step, closed)
    ensures PollInv(s, PollNext(s, st, step), closed)
    ensures st.cursor.Some? ==>
              PollNext(s, st, step).cursor.Some? && PollNext(s, st, step).cursor.value >= st.cursor.value
              && PollNext(s, st, step).first == st.first
  {
    match step
    case Put(id, values) => SafeKeeps(s, st, step, id, closed);
    case Drop(id) => SafeKeeps(s, st, step, id, closed);
    case Tick(to) =>
    case Start(lookback) => StartKeeps(s, st, lookback, closed);
    case ReadPage => ReadKeeps(s, st, closed);
    case Commit(supply) => CommitKeeps(s, st, supply, closed);
    case Fail(enqueued) => FailKeeps(s, st, enqueued, closed);
    case QueueMoves(after) =>
      if st.cursor.Some? { CoveredStays(s, st.crm, st.store, after, st.first.value, Until(closed, st.cursor.value)); }
  }

  /** Over any run -- edits landing while a poll is under way, polls failing before or after
      enqueueing -- every record that meets the condition and whose current version is older than
      the cursor, and not older than the first window, has a job naming exactly that version; and
      the cursor never moves back. If writes in the instant in which a poll began are timely, versions
      as old as the cursor have one too. */
  lemma {:induction false} PollCoverage(s: Stream, st: PollState, steps: seq<PollStep>, closed: bool)
    requires EvenTexts(s) && PollInv(s, st, closed) && PollLegalRun(s, st, steps, closed)
    ensures var end := PollRun(s, st, steps);
            && PollInv(s, end, closed)
            && (end.cursor.Some? ==> Covered(s, end.crm, end.store, end.first.value, Until(closed, end.cursor.value)))
            && (st.cursor.Some? ==> end.cursor.Some? && end.cursor.value >= st.cursor.value && end.first == st.first)
    decreases |steps|
  {
    if steps != [] {
      PollStepKeeps(s, st, steps[0], closed);
      PollCoverage(s, PollNext(s, st, steps[0]), steps[1..], closed);
    }
  }

  // ----- an edit in the poll's first instant -----

  const EMPTY_POLL := PollState(EMPTY_CRM, 5, None, None, Idle, EventStore.EMPTY_STORE)

  /** Otherwise the bound is strict: an edit in the same instant in which the poll began, after its
      page was read, is as old as the cursor and has no job until the next poll. */
  lemma TieMissed(s: Stream, values: Fields)
    requires s.condition(Native(values, 5))
    ensures var steps := [Start(0), ReadPage, Put("a", values), Commit([])];
            var end := PollRun(s, EMPTY_POLL, steps);
            && PollInv(s, EMPTY_POLL, false) && PollLegalRun(s, EMPTY_POLL, steps, false)
            && end.cursor == Some(5) && "a" in end.crm.records && end.crm.records["a"] == Native(values, 5)
            && !HasJob(s, end.store, Version("a", 5))
  {
    var st1 := PollNext(s, EMPTY_POLL, Start(0));
    var st2 := PollNext(s, st1, ReadPage);
    assert st1 == EMPTY_POLL.(phase := Polling(5, 5, Some(0), []));
    assert Listing(EMPTY_CRM, Some(5), s.condition) == [];
    assert PageOf(s, EMPTY_CRM, 5, 0) == [];
    assert [] + Versions(EMPTY_CRM, []) == [];
    assert st2 == EMPTY_POLL.(phase := Polling(5, 5, None, []));
    var st3 := PollNext(s, st2, Put("a", values));
    var st4 := PollNext(s, st3, Commit([]));
    assert st4.store == EventStore.EMPTY_STORE;
    RunTwo(s, EMPTY_POLL, Start(0), ReadPage, false);
    RunTwo(s, st2, Put("a", values), Commit([]), false);
    RunAppend(s, EMPTY_POLL, [Start(0), ReadPage], [Put("a", values), Commit([])], false);
    assert [Start(0), ReadPage] + [Put("a", values), Commit([])] == [Start(0), ReadPage, Put("a", values), Commit([])];
  }

  lemma RunTwo(s: Stream, st: PollState, a: PollStep, b: PollStep, closed: bool)
    ensures PollRun(s, st, [a, b]) == PollNext(s, PollNext(s, st, a), b)
    ensures PollLegal(s, st, a, closed) && PollLegal(s, PollNext(s, st, a), b, closed) ==> PollLegalRun(s, st, [a, b], closed)
  {
    var mid := PollNext(s, st, a);
    assert [a, b][1..] == [b] && [b][1..] == [];
    assert PollRun(s, mid, [b]) == PollNext(s, mid, b);
    assert PollLegal(s, mid, b, closed) ==> PollLegalRun(s, mid, [b], closed);
  }

  lemma {:induction false} RunAppend(s: Stream, st: PollState, a: seq<PollStep>, b: seq<PollStep>, closed: bool)
    ensures PollRun(s, st, a + b) == PollRun(s, PollRun(s, st, a), b)
    ensures PollLegalRun(s, st, a, closed) && PollLegalRun(s, PollRun(s, st, a), b, closed) ==> PollLegalRun(s, st, a + b, closed)
    decreases |a|
  {
    if a == [] {
      assert a + b == b;
    } else {
      assert (a + b)[1..] == a[1..] + b;
      RunAppend(s, PollNext(s, st, a[0]), a[1..], b, closed);
    }
  }

  // ----- a record that is passed over -----

  /** One event tells of both versions. */
  predicate SameJob(s: Stream, u: Version, v: Version) {
    u.id == v.id && s.isoText(u.modifiedAt) == s.isoText(v.modifiedAt)
  }

  lemma StillNoJob(s: Stream, store: EventStore.Store, found: seq<Version>, supply: seq<EventStore.Fresh>, v: Version)
    requires !HasJob(s, store, v) && forall i :: 0 <= i < |found| ==> !SameJob(s, found[i], v)
    ensures !HasJob(s, EnqueueFound(s, store, found, supply), v)
  {
    var after := EnqueueFound(s, store, found, supply);
    if |supply| == |found| {
      forall id | id in after.jobs ensures !Tells(s, v, after.jobs[id].event) {
        EventStore.EnqueueMakes(s.sha, store, EventsOf(s, found), supply, id);
        assert forall i :: 0 <= i < |found| ==> !SameJob(s, found[i], v) && Tells(s, found[i], EventsOf(s, found)[i]);
      }
    }
  }

  /** A record at the head of the next page is waiting to be read while one on a page already read
      is removed; its version has no job, nor has another version the same one. */
  ghost predicate AboutToSkip(s: Stream, st: PollState, i: nat) {
    && PollInv(s, st, false) && st.phase.Polling? && st.phase.next.Some? && Waits(s, st, false)
    && i < st.phase.next.value
    && !HasJob(s, st.store, Skipped(s, st))
    && (forall u :: u in st.phase.found ==> !SameJob(s, u, Skipped(s, st)))
    && forall j :: st.phase.next.value < j < |Ahead(s, st)| ==>
         !SameJob(s, Version(Ahead(s, st)[j], st.crm.records[Ahead(s, st)[j]].modifiedAt), Skipped(s, st))
  }

  function Skipped(s: Stream, st: PollState): Version
    requires st.phase.Polling? && st.phase.next.Some? && st.phase.next.value < |Ahead(s, st)|
  {
    var x := Ahead(s, st)[st.phase.next.value]; Version(x, st.crm.records[x].modifiedAt)
  }

  lemma AfterDrop(s: Stream, st: PollState, i: nat)
    requires WellFormed(st.crm) && st.phase.Polling? && i < |Ahead(s, st)|
    ensures var all, after := Ahead(s, st), PollNext(s, st, Drop(Ahead(s, st)[i]));
            && after == st.(crm := after.crm) && Ahead(s, after) == all[..i] + all[i + 1..]
            && (forall x :: x in after.crm.records ==> x in st.crm.records && after.crm.records[x] == st.crm.records[x])
            && (forall j :: 0 <= j < |all| && j != i ==> all[j] in after.crm.records)
  {
    var all, since := Ahead(s, st), Some(st.phase.since);
    RemoveValid(st.crm, all[i]);
    ListingDistinct(st.crm, since, s.condition);
    LeavesListing(st.crm, Remove(st.crm, all[i]), since, s.condition, all[i]);
    WithoutShifts(all, i);
  }

  /** From the next page on nothing has the job of `v`, and nothing that was found has it. */
  ghost predicate PassedBy(s: Stream, st: PollState, v: Version) {
    && st.phase.Polling?
    && (forall u :: u in st.phase.found ==> !SameJob(s, u, v))
    && (st.phase.next.Some? ==> forall j :: st.phase.next.value <= j < |Ahead(s, st)| ==> OtherJob(s, st, j, v))
  }

  predicate OtherJob(s: Stream, st: PollState, j: nat, v: Version)
    requires st.phase.Polling? && j < |Ahead(s, st)|
  {
    !SameJob(s, Version(Ahead(s, st)[j], st.crm.records[Ahead(s, st)[j]].modifiedAt), v)
  }

  lemma ReadPassesBy(s: Stream, st: PollState, v: Version)
    requires PassedBy(s, st, v)
    ensures PassedBy(s, PollNext(s, st, ReadPage), v)
  {
    if st.phase.next.Some? {
      var all, n := Ahead(s, st), st.phase.next.value;
      var ids := PageOf(s, st.crm, st.phase.since, n);
      var after := PollNext(s, st, ReadPage);
      forall u | u in after.phase.found ensures !SameJob(s, u, v) {
        if u !in st.phase.found {
          var k :| 0 <= k < |ids| && Versions(st.crm, ids)[k] == u;
          assert OtherJob(s, st, n + k, v);
        }
      }
      forall j | after.phase.next.Some? && after.phase.next.value <= j < |Ahead(s, after)| ensures OtherJob(s, after, j, v) {
        assert OtherJob(s, st, j, v);
      }
    }
  }

  function Reads(k: nat): seq<PollStep> { seq(k, i => ReadPage) }

  /** What reading pages leaves alone, and that it comes to an end. */
  lemma {:induction false} ReadsPassBy(s: Stream, st: PollState, k: nat, v: Version)
    requires PassedBy(s, st, v)
    ensures var end := PollRun(s, st, Reads(k));
            && PassedBy(s, end, v) && end == st.(phase := end.phase)
            && end.phase.since == st.phase.since && end.phase.startedAt == st.phase.startedAt
            && (st.phase.next.Some? ==> |Ahead(s, st)| <= st.phase.next.value + k * PAGE_SIZE && k > 0 ==> end.phase.next == None)
            && (st.phase.next == None ==> end.phase.next == None)
    decreases k
  {
    if k > 0 {
      assert Reads(k)[1..] == Reads(k - 1);
      ReadPassesBy(s, st, v);
      ReadsPassBy(s, PollNext(s, st, ReadPage), k - 1, v);
    }
  }

  lemma DropPassesBy(s: Stream, st: PollState, mid: PollState, i: nat)
    requires AboutToSkip(s, st, i) && mid == st.(crm := mid.crm)
    requires Ahead(s, mid) == Ahead(s, st)[..i] + Ahead(s, st)[i + 1..]
    requires forall x :: x in mid.crm.records ==> x in st.crm.records && mid.crm.records[x] == st.crm.records[x]
    ensures PassedBy(s, mid, Skipped(s, st))
  {
    var all, n := Ahead(s, st), st.phase.next.value;
    forall j | n <= j < |Ahead(s, mid)| ensures OtherJob(s, mid, j, Skipped(s, st)) {
      assert Ahead(s, mid)[j] == all[j + 1];
    }
  }

  /** However many pages are left to read, the run ends with a version inside the committed window
      that has no job: coverage is lost, for as long as the record is not changed again. */
  lemma SkippedForGood(s: Stream, st: PollState, i: nat, k: nat, supply: seq<EventStore.Fresh>)
    requires AboutToSkip(s, st, i) && k > 0 && |Ahead(s, st)| <= st.phase.next.value + 1 + k * PAGE_SIZE
    ensures var end := PollRun(s, st, [Drop(Ahead(s, st)[i])] + Reads(k) + [Commit(supply)]);
            && end.cursor == Some(st.phase.startedAt) && end.phase == Idle && end.first.Some?
            && Skipped(s, st).id in end.crm.records && end.crm.records[Skipped(s, st).id].modifiedAt == Skipped(s, st).modifiedAt
            && !HasJob(s, end.store, Skipped(s, st))
            && !Covered(s, end.crm, end.store, end.first.value, end.cursor.value)
  {
    var drop, mid := Drop(Ahead(s, st)[i]), PollNext(s, st, Drop(Ahead(s, st)[i]));
    AfterDrop(s, st, i);
    DropPassesBy(s, st, mid, i);
    ReadsPassBy(s, mid, k, Skipped(s, st));
    RunDropReads(s, st, drop, k, Commit(supply));
    CommitWithout(s, st, PollRun(s, mid, Reads(k)), supply);
  }

  lemma RunDropReads(s: Stream, st: PollState, a: PollStep, k: nat, b: PollStep)
    ensures PollRun(s, st, [a] + Reads(k) + [b]) == PollNext(s, PollRun(s, PollNext(s, st, a), Reads(k)), b)
  {
    RunAppend(s, st, [a], Reads(k), false);
    RunAppend(s, st, [a] + Reads(k), [b], false);
    RunOneStep(s, st, a);
    RunOneStep(s, PollRun(s, PollNext(s, st, a), Reads(k)), b);
  }

  lemma RunOneStep(s: Stream, st: PollState, a: PollStep)
    ensures PollRun(s, st, [a]) == PollNext(s, st, a)
  {
    assert [a][1..] == [];
  }

  /** A commit without the skipped version leaves it uncovered. */
  lemma CommitWithout(s: Stream, st: PollState, st2: PollState, supply: seq<EventStore.Fresh>)
    requires PollInv(s, st, false) && st.phase.Polling? && st.phase.next.Some? && Waits(s, st, false)
    requires st2.phase.Polling? && st2.phase.next == None
    requires st2.phase.since == st.phase.since && st2.phase.startedAt == st.phase.startedAt && st2.first == st.first
    requires Skipped(s, st).id in st2.crm.records && st2.crm.records[Skipped(s, st).id] == st.crm.records[Skipped(s, st).id]
    requires !HasJob(s, st2.store, Skipped(s, st)) && forall u :: u in st2.phase.found ==> !SameJob(s, u, Skipped(s, st))
    ensures var end := PollNext(s, st2, Commit(supply));
            && end.cursor == Some(st.phase.startedAt) && end.phase == Idle && end.first.Some?
            && end.crm == st2.crm && !HasJob(s, end.store, Skipped(s, st))
            && !Covered(s, end.crm, end.store, end.first.value, end.cursor.value)
  {
    StillNoJob(s, st2.store, st2.phase.found, supply, Skipped(s, st));
    SkippedInWindow(s, st, PollNext(s, st2, Commit(supply)));
  }

  lemma SkippedInWindow(s: Stream, st: PollState, end: PollState)
    requires PollInv(s, st, false) && st.phase.Polling? && st.phase.next.Some? && Waits(s, st, false)
    requires Skipped(s, st).id in end.crm.records && end.crm.records[Skipped(s, st).id] == st.crm.records[Skipped(s, st).id]
    requires end.first == (if st.first.Some? then st.first else Some(st.phase.since)) && end.cursor == Some(st.phase.startedAt)
    requires st.first.Some? ==> st.first.value <= st.phase.since
    requires !HasJob(s, end.store, Skipped(s, st))
    ensures !Covered(s, end.crm, end.store, end.first.value, end.cursor.value)
  {
    var x := Ahead(s, st)[st.phase.next.value];
    assert Listed(st.crm, Some(st.phase.since), s.condition, x);
  }

  lemma RunThree(s: Stream, st: PollState, a: PollStep, b: PollStep, c: PollStep)
    ensures PollRun(s, st, [a, b, c]) == PollNext(s, PollNext(s, PollNext(s, st, a), b), c)
  {
    RunTwo(s, PollNext(s, st, a), b, c, false);
    assert [a, b, c][1..] == [b, c];
  }

  // ----- and it happens -----

  function Puts(ids: seq<Id>, values: Fields): seq<PollStep> {
    seq(|ids|, i requires 0 <= i < |ids| => Put(ids[i], values))
  }

  function FilledCrm(ids: seq<Id>, values: Fields): Crm {
    Crm(ids, map id | id in ids :: Native(values, 5), [], [])
  }

  lemma {:induction false} Filled(s: Stream, ids: seq<Id>, values: Fields)
    requires NoneTwice(ids)
    ensures PollRun(s, EMPTY_POLL, Puts(ids, values)) == EMPTY_POLL.(crm := FilledCrm(ids, values))
  {
    if ids == [] {
      assert FilledCrm(ids, values) == EMPTY_CRM;
    } else {
      var n := |ids| - 1;
      Filled(s, ids[..n], values);
      OneMorePut(ids, values);
      var st, last := EMPTY_POLL.(crm := FilledCrm(ids[..n], values)), Put(ids[n], values);
      RunAppend(s, EMPTY_POLL, Puts(ids[..n], values), [last], false);
      assert PollRun(s, st, [last]) == PollNext(s, st, last);
    }
  }

  lemma OneMorePut(ids: seq<Id>, values: Fields)
    requires ids != [] && NoneTwice(ids)
    ensures var n := |ids| - 1;
            && Puts(ids, values) == Puts(ids[..n], values) + [Put(ids[n], values)]
            && PutIn(FilledCrm(ids[..n], values), ids[n], values, 5) == FilledCrm(ids, values)
  {
    var n := |ids| - 1;
    assert ids == ids[..n] + [ids[n]];
    assert ids[n] !in ids[..n];
  }

  lemma FilledInv(s: Stream, ids: seq<Id>, values: Fields)
    requires NoneTwice(ids)
    ensures PollInv(s, EMPTY_POLL.(crm := FilledCrm(ids, values)), false)
  {
    assert WellFormed(FilledCrm(ids, values));
  }

  lemma {:induction false} AllListed(crm: Crm, since: Option<Time>, c: Condition, order: seq<Id>)
    requires forall i :: 0 <= i < |order| ==> Listed(crm, since, c, order[i])
    ensures Filter(crm, since, c, order) == order
  {
    if order != [] {
      AllListed(crm, since, c, order[..|order| - 1]);
      assert order == order[..|order| - 1] + [order[|order| - 1]];
    }
  }

  /** A poll over the filled system that has read its first page. */
  function PageRead(s: Stream, ids: seq<Id>, values: Fields): PollState
    requires |ids| > PAGE_SIZE
  {
    var crm := FilledCrm(ids, values);
    EMPTY_POLL.(crm := crm, clock := 6, phase := Polling(6 - 86_400_000, 6, Some(PAGE_SIZE), Versions(crm, ids[..PAGE_SIZE])))
  }

  lemma FirstPage(s: Stream, ids: seq<Id>, values: Fields)
    requires NoneTwice(ids) && |ids| > PAGE_SIZE && s.condition(Native(values, 5))
    ensures PollRun(s, EMPTY_POLL.(crm := FilledCrm(ids, values)), [Tick(6), Start(1), ReadPage]) == PageRead(s, ids, values)
    ensures Ahead(s, PageRead(s, ids, values)) == ids && PollInv(s, PageRead(s, ids, values), false)
  {
    var st := EMPTY_POLL.(crm := FilledCrm(ids, values));
    var ticked := PollNext(s, st, Tick(6));
    var started := PollNext(s, ticked, Start(1));
    FilledListing(s, ids, values);
    PageIsRead(s, ids, values, started);
    FilledInv(s, ids, values);
    StartKeeps(s, ticked, 1, false);
    ReadKeeps(s, started, false);
    RunThree(s, st, Tick(6), Start(1), ReadPage);
  }

  lemma FilledListing(s: Stream, ids: seq<Id>, values: Fields)
    requires s.condition(Native(values, 5))
    ensures Listing(FilledCrm(ids, values), Some(6 - 86_400_000), s.condition) == ids
  {
    forall i | 0 <= i < |ids| ensures Listed(FilledCrm(ids, values), Some(6 - 86_400_000), s.condition, ids[i]) {
      assert ids[i] in ids;
    }
    AllListed(FilledCrm(ids, values), Some(6 - 86_400_000), s.condition, ids);
  }

  lemma PageIsRead(s: Stream, ids: seq<Id>, values: Fields, started: PollState)
    requires |ids| > PAGE_SIZE && Listing(FilledCrm(ids, values), Some(6 - 86_400_000), s.condition) == ids
    requires started == EMPTY_POLL.(crm := FilledCrm(ids, values), clock := 6, phase := Polling(6 - 86_400_000, 6, Some(0), []))
    ensures PollNext(s, started, ReadPage) == PageRead(s, ids, values)
  {
    assert PageIds(ids, 0) == ids[..PAGE_SIZE];
    var found := Versions(FilledCrm(ids, values), ids[..PAGE_SIZE]);
    assert [] + found == found;
  }

  lemma ReadyToSkip(s: Stream, ids: seq<Id>, values: Fields)
    requires NoneTwice(ids) && |ids| == PAGE_SIZE + 1 && s.condition(Native(values, 5))
    ensures AboutToSkip(s, PageRead(s, ids, values), 0) && Ahead(s, PageRead(s, ids, values)) == ids
    ensures Skipped(s, PageRead(s, ids, values)) == Version(ids[PAGE_SIZE], 5)
  {
    FirstPage(s, ids, values);
    var st := PageRead(s, ids, values);
    assert ids[PAGE_SIZE] in ids;
    forall u | u in st.phase.found ensures u != Version(ids[PAGE_SIZE], 5) && !SameJob(s, u, Version(ids[PAGE_SIZE], 5)) {
      var k :| 0 <= k < PAGE_SIZE && st.phase.found[k] == u;
      assert ids[k] in ids && u == Version(ids[k], 5);
    }
  }

  /** The rest of the poll, once the first page has been read. */
  lemma SkipFromPage(s: Stream, ids: seq<Id>, values: Fields, supply: seq<EventStore.Fresh>)
    requires NoneTwice(ids) && |ids| == PAGE_SIZE + 1 && s.condition(Native(values, 5))
    ensures LosesLast(s, PollRun(s, PageRead(s, ids, values), [Drop(ids[0]), ReadPage, Commit(supply)]), ids)
  {
    ReadyToSkip(s, ids, values);
    SkippedForGood(s, PageRead(s, ids, values), 0, 1, supply);
    OneRead(Drop(ids[0]), Commit(supply));
  }

  lemma OneRead(a: PollStep, b: PollStep)
    ensures [a] + Reads(1) + [b] == [a, ReadPage, b]
  {
  }

  /** The last record has no job in a window that has been committed. */
  ghost predicate LosesLast(s: Stream, end: PollState, ids: seq<Id>)
    requires |ids| == PAGE_SIZE + 1
  {
    && end.cursor == Some(6) && end.first.Some? && ids[PAGE_SIZE] in end.crm.records
    && !HasJob(s, end.store, Version(ids[PAGE_SIZE], 5))
    && !Covered(s, end.crm, end.store, end.first.value, end.cursor.value)
  }

  /** With one record more than fits a page, removing the first of them between the two pages of a
      poll leaves the last without a job in the window that the poll commits. */
  lemma SkipHappens(s: Stream, ids: seq<Id>, values: Fields, supply: seq<EventStore.Fresh>)
    requires NoneTwice(ids) && |ids| == PAGE_SIZE + 1 && s.condition(Native(values, 5))
    ensures LosesLast(s, PollRun(s, EMPTY_POLL, Puts(ids, values) + [Tick(6), Start(1), ReadPage] + [Drop(ids[0]), ReadPage, Commit(supply)]), ids)
  {
    var a, b, c := Puts(ids, values), [Tick(6), Start(1), ReadPage], [Drop(ids[0]), ReadPage, Commit(supply)];
    Filled(s, ids, values);
    FirstPage(s, ids, values);
    RunAppend(s, EMPTY_POLL, a, b, false);
    RunAppend(s, EMPTY_POLL, a + b, c, false);
    SkipFromPage(s, ids, values, supply);
  }

  // ----- one poll that nothing interrupts -----

  class SyncPoller {
    const stream: Stream
    const connector: MockConnector
    const store: EventStore.InMemorySyncEventStore
    var cursor: Option<Time>

    constructor (stream: Stream, connector: MockConnector, store: EventStore.InMemorySyncEventStore)
      ensures this.stream == stream && this.connector == connector && this.store == store && cursor == None
    {
      this.stream, this.connector, this.store, cursor := stream, connector, store, None;
    }

    /** The ids on the page at an offset, and the next offset. */
    method ReadPageAt(since: Time, start: nat) returns (found: seq<Version>, next: Option<nat>)
      ensures found == Versions(connector.State(), PageOf(stream, connector.State(), since, start))
      ensures next == NextCursor(Listing(connector.State(), Some(since), stream.condition), start)
    {
      var all := connector.ListIds(Some(since), stream.condition);
      var ids := PageIds(all, start);
      found := Versions(Crm(connector.order, connector.records, connector.written, connector.removed), ids);
      next := NextCursor(all, start);
    }

    /** The paging loop: every listed version, each exactly once and in listing order. */
    method CollectVersions(since: Time) returns (found: seq<Version>)
      ensures found == Versions(connector.State(), Listing(connector.State(), Some(since), stream.condition))
    {
      ghost var crm := connector.State();
      ghost var all := Listing(crm, Some(since), stream.condition);
      found := [];
      var next: Option<nat> := Some(0);
      ghost var read := 0;
      while next.Some?
        invariant read <= |all| && (forall id :: id in all[..read] ==> id in crm.records)
        invariant found == Versions(crm, all[..read])
        invariant next.Some? ==> next.value == read
        invariant next == None ==> read == |all|
        decreases |all| - read, next.Some?
      {
        var page, following := ReadPageAt(since, next.value);
        ghost var upto := Min(read + PAGE_SIZE, |all|);
        assert all[..upto] == all[..read] + PageIds(all, read);
        VersionsAppend(crm, all[..read], PageIds(all, read));
        found := found + page;
        next := following;
        read := upto;
      }
      assert all[..|all|] == all;
    }

    /** `pollOne`: collects the window's versions, enqueues one event for each, and only then
        commits the time it began. */
    method PollOne(now: Time, lookback: nat, mint: nat -> EventStore.Fresh) returns (changed: nat)
      requires EventStore.Valid(store.State())
      requires forall i: nat :: mint(i).id !in store.jobs
      requires forall i: nat, j: nat :: i < j ==> mint(i).id != mint(j).id
      modifies this, store
      ensures cursor == Some(now) && EventStore.Valid(store.State())
      ensures var since := if old(cursor).Some? then old(cursor).value else now - lookback * 86_400_000;
              var found := Versions(connector.State(), Listing(connector.State(), Some(since), stream.condition));
              && changed == |found|
              && store.State() == EnqueueFound(stream, old(store.State()), found, seq(|found|, i requires 0 <= i => mint(i)))
              && (forall id :: id in store.jobs ==> JobStands(stream, found, old(store.jobs), id, store.jobs[id]))
              && (EvenTexts(stream) && Truthful(stream, old(store.State())) ==> forall v :: v in found ==> HasJob(stream, store.State(), v))
    {
      var since := if cursor.Some? then cursor.value else now - lookback * 86_400_000;
      var found := CollectVersions(since);
      changed := |found|;
      var supply := seq(|found|, i requires 0 <= i => mint(i));
      var _ := store.Enqueue(stream.sha, EventsOf(stream, found), supply);
      forall id | id in store.jobs ensures JobStands(stream, found, old(store.jobs), id, store.jobs[id]) {
        FoundMakes(stream, old(store.State()), found, supply, id);
      }
      if EvenTexts(stream) && Truthful(stream, old(store.State())) {
        EnqueueTells(stream, old(store.State()), found, supply);
      }
      cursor := Some(now);
    }
  }

  /** The job was there before, or is a new one that waits for its first attempt and tells of a version found. */
  predicate JobStands(s: Stream, found: seq<Version>, before: map<EventStore.JobId, EventStore.Job>, id: EventStore.JobId, job: EventStore.Job) {
    || (id in before && job == before[id])
    || (job.status == EventStore.Queued && job.attempts == 0 && exists v :: v in found && Tells(s, v, job.event))
  }

  lemma FoundMakes(s: Stream, store: EventStore.Store, found: seq<Version>, supply: seq<EventStore.Fresh>, id: EventStore.JobId)
    requires |supply| == |found| && id in EnqueueFound(s, store, found, supply).jobs
    ensures JobStands(s, found, store.jobs, id, EnqueueFound(s, store, found, supply).jobs[id])
  {
    EventStore.EnqueueMakes(s.sha, store, EventsOf(s, found), supply, id);
    var job := EnqueueFound(s, store, found, supply).jobs[id];
    if !(id in store.jobs && job == store.jobs[id]) { MadeTells(s, found, supply, id, job); }
  }

  lemma MadeTells(s: Stream, found: seq<Version>, supply: seq<EventStore.Fresh>, id: EventStore.JobId, job: EventStore.Job)
    requires |supply| == |found| && EventStore.MadeForOne(s.sha, EventsOf(s, found), supply, id, job)
    ensures job.status == EventStore.Queued && job.attempts == 0 && exists v :: v in found && Tells(s, v, job.event)
  {
    var events := EventsOf(s, found);
    var i :| 0 <= i < |found| && EventStore.MadeFor(job, events[i], EventStore.Identity(s.sha, events[i]), supply[i].now);
    assert found[i] in found && events[i] == PollEvent(s, found[i]);
    MadeIsTold(s, found[i], job, EventStore.Identity(s.sha, events[i]), supply[i].now);
  }

  lemma MadeIsTold(s: Stream, v: Version, job: EventStore.Job, name: string, now: Time)
    requires EventStore.MadeFor(job, PollEvent(s, v), name, now)
    ensures job.status == EventStore.Queued && job.attempts == 0 && Tells(s, v, job.event)
  {
  }
}
