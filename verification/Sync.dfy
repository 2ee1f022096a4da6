/** One direct sync with a peer: compare inventories, publish, pull, finalize locally, publish what
    finalization generated. Inventories are sequences of event ids in the order of the store.
 */
module Sync {
  import opened Events
  import M = Materialization
  import RepairedGaps

  /** Ids of the events a stored history materializes; the others are its gaps. */
  type Materialization = seq<EventId> -> seq<EventId>

  ghost predicate Sound(applied: Materialization) {
    forall log :: NoDuplicates(applied(log)) && forall id :: id in applied(log) ==> id in log
  }

  predicate NoGaps(applied: Materialization, log: seq<EventId>) {
    forall id :: id in log ==> id in applied(log)
  }

  ghost predicate SameEvents(a: seq<EventId>, b: seq<EventId>) {
    forall id :: id in a <==> id in b
  }

  // ---------- the plan ----------

  datatype Plan = Plan(local: seq<EventId>, remote: seq<EventId>, publish: set<EventId>, request: seq<EventId>)

  function Known(ids: seq<EventId>): set<EventId> {
    set id | id in ids
  }

  function Missing(ids: seq<EventId>, known: seq<EventId>): (r: seq<EventId>)
    ensures forall id :: id in r <==> id in ids && id !in known
    ensures NoDuplicates(ids) ==> NoDuplicates(r)
  {
    OnlyKeepsDistinct(ids, (id: EventId) => id !in known);
    Filter(ids, (id: EventId) => id !in known)
  }

  function Only(ids: seq<EventId>, wanted: set<EventId>): (r: seq<EventId>)
    ensures forall id :: id in r <==> id in ids && id in wanted
    ensures NoDuplicates(ids) ==> NoDuplicates(r)
  {
    OnlyKeepsDistinct(ids, (id: EventId) => id in wanted);
    Filter(ids, (id: EventId) => id in wanted)
  }

  lemma {:induction false} OnlyKeepsDistinct(ids: seq<EventId>, p: EventId -> bool)
    ensures NoDuplicates(ids) ==> NoDuplicates(Filter(ids, p))
  {
    if ids != [] && NoDuplicates(ids) {
      OnlyKeepsDistinct(ids[1..], p);
      assert ids[0] !in ids[1..];
    }
  }

  function PlanSync(local: seq<EventId>, remote: seq<EventId>): Plan {
    Plan(local, remote, Known(local) - Known(remote), Missing(remote, local))
  }

  /** The second plan counts everything either side had at first as already exchanged. */
  function FollowUp(log: seq<EventId>, initial: Plan): Plan {
    PlanSync(log, initial.remote + Missing(initial.local, initial.remote))
  }

  /** Fetched events in the order they are appended: first those the extended history
      materializes, then the rest as they arrived. */
  function Arranged(applied: Materialization, log: seq<EventId>, fetched: seq<EventId>): (r: seq<EventId>) {
    var ready := applied(log + fetched);
    Only(ready, Known(fetched)) + Missing(fetched, ready)
  }

  lemma ArrangedPermutes(applied: Materialization, log: seq<EventId>, fetched: seq<EventId>)
    requires Sound(applied) && NoDuplicates(fetched)
    ensures SameEvents(Arranged(applied, log, fetched), fetched)
    ensures NoDuplicates(Arranged(applied, log, fetched))
  {
    var ready := applied(log + fetched);
    JoinDistinct(Only(ready, Known(fetched)), Missing(fetched, ready));
  }

  lemma NothingArranged(applied: Materialization, log: seq<EventId>)
    requires Sound(applied)
    ensures Arranged(applied, log, []) == []
  {
    ArrangedPermutes(applied, log, []);
    var r := Arranged(applied, log, []);
    assert multiset(r) == multiset{} by {
      assert forall id :: id in multiset(r) ==> id in r;
    }
  }

  // ---------- what finalization reports ----------

  /** `other` are events appended without being listed, such as those of a secret rotation. */
  datatype Report = Report(profile: seq<EventId>, keyPackages: seq<EventId>, workspaceGroup: seq<EventId>,
                           channelGroups: seq<seq<EventId>>, rotated: bool, other: seq<EventId>)

  function Concat(s: seq<seq<EventId>>): seq<EventId> {
    if s == [] then [] else s[0] + Concat(s[1..])
  }

  function Generated(r: Report): seq<EventId> {
    r.profile + r.keyPackages + r.workspaceGroup + Concat(r.channelGroups) + r.other
  }

  predicate AsksForFollowUp(r: Report) {
    || r.profile != []
    || (r.keyPackages != [] || r.workspaceGroup != [] || exists g :: g in r.channelGroups && g != [])
    || r.rotated
  }

  lemma {:induction false} ConcatEmpty(s: seq<seq<EventId>>)
    ensures Concat(s) != [] <==> exists g :: g in s && g != []
  {
    if s != [] {
      ConcatEmpty(s[1..]);
      assert Concat(s) != [] <==> s[0] != [] || Concat(s[1..]) != [];
      assert s == [s[0]] + s[1..];
      assert forall g :: g in s <==> g in [s[0]] || g in s[1..];
      assert s[0] in s;
    }
  }

  /** Nothing generated goes without a follow-up, as long as unlisted events mean a rotation. */
  lemma FollowUpCovers(r: Report)
    requires r.other != [] ==> r.rotated
    ensures Generated(r) != [] ==> AsksForFollowUp(r)
    ensures !r.rotated && AsksForFollowUp(r) ==> Generated(r) != []
  {
    ConcatEmpty(r.channelGroups);
  }

  // ---------- a whole sync without interference ----------

  datatype Sides = Sides(log: seq<EventId>, held: seq<EventId>)

  function First(applied: Materialization, start: Sides): seq<EventId> {
    Only(applied(start.log), PlanSync(start.log, start.held).publish)
  }

  function Pulled(applied: Materialization, start: Sides): seq<EventId> {
    start.log + Arranged(applied, start.log, Missing(start.held, start.log))
  }

  function Second(applied: Materialization, start: Sides, r: Report): seq<EventId> {
    var log := Pulled(applied, start) + Generated(r);
    if AsksForFollowUp(r)
    then Only(applied(log), FollowUp(log, PlanSync(start.log, start.held)).publish)
    else []
  }

  function Synced(applied: Materialization, start: Sides, r: Report): Sides {
    Sides(Pulled(applied, start) + Generated(r),
          start.held + First(applied, start) + Second(applied, start, r))
  }

  ghost predicate Settled(start: Sides, r: Report) {
    && NoDuplicates(start.log) && NoDuplicates(start.held)
    && NoDuplicates(Generated(r))
    && forall id :: id in Generated(r) ==> id !in start.log && id !in start.held
  }

  lemma PulledMembers(applied: Materialization, start: Sides, id: EventId)
    requires Sound(applied) && NoDuplicates(start.held)
    ensures id in Pulled(applied, start) <==> id in start.log || id in start.held
  {
    ArrangedPermutes(applied, start.log, Missing(start.held, start.log));
  }

  lemma SecondMembers(applied: Materialization, start: Sides, r: Report, id: EventId)
    requires Sound(applied) && Settled(start, r)
    ensures id in Second(applied, start, r) <==>
            AsksForFollowUp(r) && id in Generated(r) && id in applied(Synced(applied, start, r).log)
  {
    PulledMembers(applied, start, id);
    FollowUpIsNew(Pulled(applied, start) + Generated(r), PlanSync(start.log, start.held));
  }

  /** What the two sides hold afterwards, event by event. */
  lemma SyncedMembers(applied: Materialization, start: Sides, r: Report, id: EventId)
    requires Sound(applied) && Settled(start, r)
    ensures var end := Synced(applied, start, r);
            && (id in end.log <==> id in start.log || id in start.held || id in Generated(r))
            && (id in end.held <==>
                  || id in start.held
                  || (id in start.log && id in applied(start.log))
                  || (AsksForFollowUp(r) && id in Generated(r) && id in applied(end.log)))
  {
    PulledMembers(applied, start, id);
    SecondMembers(applied, start, r, id);
  }

  /** The sides agree afterwards exactly when every event the peer lacked was materialized at the
      start, and every generated event was announced and materializes. */
  lemma ConvergesExactly(applied: Materialization, start: Sides, r: Report)
    requires Sound(applied) && Settled(start, r)
    ensures var end := Synced(applied, start, r);
            SameEvents(end.log, end.held) <==>
            && (forall id :: id in start.log && id !in start.held ==> id in applied(start.log))
            && (Generated(r) != [] ==> AsksForFollowUp(r))
            && (forall id :: id in Generated(r) ==> id in applied(end.log))
  {
    var end := Synced(applied, start, r);
    forall id ensures id in end.log <==> id in start.log || id in start.held || id in Generated(r) {
      SyncedMembers(applied, start, r, id);
    }
    forall id
      ensures id in end.held <==>
                || id in start.held
                || (id in start.log && id in applied(start.log))
                || (AsksForFollowUp(r) && id in Generated(r) && id in applied(end.log))
    {
      SyncedMembers(applied, start, r, id);
    }
    if Generated(r) != [] {
      var g := Generated(r)[0];
      assert g in Generated(r) && g in end.log;
    }
  }

  /** Without gaps one sync is enough. */
  lemma OneSyncConverges(applied: Materialization, start: Sides, r: Report)
    requires Sound(applied) && Settled(start, r)
    requires NoGaps(applied, start.log) && NoGaps(applied, Synced(applied, start, r).log)
    requires r.other != [] ==> r.rotated
    ensures SameEvents(Synced(applied, start, r).log, Synced(applied, start, r).held)
  {
    FollowUpCovers(r);
    var end := Synced(applied, start, r);
    assert forall id :: id in Generated(r) ==> id in end.log;
    ConvergesExactly(applied, start, r);
  }

  const Quiet := Report([], [], [], [], false, [])

  /** A history whose gaps the pull closed needs one more sync: the follow-up never revisits the
      initial inventory. The second sync publishes exactly what was held back. */
  lemma SecondSyncCloses(applied: Materialization, start: Sides, r: Report)
    requires Sound(applied) && Settled(start, r)
    requires NoGaps(applied, Synced(applied, start, r).log)
    ensures var mid := Synced(applied, start, r);
            && Settled(mid, Quiet)
            && SameEvents(Synced(applied, mid, Quiet).log, Synced(applied, mid, Quiet).held)
            && forall id :: id in First(applied, mid) <==> id in mid.log && id !in mid.held
  {
    var mid := Synced(applied, start, r);
    MidIsSettled(applied, start, r);
    HeldIsKnown(applied, start, r);
    QuietSyncCloses(applied, mid);
  }

  lemma MidIsSettled(applied: Materialization, start: Sides, r: Report)
    requires Sound(applied) && Settled(start, r)
    ensures Settled(Synced(applied, start, r), Quiet)
  {
    SyncedIsSettled(applied, start, r);
    assert Generated(Quiet) == [];
  }

  /** The peer holds nothing that is not known locally by the end. */
  lemma HeldIsKnown(applied: Materialization, start: Sides, r: Report)
    requires Sound(applied) && Settled(start, r)
    ensures forall id :: id in Synced(applied, start, r).held ==> id in Synced(applied, start, r).log
  {
    forall id | id in Synced(applied, start, r).held ensures id in Synced(applied, start, r).log {
      SyncedMembers(applied, start, r, id);
    }
  }

  /** A sync without gaps that finalization adds nothing to. */
  lemma QuietSyncCloses(applied: Materialization, mid: Sides)
    requires Sound(applied) && Settled(mid, Quiet) && NoGaps(applied, mid.log)
    requires forall id :: id in mid.held ==> id in mid.log
    ensures SameEvents(Synced(applied, mid, Quiet).log, Synced(applied, mid, Quiet).held)
    ensures forall id :: id in First(applied, mid) <==> id in mid.log && id !in mid.held
  {
    assert Generated(Quiet) == [];
    forall id ensures id in Synced(applied, mid, Quiet).log <==> id in Synced(applied, mid, Quiet).held {
      SyncedMembers(applied, mid, Quiet, id);
    }
  }

  /** The two publishes of one sync are disjoint and announce nothing the peer listed; the second
      announces nothing that was in the initial local inventory. */
  lemma PublishesAreDisjoint(applied: Materialization, start: Sides, r: Report)
    requires Sound(applied)
    ensures forall id :: id in Second(applied, start, r) ==> id !in start.log && id !in start.held
    ensures forall id :: id in First(applied, start) ==> id in start.log && id !in start.held
    ensures NoDuplicates(First(applied, start) + Second(applied, start, r))
  {
    if AsksForFollowUp(r) {
      FollowUpIsNew(Pulled(applied, start) + Generated(r), PlanSync(start.log, start.held));
    }
    JoinDistinct(First(applied, start), Second(applied, start, r));
  }

  lemma FollowUpIsNew(log: seq<EventId>, initial: Plan)
    ensures forall id :: id in FollowUp(log, initial).publish <==> id in log && id !in initial.remote && id !in initial.local
  {
  }

  lemma SyncedIsSettled(applied: Materialization, start: Sides, r: Report)
    requires Sound(applied) && Settled(start, r)
    ensures NoDuplicates(Synced(applied, start, r).log) && NoDuplicates(Synced(applied, start, r).held)
  {
    var fetched := Missing(start.held, start.log);
    ArrangedPermutes(applied, start.log, fetched);
    var arranged := Arranged(applied, start.log, fetched);
    JoinDistinct(start.log, arranged);
    JoinDistinct(start.log + arranged, Generated(r));
    PublishesAreDisjoint(applied, start, r);
    var first, second := First(applied, start), Second(applied, start, r);
    JoinDistinct(start.held, first + second);
    assert start.held + (first + second) == start.held + first + second;
  }

  lemma JoinDistinct(a: seq<EventId>, b: seq<EventId>)
    requires NoDuplicates(a) && NoDuplicates(b) && forall id :: id in b ==> id !in a
    ensures NoDuplicates(a + b)
  {
    forall i, j | 0 <= i < j < |a + b| ensures (a + b)[i] != (a + b)[j] {
      if i < |a| <= j {
        assert b[j - |a|] in b;
      }
    }
  }

  // ---------- materialization of stored events ----------

  /** The stored rows of these ids. */
  function RowsOf(rows: map<EventId, Event>, log: seq<EventId>): seq<Event> {
    if log == [] then []
    else
      var last := log[|log| - 1];
      RowsOf(rows, log[..|log| - 1]) + if last in rows && rows[last].id == last then [rows[last]] else []
  }

  /** What the rows of an inventory materialize. */
  function Applying(rows: map<EventId, Event>): Materialization {
    (log: seq<EventId>) => Ids(M.Materialize(RowsOf(rows, log)).events)
  }

  lemma {:induction false} RowsOfMembers(rows: map<EventId, Event>, log: seq<EventId>)
    ensures forall e :: e in RowsOf(rows, log) ==> e.id in log
  {
    if log != [] {
      RowsOfMembers(rows, log[..|log| - 1]);
    }
  }

  /** Whatever the rows are, this is a materialization the sync may rely on. */
  lemma ApplyingIsSound(rows: map<EventId, Event>)
    ensures Sound(Applying(rows))
  {
    forall log
      ensures NoDuplicates(Applying(rows)(log)) && forall id :: id in Applying(rows)(log) ==> id in log
    {
      M.MaterializedInBrief(RowsOf(rows, log));
      RowsOfMembers(rows, log);
    }
  }

  /** A workspace of two events, the second on the first. */
  function TwoRows(p: Event, c: Event): map<EventId, Event> {
    map[p.id := p, c.id := c]
  }

  predicate ParentAndChild(p: Event, c: Event) {
    && p.id != c.id && p.author == c.author
    && p.body == WorkspaceCreated && p.parents == [] && c.body == Other && c.parents == [p.id]
  }

  lemma PairExists() returns (p: Event, c: Event)
    ensures ParentAndChild(p, c)
  {
    p, c := Event("p", "owner", [], WorkspaceCreated), Event("c", "owner", ["p"], Other);
    assert p.id[0] != c.id[0];
  }

  lemma ChildAlone(p: Event, c: Event)
    requires ParentAndChild(p, c)
    ensures M.Materialize([c]) == M.Start
  {
    assert p.id in c.parents;
    M.PassOfOne(M.Start, c);
    M.RoundsResume(M.Start, [c]);
  }

  lemma ChildWaits(p: Event, c: Event)
    requires ParentAndChild(p, c)
    ensures Applying(TwoRows(p, c))([c.id]) == []
  {
    assert RowsOf(TwoRows(p, c), [c.id]) == [c] by {
      assert [c.id][..0] == [];
    }
    ChildAlone(p, c);
  }

  lemma PairIsApplied(p: Event, c: Event)
    requires ParentAndChild(p, c)
    ensures M.Materialize([c, p]).events == [p, c]
  {
    assert M.Start.events == [] && p.id in c.parents;
    RepairedGaps.AppliedIds(M.Start, p);
    assert RepairedGaps.Gap([], c, p);
    RepairedGaps.GapIsRepaired([], c, p);
    assert [] + [c] + [p] == [c, p];
  }

  /** One sync can leave the peer without an event that is materialized locally by its end: the
      local child waited for a parent that only the peer had. */
  lemma RepairedGapWaits(p: Event, c: Event)
    requires ParentAndChild(p, c)
    ensures var applied := Applying(TwoRows(p, c)); var start := Sides([c.id], [p.id]);
            && Sound(applied) && Settled(start, Quiet)
            && var end := Synced(applied, start, Quiet);
               NoGaps(applied, end.log) && c.id in end.log && c.id !in end.held
  {
    var applied, start := Applying(TwoRows(p, c)), Sides([c.id], [p.id]);
    ApplyingIsSound(TwoRows(p, c));
    ChildWaits(p, c);
    assert Generated(Quiet) == [];
    SyncedMembers(applied, start, Quiet, c.id);
    PairIsSynced(p, c);
    BothApplied(p, c);
  }

  /** After the pull the child stands before its parent. */
  lemma PairIsSynced(p: Event, c: Event)
    requires ParentAndChild(p, c) && Sound(Applying(TwoRows(p, c)))
    ensures Synced(Applying(TwoRows(p, c)), Sides([c.id], [p.id]), Quiet).log == [c.id, p.id]
  {
    OneIsPulled(Applying(TwoRows(p, c)), c.id, p.id);
    TwoDistinct(Synced(Applying(TwoRows(p, c)), Sides([c.id], [p.id]), Quiet).log, c.id, p.id);
  }

  lemma OneIsPulled(applied: Materialization, mine: EventId, theirs: EventId)
    requires Sound(applied) && mine != theirs
    ensures var log := Synced(applied, Sides([mine], [theirs]), Quiet).log;
            NoDuplicates(log) && [mine] <= log && forall id :: id in log <==> id in {mine, theirs}
  {
    var start := Sides([mine], [theirs]);
    assert Generated(Quiet) == [];
    assert Settled(start, Quiet);
    SyncedIsSettled(applied, start, Quiet);
    forall id ensures id in Synced(applied, start, Quiet).log <==> id in {mine, theirs} {
      SyncedMembers(applied, start, Quiet, id);
    }
    StartStays(applied, start, Quiet);
  }

  lemma StartStays(applied: Materialization, start: Sides, r: Report)
    ensures start.log <= Synced(applied, start, r).log
  {
  }

  lemma TwoDistinct(log: seq<EventId>, a: EventId, b: EventId)
    requires a != b && NoDuplicates(log) && [a] <= log && forall id :: id in log <==> id in {a, b}
    ensures log == [a, b]
  {
    LengthOfDistinct(log, {a, b});
    assert log[0] == [a][0] && log[1] in log && log[0] != log[1];
  }

  lemma {:induction false} LengthOfDistinct(ids: seq<EventId>, s: set<EventId>)
    requires NoDuplicates(ids) && forall id :: id in ids <==> id in s
    ensures |ids| == |s|
  {
    if ids == [] {
      assert s == {};
    } else {
      assert ids[0] in s && ids[0] !in ids[1..];
      assert forall id :: id in ids <==> id == ids[0] || id in ids[1..];
      LengthOfDistinct(ids[1..], s - {ids[0]});
    }
  }

  lemma BothApplied(p: Event, c: Event)
    requires ParentAndChild(p, c)
    ensures NoGaps(Applying(TwoRows(p, c)), [c.id, p.id])
  {
    RowsOfPair(p, c);
    PairIsApplied(p, c);
    assert Ids([p, c]) == [p.id, c.id];
  }

  lemma RowsOfPair(p: Event, c: Event)
    requires ParentAndChild(p, c)
    ensures RowsOf(TwoRows(p, c), [c.id, p.id]) == [c, p]
  {
    var rows := TwoRows(p, c);
    assert [c.id, p.id][..1] == [c.id] && [c.id][..0] == [];
    assert RowsOf(rows, []) == [] && RowsOf(rows, [c.id]) == [c];
  }

  // ---------- the sync itself, with other writers ----------

  class Replica {
    const applied: Materialization
    const alone: bool
    var log: seq<EventId>

    constructor (applied: Materialization, alone: bool)
      ensures this.applied == applied && this.alone == alone && log == []
    {
      this.applied, this.alone, log := applied, alone, [];
    }

    ghost predicate Valid()
      reads this
    {
      Sound(applied) && NoDuplicates(log)
    }

    /** The store ignores an id it already holds. */
    method Append(more: seq<EventId>)
      requires Valid()
      modifies this
      ensures Valid() && old(log) <= log
      ensures forall id :: id in log <==> id in old(log) || id in more
      ensures NoDuplicates(more) && (forall id :: id in more ==> id !in old(log)) ==> log == old(log) + more
    {
      var i := 0;
      while i < |more|
        invariant 0 <= i <= |more|
        invariant Valid() && old(log) <= log
        invariant forall id :: id in log <==> id in old(log) || id in more[..i]
        invariant NoDuplicates(more) && (forall id :: id in more ==> id !in old(log)) ==> log == old(log) + more[..i]
      {
        assert more[..i + 1] == more[..i] + [more[i]];
        if more[i] !in log {
          log := log + [more[i]];
        }
        i := i + 1;
      }
      assert more[..i] == more;
    }

    /** Other writers append whatever they like, unless this process is alone. */
    method Meanwhile()
      requires Valid()
      modifies this
      ensures Valid() && old(log) <= log
      ensures alone ==> log == old(log)
    {
      if !alone {
        var more: seq<EventId> := *;
        Append(more);
      }
    }

    /** Publishes the materialized events among the wanted ones. */
    method Publish(peer: Peer, wanted: set<EventId>) returns (sent: Option<seq<EventId>>)
      requires Valid() && peer.Valid()
      modifies peer
      ensures peer.Valid() && old(peer.held) <= peer.held
      ensures forall id :: id in peer.held ==> id in old(peer.held) || (id in applied(log) && id in wanted)
      ensures sent.Some? ==> sent.value == Only(applied(log), wanted)
      ensures sent.Some? && peer.accepting && (forall id :: id in old(peer.held) ==> id !in wanted)
              ==> peer.held == old(peer.held) + sent.value
    {
      var ids := Only(applied(log), wanted);
      if ids == [] {
        return Some([]);
      }
      var ok := peer.Receive(ids);
      sent := if ok then Some(ids) else None;
    }

    /** Requests what is missing and appends what a correct answer holds. */
    method Pull(peer: Peer, request: seq<EventId>) returns (ok: bool)
      requires Valid() && peer.Valid() && NoDuplicates(request)
      modifies this
      ensures Valid() && old(log) <= log
      ensures !ok ==> log == old(log)
      ensures alone ==> forall id :: id in log ==> id in old(log) || id in request
      ensures ok && alone && peer.accepting && (forall id :: id in request ==> id !in old(log))
              ==> log == old(log) + Arranged(applied, old(log), request)
    {
      if request == [] {
        NothingArranged(applied, log);
        return true;
      }
      var answer := peer.Fetch(request);
      if answer.None? || !CorrectAnswer(answer.value, request) {
        return false;
      }
      Meanwhile();
      ArrangedPermutes(applied, log, answer.value);
      Append(Arranged(applied, log, answer.value));
      ok := true;
    }
  }

  predicate CorrectAnswer(answer: seq<EventId>, request: seq<EventId>) {
    && (forall id :: id in answer ==> id in request)
    && (forall i :: 0 <= i < |answer| ==> answer[i] !in answer[i + 1..])
  }

  /** The other side. An accepting peer stores every event it is sent and serves every request;
      any other answers as it likes. */
  class Peer {
    const accepting: bool
    var held: seq<EventId>

    constructor (accepting: bool)
      ensures this.accepting == accepting && held == []
    {
      this.accepting, held := accepting, [];
    }

    ghost predicate Valid()
      reads this
    {
      NoDuplicates(held)
    }

    method Receive(ids: seq<EventId>) returns (ok: bool)
      requires Valid() && NoDuplicates(ids)
      modifies this
      ensures Valid() && old(held) <= held
      ensures forall id :: id in held ==> id in old(held) || id in ids
      ensures ok && accepting && (forall id :: id in old(held) ==> id !in ids) ==> held == old(held) + ids
    {
      var i := 0;
      while i < |ids|
        invariant 0 <= i <= |ids|
        invariant Valid() && old(held) <= held
        invariant forall id :: id in held ==> id in old(held) || id in ids[..i]
        invariant accepting && (forall id :: id in old(held) ==> id !in ids) ==> held == old(held) + ids[..i]
      {
        assert ids[..i + 1] == ids[..i] + [ids[i]];
        var store: bool := *;
        if ids[i] !in held && (store || accepting) {
          held := held + [ids[i]];
        }
        i := i + 1;
      }
      assert ids[..i] == ids;
      ok := *;
    }

    method Fetch(request: seq<EventId>) returns (answer: Option<seq<EventId>>)
      ensures accepting && answer.Some? ==> answer.value == request
    {
      answer := *;
      if accepting && answer.Some? {
        answer := Some(request);
      }
    }
  }

  datatype Outcome = Failed | Completed(first: seq<EventId>, second: seq<EventId>)

  /** The second publish, if finalization asks for it: nothing that either side listed at first. */
  method PublishFollowUp(me: Replica, peer: Peer, plan: Plan, report: Report) returns (sent: Option<seq<EventId>>)
    requires me.Valid() && peer.Valid()
    modifies peer
    ensures peer.Valid() && old(peer.held) <= peer.held
    ensures forall id :: id in peer.held ==> id in old(peer.held) || id in me.log
    ensures sent.Some? ==> sent.value == (if AsksForFollowUp(report) then Only(me.applied(me.log), FollowUp(me.log, plan).publish) else [])
    ensures sent.Some? ==> NoDuplicates(sent.value) && forall id :: id in sent.value ==> id !in plan.local && id !in plan.remote
    ensures sent.Some? && peer.accepting && (forall id :: id in old(peer.held) ==> id in plan.local || id in plan.remote)
            ==> peer.held == old(peer.held) + sent.value
  {
    if !AsksForFollowUp(report) {
      assert peer.held + [] == peer.held;
      return Some([]);
    }
    FollowUpIsNew(me.log, plan);
    sent := me.Publish(peer, FollowUp(me.log, plan).publish);
  }

  /** The direct sync. `report` is what local finalization will generate. Whatever the other
      writers and the peer do, and wherever the call fails, the peer only receives events this
      replica holds, and the two publishes share nothing with each other, with the peer's listing
      or, for the second, with the initial inventory. Alone and with an accepting peer the call
      performs exactly `Synced`. */
  method SyncDirect(me: Replica, peer: Peer, report: Report) returns (r: Outcome, ghost start: Sides)
    requires me.Valid() && peer.Valid()
    modifies me, peer
    ensures me.Valid() && peer.Valid()
    ensures old(me.log) <= start.log <= me.log && start.held == old(peer.held) <= peer.held
    ensures forall id :: id in peer.held ==> id in start.held || id in me.log
    ensures r.Completed? ==>
              && (forall id :: id in r.first ==> id in start.log && id !in start.held)
              && (forall id :: id in r.second ==> id !in start.log && id !in start.held)
              && NoDuplicates(r.first + r.second)
    ensures r.Completed? && me.alone && peer.accepting && Settled(start, report) ==>
              && start.log == old(me.log)
              && Sides(me.log, peer.held) == Synced(me.applied, start, report)
              && r.first == First(me.applied, start) && r.second == Second(me.applied, start, report)
  {
    me.Meanwhile();
    start := Sides(me.log, peer.held);
    var plan := PlanSync(me.log, peer.held);
    ghost var remote := peer.held;
    me.Meanwhile();
    var first := me.Publish(peer, plan.publish);
    if first.None? {
      return Failed, start;
    }
    var ok := me.Pull(peer, plan.request);
    if !ok {
      return Failed, start;
    }
    me.Append(Generated(report));
    me.Meanwhile();
    var sent := PublishFollowUp(me, peer, plan, report);
    if sent.None? {
      return Failed, start;
    }
    var second := sent.value;
    JoinDistinct(first.value, second);
    r := Completed(first.value, second);
  }
}
