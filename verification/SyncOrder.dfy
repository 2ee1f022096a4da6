/** The order in which pulled events are stored, and why a store whose rows never had to wait stays one. */
module SyncOrder {
  import opened Events
  import M = Materialization
  import RepairedGaps
  import opened Sync

  // ---------- order ----------

  ghost predicate Precedes<T(!new)>(s: seq<T>, a: T, b: T) {
    exists i, j :: 0 <= i < j < |s| && s[i] == a && s[j] == b
  }

  lemma PrecedesCons<T(!new)>(x: T, s: seq<T>, a: T, b: T)
    ensures Precedes([x] + s, a, b) <==> (x == a && b in s) || Precedes(s, a, b)
  {
    var all := [x] + s;
    if x == a && b in s {
      var j :| 0 <= j < |s| && s[j] == b;
      assert all[0] == a && all[j + 1] == b;
    }
    if i, j :| 0 <= i < j < |s| && s[i] == a && s[j] == b {
      assert all[i + 1] == a && all[j + 1] == b;
    }
    if i, j :| 0 <= i < j < |all| && all[i] == a && all[j] == b {
      assert s[j - 1] == b;
      if i > 0 {
        assert s[i - 1] == a;
      }
    }
  }

  /** Filtering keeps the order of what stays. */
  lemma {:induction false} FilterPrecedes<T(!new)>(s: seq<T>, p: T -> bool, a: T, b: T)
    requires p(a) && p(b)
    ensures Precedes(Filter(s, p), a, b) <==> Precedes(s, a, b)
  {
    if s != [] {
      FilterPrecedes(s[1..], p, a, b);
      assert s == [s[0]] + s[1..];
      PrecedesCons(s[0], s[1..], a, b);
      PrecedesCons(s[0], Filter(s[1..], p), a, b);
      assert Filter(s, p) == if p(s[0]) then [s[0]] + Filter(s[1..], p) else Filter(s[1..], p);
    }
  }

  lemma JoinPrecedes<T(!new)>(s: seq<T>, t: seq<T>, a: T, b: T)
    ensures a in s && b in s && a !in t && b !in t ==> (Precedes(s + t, a, b) <==> Precedes(s, a, b))
    ensures a in t && b in t && a !in s && b !in s ==> (Precedes(s + t, a, b) <==> Precedes(t, a, b))
    ensures a in s && b in t ==> Precedes(s + t, a, b)
  {
    var all := s + t;
    if a in s && b in t {
      var i :| 0 <= i < |s| && s[i] == a;
      var j :| 0 <= j < |t| && t[j] == b;
      assert all[i] == a && all[|s| + j] == b;
    }
    if i, j :| 0 <= i < j < |s| && s[i] == a && s[j] == b {
      assert all[i] == a && all[j] == b;
    }
    if i, j :| 0 <= i < j < |t| && t[i] == a && t[j] == b {
      assert all[|s| + i] == a && all[|s| + j] == b;
    }
    if i, j :| 0 <= i < j < |all| && all[i] == a && all[j] == b {
      BothSides(s, t, i, j);
    }
  }

  lemma BothSides<T(!new)>(s: seq<T>, t: seq<T>, i: nat, j: nat)
    requires i < j < |s + t|
    ensures (s + t)[i] !in t && (s + t)[j] !in t ==> Precedes(s, (s + t)[i], (s + t)[j])
    ensures (s + t)[i] !in s && (s + t)[j] !in s ==> Precedes(t, (s + t)[i], (s + t)[j])
  {
    var all := s + t;
    if j < |s| {
      assert s[i] == all[i] && s[j] == all[j];
    } else if i >= |s| {
      assert t[i - |s|] == all[i] && t[j - |s|] == all[j];
    }
  }

  /** Fetched events that the extended history materializes are stored first and in its order, whatever
      order they came in; the others follow in the order they came. */
  lemma ArrangedOrder(applied: Materialization, log: seq<EventId>, fetched: seq<EventId>, a: EventId, b: EventId)
    requires a in fetched && b in fetched
    ensures var ready, r := applied(log + fetched), Arranged(applied, log, fetched);
            && (a in ready && b in ready ==> (Precedes(r, a, b) <==> Precedes(ready, a, b)))
            && (a in ready && b !in ready ==> Precedes(r, a, b))
            && (a !in ready && b !in ready ==> (Precedes(r, a, b) <==> Precedes(fetched, a, b)))
  {
    var ready := applied(log + fetched);
    JoinPrecedes(Only(ready, Known(fetched)), Missing(fetched, ready), a, b);
    if a in ready && b in ready {
      FilterPrecedes(ready, (id: EventId) => id in Known(fetched), a, b);
    }
    if a !in ready && b !in ready {
      FilterPrecedes(fetched, (id: EventId) => id !in ready, a, b);
    }
  }

  // ---------- the rows behind the ids ----------

  /** Every id has its row. */
  ghost predicate StoredAs(rows: map<EventId, Event>, ids: seq<EventId>) {
    forall id :: id in ids ==> id in rows && rows[id].id == id
  }

  lemma {:induction false} RowsInOrder(rows: map<EventId, Event>, ids: seq<EventId>)
    requires StoredAs(rows, ids)
    ensures |RowsOf(rows, ids)| == |ids|
    ensures forall k :: 0 <= k < |ids| ==> RowsOf(rows, ids)[k] == rows[ids[k]]
  {
    if ids != [] {
      RowsInOrder(rows, ids[..|ids| - 1]);
    }
  }

  lemma {:induction false} RowsConcat(rows: map<EventId, Event>, a: seq<EventId>, b: seq<EventId>)
    ensures RowsOf(rows, a + b) == RowsOf(rows, a) + RowsOf(rows, b)
  {
    if b == [] {
      assert a + b == a;
    } else {
      assert (a + b)[..|a + b| - 1] == a + b[..|b| - 1];
      RowsConcat(rows, a, b[..|b| - 1]);
    }
  }

  lemma RowsOfIds(rows: map<EventId, Event>, events: seq<Event>)
    requires forall e :: e in events ==> e.id in rows && rows[e.id] == e
    ensures RowsOf(rows, Ids(events)) == events
  {
    assert forall k :: 0 <= k < |events| ==> Ids(events)[k] == events[k].id && events[k] in events;
    RowsInOrder(rows, Ids(events));
  }

  lemma RowIsStored(rows: map<EventId, Event>, ids: seq<EventId>, e: Event)
    requires StoredAs(rows, ids)
    ensures e in RowsOf(rows, ids) <==> e.id in ids && rows[e.id] == e
  {
    RowsInOrder(rows, ids);
    if e in RowsOf(rows, ids) {
      var k :| 0 <= k < |ids| && RowsOf(rows, ids)[k] == e;
    }
    if e.id in ids && rows[e.id] == e {
      var k :| 0 <= k < |ids| && ids[k] == e.id;
      assert RowsOf(rows, ids)[k] == e;
    }
  }

  // ---------- a store stays in order ----------

  /** Events that are applied one after the other are applied in one pass. */
  lemma {:induction false} PassOfLinear(a: seq<Event>, x: seq<Event>)
    requires M.Linear(a + x)
    ensures M.Pass(M.Folded(a), x) == M.Folded(a + x)
  {
    if x == [] {
      assert a + x == a;
    } else {
      var before, last := x[..|x| - 1], x[|x| - 1];
      LinearSplit(a, before, last, x);
      PassOfLinear(a, before);
    }
  }

  lemma LinearSplit(a: seq<Event>, before: seq<Event>, last: Event, x: seq<Event>)
    requires M.Linear(a + x) && x == before + [last]
    ensures M.Linear(a + before) && M.Applicable(M.Folded(a + before), last)
    ensures M.Folded(a + x) == M.Applied(M.Folded(a + before), last)
  {
    var n := |a + before|;
    assert (a + x)[..n] == a + before && (a + x)[n] == last && a + x == (a + before) + [last];
    M.LinearPrefix(a + x, n);
    assert M.Applicable(M.Folded((a + x)[..n]), (a + x)[n]);
    M.FoldSnoc(M.Start.state, a + before, last);
  }

  /** No local row that waited is applied once the fetched rows are there. */
  ghost predicate NoneReleased(local: seq<Event>, fetched: seq<Event>) {
    forall e :: e in local && e in M.Materialize(local + fetched).events ==> e in M.Materialize(local).events
  }

  /** What the fetched rows add to an orderly store that releases nothing. */
  lemma AddedBy(local: seq<Event>, fetched: seq<Event>) returns (x: seq<Event>)
    requires M.InOrder(local) && NoneReleased(local, fetched)
    ensures M.Materialize(local + fetched).events == M.Materialize(local).events + x
    ensures forall e :: e in x ==> e in fetched && e !in M.Materialize(local).events
  {
    var c, m := M.Materialize(local), M.Materialize(local + fetched);
    M.FirstPassStays(local, fetched);
    M.Materialized(local + fetched);
    M.LinearFacts(m.events);
    x := m.events[|c.events|..];
    assert m.events == c.events + x;
    forall e | e in x ensures e in fetched && e !in c.events {
      NewBehind(c.events, m.events, e);
      assert e in m.events && e in local + fetched;
    }
  }

  lemma NewBehind(a: seq<Event>, all: seq<Event>, e: Event)
    requires a <= all && M.DistinctIds(all) && e in all[|a|..]
    ensures e !in a && e in all
  {
    var k :| 0 <= k < |all[|a|..]| && all[|a|..][k] == e;
    assert all[|a| + k] == e;
    forall j | 0 <= j < |a| ensures a[j] != e {
      assert all[j] == a[j] && all[j].id != all[|a| + k].id;
    }
  }

  /** Storing what was added, and then the rest, applies everything at once. */
  lemma StoredInOrder(local: seq<Event>, fetched: seq<Event>, x: seq<Event>, rest: seq<Event>)
    requires M.InOrder(local) && M.Materialize(local + fetched).events == M.Materialize(local).events + x
    requires forall e :: e in x || e in rest ==> e in fetched
    ensures M.Pass(M.Start, local + (x + rest)) == M.Materialize(local + fetched)
    ensures M.Materialize(local + (x + rest)) == M.Materialize(local + fetched)
  {
    var c, m := M.Materialize(local), M.Materialize(local + fetched);
    var all := local + (x + rest);
    M.Materialized(local);
    M.Materialized(local + fetched);
    PassOfLinear(c.events, x);
    M.PassConcat(M.Start, local, x + rest);
    M.PassConcat(c, x, rest);
    M.IdlePass(m, rest);
    forall e | e in all ensures !M.Applicable(m, e) {
      assert e in local || e in fetched;
    }
    M.RoundsResume(M.Start, all);
    RepairedGaps.NothingLeft(m, all);
  }

  /** Conversely, if the arranged store is in order and materializes the same, nothing was released. */
  lemma OrderedReleasesNothing(local: seq<Event>, fetched: seq<Event>, arranged: seq<Event>)
    requires M.InOrder(local) && M.InOrder(local + arranged)
    requires M.Materialize(local + arranged) == M.Materialize(local + fetched)
    requires forall e, f :: e in local && f in arranged ==> e.id != f.id
    ensures NoneReleased(local, fetched)
  {
    var c, m := M.Materialize(local), M.Materialize(local + fetched);
    M.PassConcat(M.Start, local, arranged);
    M.PassExtends(c, arranged);
    forall e | e in local && e in m.events ensures e in c.events {
      assert e in c.events || e in arranged;
    }
  }

  lemma ArrangedIds(rows: map<EventId, Event>, log: seq<EventId>, fetched: seq<EventId>, x: seq<Event>)
    requires StoredAs(rows, log + fetched) && NoDuplicates(log + fetched)
    requires var local := RowsOf(rows, log);
             M.Materialize(local + RowsOf(rows, fetched)).events == M.Materialize(local).events + x
    requires forall e :: e in x ==> e in RowsOf(rows, fetched)
    ensures Only(Applying(rows)(log + fetched), Known(fetched)) == Ids(x)
  {
    RowsConcat(rows, log, fetched);
    var c := M.Materialize(RowsOf(rows, log)).events;
    IdsConcat(c, x);
    LocalIdsAreNotFetched(rows, log, fetched);
    FetchedIdsAre(rows, fetched, x);
    KeepSecond(Ids(c), Ids(x), Known(fetched));
  }

  lemma IdsConcat(a: seq<Event>, b: seq<Event>)
    ensures Ids(a + b) == Ids(a) + Ids(b)
  {
  }

  lemma LocalIdsAreNotFetched(rows: map<EventId, Event>, log: seq<EventId>, fetched: seq<EventId>)
    requires NoDuplicates(log + fetched)
    ensures forall id :: id in Ids(M.Materialize(RowsOf(rows, log)).events) ==> id !in Known(fetched)
  {
    var c := M.Materialize(RowsOf(rows, log)).events;
    M.MaterializedInBrief(RowsOf(rows, log));
    RowsOfMembers(rows, log);
    forall id | id in Ids(c) ensures id !in Known(fetched) {
      var k :| 0 <= k < |c| && Ids(c)[k] == id;
      assert c[k] in c && c[k].id in log;
      NotInBoth(log, fetched, id);
    }
  }

  lemma FetchedIdsAre(rows: map<EventId, Event>, fetched: seq<EventId>, x: seq<Event>)
    requires forall e :: e in x ==> e in RowsOf(rows, fetched)
    ensures forall id :: id in Ids(x) ==> id in Known(fetched)
  {
    RowsOfMembers(rows, fetched);
    forall id | id in Ids(x) ensures id in Known(fetched) {
      var k :| 0 <= k < |x| && Ids(x)[k] == id;
      assert x[k] in x;
    }
  }

  lemma KeepSecond(a: seq<EventId>, b: seq<EventId>, wanted: set<EventId>)
    requires (forall id :: id in a ==> id !in wanted) && forall id :: id in b ==> id in wanted
    ensures Only(a + b, wanted) == b
  {
    FilterOfBoth(a, b, (id: EventId) => id in wanted);
    FilterNone(a, (id: EventId) => id in wanted);
    FilterAll(b, (id: EventId) => id in wanted);
  }

  lemma NotInBoth(a: seq<EventId>, b: seq<EventId>, id: EventId)
    requires NoDuplicates(a + b) && id in a
    ensures id !in b
  {
    var i :| 0 <= i < |a| && a[i] == id;
    forall j | 0 <= j < |b| ensures b[j] != id {
      assert (a + b)[i] == id && (a + b)[|a| + j] == b[j];
    }
  }

  lemma {:induction false} FilterOfBoth<T(!new)>(a: seq<T>, b: seq<T>, p: T -> bool)
    ensures Filter(a + b, p) == Filter(a, p) + Filter(b, p)
  {
    if a == [] {
      assert a + b == b;
    } else {
      assert (a + b)[1..] == a[1..] + b;
      FilterOfBoth(a[1..], b, p);
    }
  }

  lemma {:induction false} FilterNone<T(!new)>(s: seq<T>, p: T -> bool)
    requires forall x :: x in s ==> !p(x)
    ensures Filter(s, p) == []
  {
    if s != [] {
      FilterNone(s[1..], p);
    }
  }

  lemma {:induction false} FilterAll<T(!new)>(s: seq<T>, p: T -> bool)
    requires forall x :: x in s ==> p(x)
    ensures Filter(s, p) == s
  {
    if s != [] {
      FilterAll(s[1..], p);
    }
  }

  /** The rows that a pull appends. */
  function PulledRows(rows: map<EventId, Event>, log: seq<EventId>, fetched: seq<EventId>): seq<Event> {
    RowsOf(rows, Arranged(Applying(rows), log, fetched))
  }

  lemma PulledRowsAre(rows: map<EventId, Event>, log: seq<EventId>, fetched: seq<EventId>, x: seq<Event>)
    requires StoredAs(rows, log + fetched) && NoDuplicates(log + fetched)
    requires var local := RowsOf(rows, log);
             M.Materialize(local + RowsOf(rows, fetched)).events == M.Materialize(local).events + x
    requires forall e :: e in x ==> e in RowsOf(rows, fetched)
    ensures PulledRows(rows, log, fetched) == x + RowsOf(rows, Missing(fetched, Applying(rows)(log + fetched)))
  {
    ArrangedIds(rows, log, fetched, x);
    RowsConcat(rows, Ids(x), Missing(fetched, Applying(rows)(log + fetched)));
    StoredParts(rows, log, fetched);
    forall e | e in x ensures e.id in rows && rows[e.id] == e {
      RowIsStored(rows, fetched, e);
    }
    RowsOfIds(rows, x);
  }

  lemma StoredParts(rows: map<EventId, Event>, log: seq<EventId>, fetched: seq<EventId>)
    requires StoredAs(rows, log + fetched)
    ensures StoredAs(rows, log) && StoredAs(rows, fetched)
  {
    assert forall id :: id in log ==> id in log + fetched;
    assert forall id :: id in fetched ==> id in log + fetched;
  }

  lemma RestIsFetched(rows: map<EventId, Event>, fetched: seq<EventId>, ids: seq<EventId>)
    requires StoredAs(rows, fetched) && forall id :: id in ids ==> id in fetched
    ensures forall e :: e in RowsOf(rows, ids) ==> e in RowsOf(rows, fetched)
  {
    forall e | e in RowsOf(rows, ids) ensures e in RowsOf(rows, fetched) {
      RowIsStored(rows, ids, e);
      RowIsStored(rows, fetched, e);
    }
  }

  lemma PulledDiffer(rows: map<EventId, Event>, log: seq<EventId>, fetched: seq<EventId>)
    requires NoDuplicates(log + fetched)
    ensures forall e, f :: e in RowsOf(rows, log) && f in PulledRows(rows, log, fetched) ==> e.id != f.id
  {
    var arranged := Arranged(Applying(rows), log, fetched);
    forall e, f | e in RowsOf(rows, log) && f in PulledRows(rows, log, fetched) ensures e.id != f.id {
      RowsOfMembers(rows, log);
      RowsOfMembers(rows, arranged);
      assert f.id in fetched;
      NotInBoth(log, fetched, e.id);
    }
  }

  /** A store in which no row had to wait stays one by a pull, and materializes what the extended
      history does, exactly when the fetched events release no local event that was waiting. */
  lemma PullStaysInOrder(rows: map<EventId, Event>, log: seq<EventId>, fetched: seq<EventId>)
    requires StoredAs(rows, log + fetched) && NoDuplicates(log + fetched) && M.InOrder(RowsOf(rows, log))
    ensures var local, arrived, stored := RowsOf(rows, log), RowsOf(rows, fetched), PulledRows(rows, log, fetched);
            (M.InOrder(local + stored) && M.Materialize(local + stored) == M.Materialize(local + arrived))
            <==> NoneReleased(local, arrived)
  {
    var local, arrived, stored := RowsOf(rows, log), RowsOf(rows, fetched), PulledRows(rows, log, fetched);
    if NoneReleased(local, arrived) {
      var x := AddedBy(local, arrived);
      PulledRowsAre(rows, log, fetched, x);
      StoredParts(rows, log, fetched);
      RestIsFetched(rows, fetched, Missing(fetched, Applying(rows)(log + fetched)));
      StoredInOrder(local, arrived, x, RowsOf(rows, Missing(fetched, Applying(rows)(log + fetched))));
    }
    if M.InOrder(local + stored) && M.Materialize(local + stored) == M.Materialize(local + arrived) {
      PulledDiffer(rows, log, fetched);
      OrderedReleasesNothing(local, arrived, stored);
    }
  }

  /** In particular when every local event is materialized: then whatever is fetched, and in whatever
      order, the store stays in order. */
  lemma PullWithoutGapsStaysInOrder(rows: map<EventId, Event>, log: seq<EventId>, fetched: seq<EventId>)
    requires StoredAs(rows, log + fetched) && NoDuplicates(log + fetched) && M.InOrder(RowsOf(rows, log))
    requires NoGaps(Applying(rows), log)
    ensures M.InOrder(RowsOf(rows, log + Arranged(Applying(rows), log, fetched)))
  {
    var local := RowsOf(rows, log);
    StoredParts(rows, log, fetched);
    M.MaterializedInBrief(local);
    forall e | e in local ensures e in M.Materialize(local).events {
      RowIsStored(rows, log, e);
      assert e.id in Applying(rows)(log);
      var events := M.Materialize(local).events;
      var k :| 0 <= k < |events| && Ids(events)[k] == e.id;
      assert events[k] in local;
      RowIsStored(rows, log, events[k]);
    }
    PullStaysInOrder(rows, log, fetched);
    RowsConcat(rows, log, Arranged(Applying(rows), log, fetched));
  }

  // ---------- a local row that waited is released ----------

  lemma OneOfOne(r: seq<EventId>, id: EventId)
    requires NoDuplicates(r) && forall x :: x in r <==> x == id
    ensures r == [id]
  {
    assert id in r;
    forall i | 0 <= i < |r| ensures r[i] == id {
      assert r[i] in r;
    }
    assert r[|r| - 1] == r[0];
  }

  lemma ParentIsArranged(p: Event, c: Event)
    requires ParentAndChild(p, c)
    ensures [c.id] + Arranged(Applying(TwoRows(p, c)), [c.id], [p.id]) == [c.id, p.id]
  {
    ApplyingIsSound(TwoRows(p, c));
    ArrangedPermutes(Applying(TwoRows(p, c)), [c.id], [p.id]);
    OneOfOne(Arranged(Applying(TwoRows(p, c)), [c.id], [p.id]), p.id);
  }

  /** Materializing everything afterwards is not enough: the local child was stored before its parent,
      and stays before it when the parent is fetched. */
  lemma ReleasedChildBreaksOrder(p: Event, c: Event)
    requires ParentAndChild(p, c)
    ensures var rows := TwoRows(p, c); var stored := [c.id] + Arranged(Applying(rows), [c.id], [p.id]);
            && M.InOrder(RowsOf(rows, [c.id])) && NoGaps(Applying(rows), stored) && !M.InOrder(RowsOf(rows, stored))
  {
    ParentIsArranged(p, c);
    RowsOfPair(p, c);
    RowsOfChild(p, c);
    BothApplied(p, c);
    ChildIsReleased(p, c);
  }

  lemma ChildIsReleased(p: Event, c: Event)
    requires ParentAndChild(p, c)
    ensures M.InOrder([c]) && !M.InOrder([c, p])
  {
    ChildAlone(p, c);
    M.PassOfOne(M.Start, c);
    M.FirstPassStays([c], [p]);
    assert p.id in c.parents;
    PairIsApplied(p, c);
    M.PassConcat(M.Start, [c], [p]);
    assert [c] + [p] == [c, p];
    M.PassOfOne(M.Start, p);
    assert M.Pass(M.Start, [c, p]) == M.Advance(M.Start, p);
  }

  lemma RowsOfChild(p: Event, c: Event)
    requires ParentAndChild(p, c)
    ensures RowsOf(TwoRows(p, c), [c.id]) == [c]
  {
    assert [c.id][..0] == [];
  }
}
