/** How a stored history becomes a materialized one.

    Rows are visited in store order. A row is applied when all its parents are applied and it is
    authorized in the state reached; otherwise it waits. Passes are repeated while one applies
    something, so a row stored before its parent, or before the event that authorizes it, is applied
    in a later pass, after rows that stand behind it in the store.
 */
module Materialization {
  import opened Events
  import opened Workspace

  /** What was applied, in the order of application. */
  datatype Context = Context(state: State, events: seq<Event>)

  const Start := Context(Empty, [])

  function IdSet(events: seq<Event>): set<EventId> {
    set e | e in events :: e.id
  }

  predicate Ready(c: Context, e: Event) {
    e.id !in IdSet(c.events) && forall p :: p in e.parents ==> p in IdSet(c.events)
  }

  predicate Applicable(c: Context, e: Event) {
    Ready(c, e) && Authorized(c.state, e)
  }

  function Applied(c: Context, e: Event): Context {
    Context(Apply(c.state, e), c.events + [e])
  }

  /** One row. */
  function Advance(c: Context, e: Event): Context {
    if Applicable(c, e) then Applied(c, e) else c
  }

  /** One pass over the rows. */
  function Pass(c: Context, rows: seq<Event>): Context {
    if rows == [] then c else Advance(Pass(c, rows[..|rows| - 1]), rows[|rows| - 1])
  }

  /** Passes until one applies nothing. */
  function Rounds(c: Context, rows: seq<Event>): Context
    decreases |IdSet(rows) - IdSet(c.events)|
  {
    var d := Pass(c, rows);
    if d == c then c
    else
      PassProgresses(c, rows);
      Rounds(d, rows)
  }

  function Materialize(rows: seq<Event>): Context {
    Rounds(Start, rows)
  }

  // ---------- passes ----------

  lemma {:induction false} PassConcat(c: Context, a: seq<Event>, b: seq<Event>)
    ensures Pass(c, a + b) == Pass(Pass(c, a), b)
  {
    if b == [] {
      assert a + b == a;
    } else {
      assert (a + b)[..|a + b| - 1] == a + b[..|b| - 1];
      PassConcat(c, a, b[..|b| - 1]);
    }
  }

  lemma PassSnoc(c: Context, rows: seq<Event>, e: Event)
    ensures Pass(c, rows + [e]) == Advance(Pass(c, rows), e)
  {
    assert (rows + [e])[..|rows|] == rows;
  }

  lemma {:induction false} PassExtends(c: Context, rows: seq<Event>)
    ensures c.events <= Pass(c, rows).events
    ensures forall e :: e in Pass(c, rows).events ==> e in c.events || e in rows
    ensures |Pass(c, rows).events| == |c.events| ==> Pass(c, rows) == c
  {
    if rows != [] {
      PassExtends(c, rows[..|rows| - 1]);
    }
  }

  /** What a pass adds is new: no id is applied twice. */
  lemma {:induction false} PassAddsNew(c: Context, rows: seq<Event>)
    ensures forall k :: |c.events| <= k < |Pass(c, rows).events| ==>
              Pass(c, rows).events[k].id !in IdSet(c.events) && Pass(c, rows).events[k] in rows
  {
    if rows != [] {
      var before := rows[..|rows| - 1];
      PassAddsNew(c, before);
      PassExtends(c, before);
      assert IdSet(c.events) <= IdSet(Pass(c, before).events);
    }
  }

  lemma PassProgresses(c: Context, rows: seq<Event>)
    requires Pass(c, rows) != c
    ensures |IdSet(rows) - IdSet(Pass(c, rows).events)| < |IdSet(rows) - IdSet(c.events)|
  {
    var d := Pass(c, rows);
    PassExtends(c, rows);
    PassAddsNew(c, rows);
    var e := d.events[|c.events|];
    assert e in d.events && e in rows && e.id !in IdSet(c.events);
    assert e.id in IdSet(rows) - IdSet(c.events) && e.id !in IdSet(rows) - IdSet(d.events);
    assert IdSet(c.events) <= IdSet(d.events);
    SmallerSet(IdSet(rows) - IdSet(d.events), IdSet(rows) - IdSet(c.events), e.id);
  }

  lemma SmallerSet<T>(a: set<T>, b: set<T>, x: T)
    requires a <= b && x in b && x !in a
    ensures |a| < |b|
  {
    assert a <= b - {x};
    SubsetSize(a, b - {x});
  }

  lemma {:induction false} SubsetSize<T>(a: set<T>, b: set<T>)
    requires a <= b
    ensures |a| <= |b|
  {
    if a != {} {
      var x :| x in a;
      SubsetSize(a - {x}, b - {x});
    }
  }

  // ---------- rounds ----------

  lemma RoundsResume(c: Context, rows: seq<Event>)
    ensures Rounds(c, rows) == Rounds(Pass(c, rows), rows)
  {
  }

  lemma {:induction false} RoundsExtend(c: Context, rows: seq<Event>)
    ensures c.events <= Rounds(c, rows).events
    ensures forall e :: e in Rounds(c, rows).events ==> e in c.events || e in rows
    ensures |Rounds(c, rows).events| == |c.events| ==> Rounds(c, rows) == c
    decreases |IdSet(rows) - IdSet(c.events)|
  {
    var d := Pass(c, rows);
    if d != c {
      PassProgresses(c, rows);
      PassExtends(c, rows);
      RoundsExtend(d, rows);
    }
  }

  /** Nothing that is still waiting could be applied. */
  lemma {:induction false} RoundsEnd(c: Context, rows: seq<Event>)
    ensures Pass(Rounds(c, rows), rows) == Rounds(c, rows)
    decreases |IdSet(rows) - IdSet(c.events)|
  {
    var d := Pass(c, rows);
    if d != c {
      PassProgresses(c, rows);
      RoundsEnd(d, rows);
    }
  }

  /** A pass applies nothing exactly when no row is applicable. */
  lemma {:induction false} IdlePass(c: Context, rows: seq<Event>)
    ensures Pass(c, rows) == c <==> forall e :: e in rows ==> !Applicable(c, e)
  {
    if rows != [] {
      var before, last := rows[..|rows| - 1], rows[|rows| - 1];
      IdlePass(c, before);
      PassExtends(c, before);
      assert rows == before + [last];
      assert forall e :: e in rows <==> e in before || e == last;
      if Pass(c, before) == c {
        assert Pass(c, rows) == Advance(c, last);
      } else {
        PassExtends(c, before);
        assert |Pass(c, rows).events| >= |Pass(c, before).events| > |c.events|;
      }
    }
  }

  // ---------- a materialized history is one run of applications ----------

  function Fold(s: State, events: seq<Event>): State {
    if events == [] then s else Apply(Fold(s, events[..|events| - 1]), events[|events| - 1])
  }

  function Folded(events: seq<Event>): Context {
    Context(Fold(Empty, events), events)
  }

  lemma FoldSnoc(s: State, events: seq<Event>, e: Event)
    ensures Fold(s, events + [e]) == Apply(Fold(s, events), e)
  {
    assert (events + [e])[..|events|] == events;
  }

  lemma {:induction false} FoldConcat(s: State, a: seq<Event>, b: seq<Event>)
    ensures Fold(s, a + b) == Fold(Fold(s, a), b)
  {
    if b == [] {
      assert a + b == a;
    } else {
      assert (a + b)[..|a + b| - 1] == a + b[..|b| - 1];
      FoldConcat(s, a, b[..|b| - 1]);
    }
  }

  /** Every event was applicable where it stands. */
  ghost predicate Linear(events: seq<Event>) {
    forall k :: 0 <= k < |events| ==> Applicable(Folded(events[..k]), events[k])
  }

  lemma LinearPrefix(events: seq<Event>, n: nat)
    requires Linear(events) && n <= |events|
    ensures Linear(events[..n])
  {
    forall k | 0 <= k < n ensures Applicable(Folded(events[..n][..k]), events[..n][k]) {
      assert events[..n][..k] == events[..k];
    }
  }

  lemma LinearSnoc(events: seq<Event>, e: Event)
    requires Linear(events) && Applicable(Folded(events), e)
    ensures Linear(events + [e]) && Folded(events + [e]) == Applied(Folded(events), e)
  {
    var all := events + [e];
    assert all[..|events|] == events;
    forall k | 0 <= k < |all| ensures Applicable(Folded(all[..k]), all[k]) {
      if k < |events| {
        assert all[..k] == events[..k];
      }
    }
  }

  ghost predicate Sound(c: Context) {
    c == Folded(c.events) && Linear(c.events)
  }

  lemma {:induction false} PassIsSound(c: Context, rows: seq<Event>)
    requires Sound(c)
    ensures Sound(Pass(c, rows))
  {
    if rows != [] {
      var before := Pass(c, rows[..|rows| - 1]);
      PassIsSound(c, rows[..|rows| - 1]);
      if Applicable(before, rows[|rows| - 1]) {
        LinearSnoc(before.events, rows[|rows| - 1]);
      }
    }
  }

  lemma {:induction false} RoundsAreSound(c: Context, rows: seq<Event>)
    requires Sound(c)
    ensures Sound(Rounds(c, rows))
    decreases |IdSet(rows) - IdSet(c.events)|
  {
    var d := Pass(c, rows);
    if d != c {
      PassProgresses(c, rows);
      PassIsSound(c, rows);
      RoundsAreSound(d, rows);
    }
  }

  /** What is materialized is stored, each event was applicable in its turn, and no row that is left
      out could be applied. */
  lemma Materialized(rows: seq<Event>)
    ensures var c := Materialize(rows);
            && Sound(c)
            && (forall e :: e in c.events ==> e in rows)
            && (forall e :: e in rows ==> !Applicable(c, e))
  {
    RoundsAreSound(Start, rows);
    RoundsExtend(Start, rows);
    RoundsEnd(Start, rows);
    IdlePass(Materialize(rows), rows);
  }

  /** Applied ids are distinct and every parent stands before its child. */
  lemma LinearFacts(events: seq<Event>)
    requires Linear(events)
    ensures forall i, j :: 0 <= i < j < |events| ==> events[i].id != events[j].id
    ensures forall j, p :: 0 <= j < |events| && p in events[j].parents ==> p in IdSet(events[..j])
  {
    forall i, j | 0 <= i < j < |events| ensures events[i].id != events[j].id {
      assert Applicable(Folded(events[..j]), events[j]);
      assert events[i] in events[..j];
    }
    forall j, p | 0 <= j < |events| && p in events[j].parents ensures p in IdSet(events[..j]) {
      assert Applicable(Folded(events[..j]), events[j]);
    }
  }

  ghost predicate DistinctIds(events: seq<Event>) {
    forall i, j :: 0 <= i < j < |events| ==> events[i].id != events[j].id
  }

  /** A materialized history in brief: the state is the fold of events with distinct ids. */
  lemma MaterializedInBrief(rows: seq<Event>)
    ensures var c := Materialize(rows);
            c.state == Fold(Empty, c.events) && DistinctIds(c.events) && forall e :: e in c.events ==> e in rows
  {
    Materialized(rows);
    LinearFacts(Materialize(rows).events);
  }

  /** The loop: pass after pass over the rows until one changes nothing. */
  method ApplyBatch(rows: seq<Event>) returns (c: Context, gaps: seq<Event>)
    ensures c == Materialize(rows)
    ensures forall e :: e in gaps <==> e in rows && e.id !in IdSet(c.events)
  {
    c := Start;
    var progressed := true;
    while progressed
      invariant Materialize(rows) == Rounds(c, rows)
      invariant !progressed ==> Pass(c, rows) == c
      decreases progressed, |IdSet(rows) - IdSet(c.events)|
    {
      ghost var before := c;
      var i := 0;
      progressed := false;
      while i < |rows|
        invariant 0 <= i <= |rows|
        invariant c == Pass(before, rows[..i])
        invariant progressed <==> c != before
      {
        assert rows[..i + 1] == rows[..i] + [rows[i]];
        PassSnoc(before, rows[..i], rows[i]);
        PassExtends(before, rows[..i]);
        if Applicable(c, rows[i]) {
          c := Applied(c, rows[i]);
          progressed := true;
        }
        i := i + 1;
      }
      assert rows[..i] == rows;
      RoundsResume(before, rows);
      if progressed {
        PassProgresses(before, rows);
      }
    }
    gaps := Filter(rows, (e: Event) => e.id !in IdSet(c.events));
  }

  // ---------- later rows ----------

  /** No row had to wait: one pass applies everything that is ever applied. */
  ghost predicate InOrder(rows: seq<Event>) {
    Materialize(rows) == Pass(Start, rows)
  }

  /** What the first pass applies stays applied, first and in the same order, whatever is stored later. */
  lemma FirstPassStays(rows: seq<Event>, more: seq<Event>)
    ensures Pass(Start, rows).events <= Pass(Start, rows + more).events <= Materialize(rows + more).events
  {
    PassConcat(Start, rows, more);
    PassExtends(Pass(Start, rows), more);
    RoundsResume(Start, rows + more);
    RoundsExtend(Pass(Start, rows + more), rows + more);
  }

  ghost predicate NeverReordered(rows: seq<Event>) {
    forall more :: Materialize(rows).events <= Materialize(rows + more).events
  }

  /** Later rows only ever extend what was materialized if and only if no row had to wait. */
  lemma ExtendsExactlyInOrder(rows: seq<Event>)
    ensures NeverReordered(rows) <==> InOrder(rows)
  {
    if InOrder(rows) {
      forall more ensures Materialize(rows).events <= Materialize(rows + more).events {
        FirstPassStays(rows, more);
      }
    } else {
      var e := Overtaking(rows);
      assert !(Materialize(rows).events <= Materialize(rows + [e]).events);
    }
  }

  /** The first pass is a prefix of the result, and the whole of it when no row had to wait. */
  lemma PassIsPrefix(c: Context, rows: seq<Event>)
    ensures Rounds(c, rows) == Rounds(Pass(c, rows), rows)
    ensures Pass(c, rows).events <= Rounds(c, rows).events
    ensures |Pass(c, rows).events| == |Rounds(c, rows).events| ==> Pass(c, rows) == Rounds(c, rows)
  {
    RoundsResume(c, rows);
    RoundsExtend(Pass(c, rows), rows);
  }

  lemma OvertakingEvent(first: Context, id: EventId) returns (e: Event)
    requires id !in IdSet(first.events) && (first.state.root.Some? ==> first.state.root.value in first.state.members)
    ensures e.id == id && Applicable(first, e)
  {
    if first.state.root.Some? {
      e := Event(id, first.state.root.value, [], Other);
    } else {
      e := Event(id, "", [], WorkspaceCreated);
    }
  }

  /** An event that is applied before a row that had to wait. */
  lemma Overtaking(rows: seq<Event>) returns (e: Event)
    requires !InOrder(rows)
    ensures !(Materialize(rows).events <= Materialize(rows + [e]).events)
  {
    var id := FreshId(Ids(rows));
    assert forall x :: x in rows ==> x.id != id;
    var first := Pass(Start, rows);
    PassIsPrefix(Start, rows);
    PassExtends(Start, rows);
    PassIsSound(Start, rows);
    RootIsMember(first.events);
    e := OvertakingEvent(first, id);
    OvertakerComesFirst(rows, e);
    Materialized(rows);
    assert Materialize(rows).events[|first.events|] in rows;
  }

  lemma OvertakerComesFirst(rows: seq<Event>, e: Event)
    requires Applicable(Pass(Start, rows), e)
    ensures var n := |Pass(Start, rows).events|;
            n < |Materialize(rows + [e]).events| && Materialize(rows + [e]).events[n] == e
  {
    PassSnoc(Start, rows, e);
    FirstPassStays(rows + [e], []);
    assert rows + [e] + [] == rows + [e];
  }

  lemma {:induction false} FreshId(ids: seq<EventId>) returns (id: EventId)
    ensures id !in ids && forall i :: 0 <= i < |ids| ==> |ids[i]| < |id|
  {
    id := "x";
    if ids != [] {
      var shorter := FreshId(ids[1..]);
      id := shorter + ids[0] + "x";
      assert forall i :: 1 <= i < |ids| ==> ids[i] == ids[1..][i - 1];
    }
  }

  lemma {:induction false} RootIsMember(events: seq<Event>)
    requires Linear(events)
    ensures var s := Fold(Empty, events);
            && (s.root.Some? ==> s.root.value in s.members)
            && (s.members != map[] ==> s.root.Some?)
  {
    if events != [] {
      var n := |events| - 1;
      LinearPrefix(events, n);
      RootIsMember(events[..n]);
      assert Applicable(Folded(events[..n]), events[n]);
    }
  }

  /** Rows none of which can be applied before everything in `c` is. */
  ghost predicate Late(c: Context, late: seq<Event>) {
    forall n :: 0 <= n < |c.events| ==> Pass(Folded(c.events[..n]), late) == Folded(c.events[..n])
  }

  lemma {:induction false} LateRoundsFrom(c: Context, rows: seq<Event>, late: seq<Event>)
    requires Sound(c) && Late(Rounds(c, rows), late)
    ensures Rounds(c, rows + late) == Rounds(Pass(Rounds(c, rows), late), rows + late)
    decreases |IdSet(rows) - IdSet(c.events)|
  {
    var d := Pass(c, rows);
    PassConcat(c, rows, late);
    RoundsResume(c, rows + late);
    if d != c {
      PassProgresses(c, rows);
      PassIsPrefix(c, rows);
      PassIsSound(c, rows);
      if |d.events| < |Rounds(c, rows).events| {
        PartialPassIsUnchanged(d, Rounds(c, rows), late);
        LateRoundsFrom(d, rows, late);
      }
    }
  }

  lemma PartialPassIsUnchanged(d: Context, end: Context, late: seq<Event>)
    requires Sound(d) && d.events <= end.events && |d.events| < |end.events| && Late(end, late)
    ensures Pass(d, late) == d
  {
    assert end.events[..|d.events|] == d.events;
  }

  /** Late rows are applied after everything that was materialized without them. */
  lemma LateRows(rows: seq<Event>, late: seq<Event>)
    requires Late(Materialize(rows), late)
    ensures Materialize(rows + late) == Rounds(Pass(Materialize(rows), late), rows + late)
    ensures Pass(Materialize(rows), late).events <= Materialize(rows + late).events
  {
    LateRoundsFrom(Start, rows, late);
    RoundsExtend(Pass(Materialize(rows), late), rows + late);
  }

  /** Heads: the applied events that no applied event names as a parent. */
  function Heads(events: seq<Event>): seq<EventId> {
    HeadsFrom(events, 0)
  }

  function HeadsFrom(events: seq<Event>, i: nat): seq<EventId>
    requires i <= |events|
    decreases |events| - i
  {
    if i == |events| then []
    else
      var rest := HeadsFrom(events, i + 1);
      if exists e :: e in events && events[i].id in e.parents then rest else [events[i].id] + rest
  }

  lemma {:induction false} HeadsFromMembers(events: seq<Event>, i: nat)
    requires i <= |events|
    ensures forall p :: p in HeadsFrom(events, i) <==>
              exists k :: i <= k < |events| && events[k].id == p && !exists e :: e in events && events[k].id in e.parents
    decreases |events| - i
  {
    if i < |events| {
      HeadsFromMembers(events, i + 1);
    }
  }

  lemma LastIsNotBefore(events: seq<Event>, j: nat)
    requires DistinctIds(events) && j < |events|
    ensures events[|events| - 1].id !in IdSet(events[..j])
  {
    forall x | x in events[..j] ensures x.id != events[|events| - 1].id {
      var k :| 0 <= k < j && events[..j][k] == x;
      assert events[k] == x;
    }
  }

  lemma LastIsNoParent(events: seq<Event>, e: Event)
    requires Linear(events) && e in events
    ensures events[|events| - 1].id !in e.parents
  {
    LinearFacts(events);
    var j :| 0 <= j < |events| && events[j] == e;
    LastIsNotBefore(events, j);
  }

  /** The heads are applied, and the event applied last is one of them. */
  lemma HeadsFacts(events: seq<Event>)
    requires Linear(events)
    ensures forall p :: p in Heads(events) ==> p in IdSet(events)
    ensures events != [] ==> events[|events| - 1].id in Heads(events)
  {
    HeadsFromMembers(events, 0);
    if events != [] {
      forall e | e in events ensures events[|events| - 1].id !in e.parents {
        LastIsNoParent(events, e);
      }
    }
  }

  /** A chain of rows that starts on the heads is late. */
  lemma ChainIsLate(c: Context, late: seq<Event>)
    requires Sound(c) && late != [] && (c.events != [] ==> c.events[|c.events| - 1].id in late[0].parents)
    requires forall k :: 1 <= k < |late| ==> late[k - 1].id in late[k].parents
    requires forall k, e :: 0 <= k < |late| && e in c.events ==> late[k].id != e.id
    ensures Late(c, late)
  {
    LinearFacts(c.events);
    forall n | 0 <= n < |c.events|
      ensures Pass(Folded(c.events[..n]), late) == Folded(c.events[..n])
    {
      var d := Folded(c.events[..n]);
      var last := c.events[|c.events| - 1];
      assert last.id !in IdSet(d.events);
      forall e | e in late ensures !Applicable(d, e) {
        var k :| 0 <= k < |late| && late[k] == e;
        if k > 0 {
          assert late[k - 1].id !in IdSet(d.events);
        }
      }
      IdlePass(d, late);
    }
  }

  /** One new event on the heads. */
  lemma OneOnHeads(c: Context, e: Event)
    requires Sound(c) && e.parents == Heads(c.events) && e.id !in IdSet(c.events)
    ensures Late(c, [e]) && Ready(c, e)
  {
    HeadsFacts(c.events);
    forall k, x | 0 <= k < |[e]| && x in c.events ensures [e][k].id != x.id {
      assert x.id in IdSet(c.events);
    }
    ChainIsLate(c, [e]);
  }

  lemma IdsAfter(events: seq<Event>, e: Event)
    ensures IdSet(events + [e]) == IdSet(events) + {e.id}
  {
  }

  lemma PassOfOne(c: Context, e: Event)
    ensures Pass(c, [e]) == Advance(c, e)
  {
    PassSnoc(c, [], e);
    assert [] + [e] == [e];
  }

  // ---------- events written by the local device ----------

  /** No stored row has this id or names it as a parent. */
  ghost predicate Unmentioned(raw: seq<Event>, id: EventId) {
    forall x :: x in raw ==> x.id != id && id !in x.parents
  }

  /** An event written by the local device on the heads of the materialized history. */
  ghost predicate WrittenNow(raw: seq<Event>, e: Event) {
    && Unmentioned(raw, e.id)
    && e.parents == Heads(Materialize(raw).events)
    && Authorized(Materialize(raw).state, e)
  }

  /** It is applied behind everything that was materialized. */
  lemma WrittenIsApplied(raw: seq<Event>, e: Event)
    requires WrittenNow(raw, e)
    ensures Applicable(Materialize(raw), e)
    ensures Materialize(raw + [e]) == Rounds(Applied(Materialize(raw), e), raw + [e])
    ensures Materialize(raw).events + [e] <= Materialize(raw + [e]).events
  {
    NewIdIsUnapplied(raw, e.id);
    Materialized(raw);
    OneOnHeads(Materialize(raw), e);
    LateRows(raw, [e]);
    PassOfOne(Materialize(raw), e);
  }

  lemma NewIdIsUnapplied(raw: seq<Event>, id: EventId)
    requires Unmentioned(raw, id)
    ensures id !in IdSet(Materialize(raw).events)
  {
    MaterializedInBrief(raw);
  }

  /** On a history whose rows are all applied, any event written now is all that is added. */
  lemma WrittenOnComplete(raw: seq<Event>, e: Event)
    requires WrittenNow(raw, e) && IdSet(raw) <= IdSet(Materialize(raw).events)
    ensures Materialize(raw + [e]) == Applied(Materialize(raw), e)
    ensures IdSet(raw + [e]) <= IdSet(Materialize(raw + [e]).events)
  {
    var d := Applied(Materialize(raw), e);
    WrittenIsApplied(raw, e);
    forall x | x in raw + [e] ensures x.id in IdSet(d.events) {
      if x in raw {
        assert x.id in IdSet(raw);
        var y :| y in Materialize(raw).events && y.id == x.id;
        assert y in d.events;
      } else {
        assert e in d.events;
      }
    }
    IdlePass(d, raw + [e]);
  }

  /** An id longer than every id the rows mention. */
  function NewId(raw: seq<Event>): (id: EventId)
    ensures forall x :: x in raw ==> |x.id| < |id| && forall p :: p in x.parents ==> |p| < |id|
  {
    if raw == [] then "x"
    else
      var last := raw[|raw| - 1];
      var rest := NewId(raw[..|raw| - 1]);
      assert forall x :: x in raw ==> x in raw[..|raw| - 1] || x == last;
      Concatenated(last.parents) + last.id + rest
  }

  function Concatenated(ids: seq<EventId>): (r: EventId)
    ensures forall p :: p in ids ==> |p| <= |r|
  {
    if ids == [] then "" else Concatenated(ids[..|ids| - 1]) + ids[|ids| - 1]
  }

  /** There always is an id that no stored row mentions. */
  lemma NewIdIsUnmentioned(raw: seq<Event>)
    ensures Unmentioned(raw, NewId(raw))
  {
  }

  /** What the device writes on the history as it is. */
  function Write(raw: seq<Event>, author: DeviceId, body: Body): Event {
    Event(NewId(raw), author, Heads(Materialize(raw).events), body)
  }

  lemma WriteIsWritten(raw: seq<Event>, author: DeviceId, body: Body)
    requires Authorized(Materialize(raw).state, Event("", author, [], body))
    ensures WrittenNow(raw, Write(raw, author, body))
  {
    NewIdIsUnmentioned(raw);
    AuthorizedByContent(Materialize(raw).state, Write(raw, author, body));
  }

  lemma AuthorizedByContent(s: State, e: Event)
    ensures Authorized(s, e) <==> Authorized(s, Event("", e.author, [], e.body))
  {
  }
}
