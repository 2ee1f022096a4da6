/** Rows stored before their parents, and rows that overtake them: what the passes make of them. */
module RepairedGaps {
  import opened Events
  import opened Workspace
  import opened Materialization

  // ---------- passes over rows one by one ----------

  lemma RowApplies(c: Context, rows: seq<Event>, e: Event)
    requires Applicable(Pass(c, rows), e)
    ensures Pass(c, rows + [e]) == Applied(Pass(c, rows), e)
    ensures IdSet(Pass(c, rows + [e]).events) == IdSet(Pass(c, rows).events) + {e.id}
  {
    PassSnoc(c, rows, e);
    IdsAfter(Pass(c, rows).events, e);
  }

  lemma RowWaits(c: Context, rows: seq<Event>, e: Event)
    requires !Applicable(Pass(c, rows), e)
    ensures Pass(c, rows + [e]) == Pass(c, rows)
  {
    PassSnoc(c, rows, e);
  }

  /** No row can be applied any more. */
  lemma NothingLeft(c: Context, rows: seq<Event>)
    requires forall e :: e in rows ==> !Applicable(c, e)
    ensures Rounds(c, rows) == c
  {
    IdlePass(c, rows);
  }

  lemma NewOnKnownParent(c: Context, e: Event, p: EventId)
    requires e.id !in IdSet(c.events) && e.parents == [p] && p in IdSet(c.events)
    ensures Materialization.Ready(c, e)
  {
  }

  lemma FirstRow(e: Event)
    requires e.body == WorkspaceCreated && e.parents == []
    ensures Pass(Start, [e]) == Applied(Start, e) && IdSet([e]) == {e.id}
  {
    RowApplies(Start, [], e);
    assert [] + [e] == [e];
  }

  // ---------- a row stored before its parent, and one that overtakes it ----------

  /** All rows are applied, `y` could be next, and `x` only after it. */
  ghost predicate Gap(rows: seq<Event>, x: Event, y: Event) {
    var c := Pass(Start, rows);
    c.events == rows && !Applicable(c, x) && Applicable(c, y) && Applicable(Applied(c, y), x)
  }

  lemma AppliedIds(c: Context, e: Event)
    ensures IdSet(Applied(c, e).events) == IdSet(c.events) + {e.id}
  {
    IdsAfter(c.events, e);
  }

  lemma KnownRowsWait(c: Context, rows: seq<Event>)
    requires IdSet(rows) <= IdSet(c.events)
    ensures forall e :: e in rows ==> !Applicable(c, e)
  {
    forall e | e in rows ensures e.id in IdSet(c.events) {
      assert e.id in IdSet(rows);
    }
  }

  lemma GapPass(rows: seq<Event>, x: Event, y: Event)
    requires Gap(rows, x, y)
    ensures Pass(Start, rows + [x] + [y]) == Applied(Pass(Start, rows), y)
  {
    RowWaits(Start, rows, x);
    RowApplies(Start, rows + [x], y);
  }

  /** Stored the wrong way round, both are applied all the same, the child in a second pass. */
  lemma GapIsRepaired(rows: seq<Event>, x: Event, y: Event)
    requires Gap(rows, x, y)
    ensures Materialize(rows + [x] + [y]) == Applied(Applied(Pass(Start, rows), y), x)
  {
    var c, all := Pass(Start, rows), rows + [x] + [y];
    var d := Applied(c, y);
    GapPass(rows, x, y);
    AppliedIds(c, y);
    AppliedIds(d, x);
    KnownRowsWait(d, rows);
    IdlePass(d, rows);
    RowApplies(d, rows, x);
    RowWaits(d, rows + [x], y);
    RoundsResume(Start, all);
    RoundsResume(d, all);
    KnownRowsWait(Applied(d, x), all);
    NothingLeft(Applied(d, x), all);
  }

  /** Rows that are all applied in one pass are the whole result. */
  lemma AllAreApplied(rows: seq<Event>)
    requires Pass(Start, rows).events == rows
    ensures Materialize(rows) == Pass(Start, rows)
  {
    RoundsResume(Start, rows);
    KnownRowsWait(Pass(Start, rows), rows);
    NothingLeft(Pass(Start, rows), rows);
  }

  /** Every row names a parent that is not among these ids. */
  ghost predicate Unmet(rows: seq<Event>, ids: set<EventId>) {
    forall e :: e in rows ==> exists p :: p in e.parents && p !in ids
  }

  lemma UnmetRowsWait(c: Context, rows: seq<Event>, ids: set<EventId>)
    requires Unmet(rows, ids) && IdSet(c.events) <= ids
    ensures forall e :: e in rows ==> !Applicable(c, e)
  {
  }

  lemma PassWithOvertaker(repaired: seq<Event>, late: seq<Event>, z: Event)
    requires Applicable(Pass(Start, repaired), z) && forall e :: e in late ==> !Applicable(Pass(Start, repaired), e)
    ensures Pass(Start, repaired + late + [z]) == Applied(Pass(Start, repaired), z)
  {
    IdlePass(Pass(Start, repaired), late);
    PassConcat(Start, repaired, late);
    RowApplies(Start, repaired + late, z);
  }

  lemma RepairedIds(rows: seq<Event>, x: Event, y: Event, z: Event)
    requires Gap(rows, x, y)
    ensures var d := Applied(Pass(Start, rows), y);
            IdSet(d.events) == IdSet(rows) + {y.id} && IdSet(Applied(d, z).events) == IdSet(rows) + {y.id, z.id}
  {
    AppliedIds(Pass(Start, rows), y);
    AppliedIds(Applied(Pass(Start, rows), y), z);
  }

  /** A row stored last and applied in the first pass can bar the child, and what hangs on the child. */
  lemma GapIsOvertaken(rows: seq<Event>, x: Event, y: Event, late: seq<Event>, z: Event)
    requires Gap(rows, x, y)
    requires var d := Applied(Pass(Start, rows), y); Applicable(d, z) && !Applicable(Applied(d, z), x)
    requires Unmet(late, IdSet(rows) + {y.id, z.id})
    ensures Materialize(rows + [x] + [y] + late + [z]) == Applied(Applied(Pass(Start, rows), y), z)
  {
    var repaired := rows + [x] + [y];
    var d := Applied(Pass(Start, rows), y);
    GapPass(rows, x, y);
    RepairedIds(rows, x, y, z);
    UnmetRowsWait(d, late, IdSet(rows) + {y.id, z.id});
    PassWithOvertaker(repaired, late, z);
    RoundsResume(Start, repaired + late + [z]);
    NothingFollows(rows, x, y, late, z, Applied(d, z));
    NothingLeft(Applied(d, z), repaired + late + [z]);
  }

  lemma NothingFollows(rows: seq<Event>, x: Event, y: Event, late: seq<Event>, z: Event, end: Context)
    requires IdSet(end.events) == IdSet(rows) + {y.id, z.id} && !Applicable(end, x) && Unmet(late, IdSet(end.events))
    ensures forall e :: e in rows + [x] + [y] + late + [z] ==> !Applicable(end, e)
  {
    KnownRowsWait(end, rows);
    UnmetRowsWait(end, late, IdSet(end.events));
    forall e | e in rows + [x] + [y] + late + [z] ensures !Applicable(end, e) {
      assert e in rows || e == x || e == y || e in late || e == z;
    }
  }
}
