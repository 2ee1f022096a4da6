/** When does a granted claim stay applied, whatever is stored later?

    Exactly when no row of the history it was decided on had to wait. Otherwise later rows can be
    applied before the claim's own and take away the authority it needs.
 */
module ClaimPermanence {
  import opened Events
  import opened Workspace
  import opened Materialization
  import opened InviteClaims

  // ---------- a workspace that lost all its admins ----------

  function Admins(s: State): set<DeviceId> {
    set d | d in s.members && Privileged(s.members[d].role)
  }

  /** The workspace exists and nobody administers it. */
  ghost predicate Orphaned(s: State) {
    s.root.Some? && Admins(s) == {}
  }

  /** Nothing that is authorized there makes an admin, and no claim is authorized. */
  lemma OrphanStep(s: State, e: Event)
    requires Orphaned(s) && Authorized(s, e)
    ensures Orphaned(Apply(s, e)) && !e.body.InviteClaimed?
  {
    assert IsAdmin(s, e.author) ==> e.author in Admins(s);
    assert Apply(s, e).members.Keys <= s.members.Keys;
    assert forall d :: d in Apply(s, e).members ==> Apply(s, e).members[d] == s.members[d];
    assert Admins(Apply(s, e)) <= Admins(s);
  }

  /** What is applied behind the first `n` events claims nothing. */
  ghost predicate NoClaimsFrom(events: seq<Event>, n: nat) {
    forall k :: n <= k < |events| ==> !events[k].body.InviteClaimed?
  }

  lemma {:induction false} OrphanPass(c: Context, rows: seq<Event>)
    requires Orphaned(c.state)
    ensures Orphaned(Pass(c, rows).state) && NoClaimsFrom(Pass(c, rows).events, |c.events|)
  {
    if rows != [] {
      var before, last := Pass(c, rows[..|rows| - 1]), rows[|rows| - 1];
      OrphanPass(c, rows[..|rows| - 1]);
      if Applicable(before, last) {
        OrphanStep(before.state, last);
      }
    }
  }

  lemma {:induction false} OrphanRounds(c: Context, rows: seq<Event>)
    requires Orphaned(c.state)
    ensures NoClaimsFrom(Rounds(c, rows).events, |c.events|)
    decreases |IdSet(rows) - IdSet(c.events)|
  {
    var d := Pass(c, rows);
    if d != c {
      PassProgresses(c, rows);
      PassExtends(c, rows);
      OrphanPass(c, rows);
      OrphanRounds(d, rows);
      RoundsExtend(d, rows);
      SplitClaims(c, d, Rounds(d, rows));
    }
  }

  lemma SplitClaims(c: Context, d: Context, end: Context)
    requires c.events <= d.events <= end.events
    requires NoClaimsFrom(d.events, |c.events|) && NoClaimsFrom(end.events, |d.events|)
    ensures NoClaimsFrom(end.events, |c.events|)
  {
    forall k | |c.events| <= k < |end.events| ensures !end.events[k].body.InviteClaimed? {
      if k < |d.events| {
        assert end.events[k] == d.events[k];
      }
    }
  }

  // ---------- rows that make it so ----------

  /** The admin `a` makes itself a guest. */
  function Resigns(id: EventId, a: DeviceId): Event {
    Event(id, a, [], MemberInvited(a, Guest))
  }

  lemma ResignIsApplied(c: Context, id: EventId, a: DeviceId)
    requires id !in IdSet(c.events) && c.state.root.Some? && a in Admins(c.state)
    ensures Applicable(c, Resigns(id, a))
    ensures var s := Applied(c, Resigns(id, a)).state;
            s.root.Some? && Admins(s) == Admins(c.state) - {a}
  {
    var s := Applied(c, Resigns(id, a)).state;
    assert s.members == c.state.members[a := Member(Guest, id)];
  }

  /** New rows after which nobody is an admin. */
  lemma {:induction false} Resignations(c: Context, taken: seq<EventId>) returns (rows: seq<Event>)
    requires c.state.root.Some? && forall e :: e in c.events ==> e.id in taken
    ensures Orphaned(Pass(c, rows).state)
    ensures DistinctIds(rows) && forall e :: e in rows ==> e.id !in taken && !e.body.InviteClaimed?
    decreases |Admins(c.state)|
  {
    rows := [];
    if Admins(c.state) != {} {
      var a :| a in Admins(c.state);
      var id := FreshId(taken);
      var e := Resigns(id, a);
      assert id !in IdSet(c.events);
      ResignIsApplied(c, id, a);
      SmallerSet(Admins(c.state) - {a}, Admins(c.state), a);
      var rest := Resignations(Applied(c, e), taken + [id]);
      rows := [e] + rest;
      PassConcat(c, [e], rest);
      PassOfOne(c, e);
    }
  }

  // ---------- a history with a row that had to wait ----------

  lemma {:induction false} AppliedMeansRoot(events: seq<Event>)
    requires Linear(events) && events != []
    ensures Fold(Empty, events).root.Some?
  {
    var n := |events| - 1;
    LinearPrefix(events, n);
    assert Applicable(Folded(events[..n]), events[n]);
    if n > 0 {
      AppliedMeansRoot(events[..n]);
    } else {
      assert Fold(Empty, events[..n]) == Empty;
    }
  }

  /** Its first pass is a proper part of the result, and not empty. */
  lemma WaitingMeans(log: seq<Event>)
    requires !InOrder(log)
    ensures var first := Pass(Start, log);
            && Sound(first) && first.state.root.Some?
            && first.events <= Materialize(log).events && |first.events| < |Materialize(log).events|
  {
    var first := Pass(Start, log);
    PassIsSound(Start, log);
    PassIsPrefix(Start, log);
    PassExtends(Start, log);
    assert first.events != [] by {
      RoundsResume(Start, log);
    }
    AppliedMeansRoot(first.events);
  }

  lemma {:induction false} RootStays(c: Context, rows: seq<Event>)
    requires c.state.root.Some?
    ensures Pass(c, rows).state.root.Some?
  {
    if rows != [] {
      RootStays(c, rows[..|rows| - 1]);
    }
  }

  /** The claim's rows wait in the first pass, because they hang on a row that waits. */
  lemma TripleWaitsToo(log: seq<Event>, c: Claim, local: DeviceId, expiry: Expiry, role: Role, minted: Minted)
    requires AcceptedOn(log, c, local, expiry, role, minted) && !InOrder(log)
    ensures Pass(Start, WithTriple(log, c, local, role, minted)) == Pass(Start, log)
  {
    var t := Triple(Materialize(log), c, local, role, minted);
    TripleIsLate(log, c, local, role, minted);
    WaitingMeans(log);
    PartialPassIsUnchanged(Pass(Start, log), Materialize(log), t);
    PassConcat(Start, log, t);
  }

  /** No row of these has the id of the claim. */
  ghost predicate OtherIds(rows: seq<Event>, id: EventId) {
    forall e :: e in rows ==> e.id != id
  }

  /** After the first pass over everything stored up to now, the claim is not applied. */
  lemma ClaimIsStillWaiting(log: seq<Event>, c: Claim, local: DeviceId, expiry: Expiry, role: Role, minted: Minted, rest: seq<Event>)
    requires AcceptedOn(log, c, local, expiry, role, minted) && !InOrder(log) && OtherIds(rest, minted.claim)
    ensures var now := Pass(Start, WithTriple(log, c, local, role, minted) + rest);
            now.state.root.Some? && OtherIds(now.events, minted.claim)
  {
    var all := WithTriple(log, c, local, role, minted);
    TripleWaitsToo(log, c, local, expiry, role, minted);
    PassConcat(Start, all, rest);
    WaitingMeans(log);
    PassExtends(Start, log);
    RootStays(Pass(Start, log), rest);
    PassExtends(Pass(Start, log), rest);
  }

  lemma ClaimNeverApplies(stored: seq<Event>, more: seq<Event>, claim: Event)
    requires OtherIds(Pass(Start, stored).events, claim.id) && OtherIds(more, claim.id) && claim.body.InviteClaimed?
    requires Orphaned(Pass(Start, stored + more).state)
    ensures claim !in Materialize(stored + more).events
  {
    var all := stored + more;
    var d := Pass(Start, all);
    PassConcat(Start, stored, more);
    PassExtends(Pass(Start, stored), more);
    RoundsResume(Start, all);
    RoundsExtend(d, all);
    OrphanRounds(d, all);
    forall k | 0 <= k < |Materialize(all).events| ensures Materialize(all).events[k] != claim {
      if k < |d.events| {
        assert d.events[k] in d.events && Materialize(all).events[k] == d.events[k];
      }
    }
  }

  /** Rows under new ids that undo the claim, whatever was stored behind it. */
  lemma UndoingRows(log: seq<Event>, c: Claim, local: DeviceId, expiry: Expiry, role: Role, minted: Minted, rest: seq<Event>)
    returns (more: seq<Event>)
    requires AcceptedOn(log, c, local, expiry, role, minted) && !InOrder(log) && OtherIds(rest, minted.claim)
    ensures var stored := WithTriple(log, c, local, role, minted) + rest;
            && NewRows(stored, more)
            && Triple(Materialize(log), c, local, role, minted)[2] !in Materialize(stored + more).events
  {
    var t := Triple(Materialize(log), c, local, role, minted);
    var stored := WithTriple(log, c, local, role, minted) + rest;
    ClaimIsStillWaiting(log, c, local, expiry, role, minted, rest);
    PassExtends(Start, stored);
    TakenIds(stored, Pass(Start, stored).events);
    more := Resignations(Pass(Start, stored), Ids(stored));
    PassConcat(Start, stored, more);
    NewIdsAreNewRows(stored, more);
    assert stored[|log| + 2] == t[2];
    assert OtherIds(more, t[2].id);
    ClaimNeverApplies(stored, more, t[2]);
  }

  lemma TakenIds(stored: seq<Event>, events: seq<Event>)
    requires forall e :: e in events ==> e in stored
    ensures forall e :: e in events ==> e.id in Ids(stored)
  {
    forall e | e in events ensures e.id in Ids(stored) {
      var i :| 0 <= i < |stored| && stored[i] == e;
      assert Ids(stored)[i] == e.id;
    }
  }

  lemma NewIdsAreNewRows(stored: seq<Event>, more: seq<Event>)
    requires DistinctIds(more) && forall e :: e in more ==> e.id !in Ids(stored)
    ensures NewRows(stored, more)
  {
    forall i, x | 0 <= i < |more| && x in stored ensures more[i].id != x.id {
      var j :| 0 <= j < |stored| && stored[j] == x;
      assert Ids(stored)[j] == x.id && more[i] in more;
    }
  }

  // ---------- one claim ----------

  /** The claim stays applied, whatever rows are stored behind it. */
  ghost predicate StaysApplied(log: seq<Event>, c: Claim, local: DeviceId, role: Role, minted: Minted) {
    forall more :: NewRows(WithTriple(log, c, local, role, minted), more) ==>
      Triple(Materialize(log), c, local, role, minted)[2]
      in Materialize(WithTriple(log, c, local, role, minted) + more).events
  }

  /** An accepted claim stays applied in every later history if and only if no row of the history it
      was accepted on had to wait. */
  lemma AcceptedStaysExactly(log: seq<Event>, c: Claim, local: DeviceId, expiry: Expiry, role: Role, minted: Minted)
    requires AcceptedOn(log, c, local, expiry, role, minted)
    ensures StaysApplied(log, c, local, role, minted) <==> InOrder(log)
  {
    var t := Triple(Materialize(log), c, local, role, minted);
    var all := WithTriple(log, c, local, role, minted);
    if InOrder(log) {
      forall more | NewRows(all, more) ensures t[2] in Materialize(all + more).events {
        AcceptedStays(log, c, local, expiry, role, minted, more);
        InPrefix(Materialize(log).events, t, Materialize(all + more).events);
      }
    } else {
      var more := UndoingRows(log, c, local, expiry, role, minted, []);
      assert all + [] == all;
    }
  }

  // ---------- all claims of a run ----------

  lemma DistinctSnoc(log: seq<Event>, e: Event)
    requires DistinctIds(log) && forall x :: x in log ==> x.id != e.id
    ensures DistinctIds(log + [e])
  {
  }

  lemma TripleIsDistinct(log: seq<Event>, c: Claim, local: DeviceId, role: Role, minted: Minted)
    requires DistinctIds(log) && FreshFor(minted, log)
    ensures DistinctIds(WithTriple(log, c, local, role, minted))
  {
    var t := Triple(Materialize(log), c, local, role, minted);
    DistinctSnoc(log, t[0]);
    DistinctSnoc(log + [t[0]], t[1]);
    DistinctSnoc(log + [t[0]] + [t[1]], t[2]);
    ThreeSnocs(log, t);
  }

  lemma StepKeepsDistinct(s: System, a: Action)
    requires Inv(s) && Enabled(s, a) && DistinctIds(s.log)
    ensures DistinctIds(Perform(s, a).log) && s.log <= Perform(s, a).log
  {
    if a.OtherAppend? {
      DistinctSnoc(s.log, a.e);
    } else if a.Append? && Ids(s.log) == s.procs[a.p].phase.ids {
      var q := s.procs[a.p];
      assert ProcessOk(s, q);
      UnchangedIdsMeanUnchangedLog(s.log, q);
      TripleIsDistinct(s.log, q.claim, s.local, q.phase.role, q.phase.minted);
    }
  }

  lemma {:induction false} RunKeepsDistinct(s: System, run: seq<Action>)
    requires Inv(s) && IsRun(s, run) && DistinctIds(s.log)
    ensures DistinctIds(After(s, run).log) && s.log <= After(s, run).log
    decreases |run|
  {
    if run != [] {
      StepKeeps(s, run[0]);
      StepKeepsDistinct(s, run[0]);
      RunKeepsDistinct(Perform(s, run[0]), run[1..]);
    }
  }

  /** However the run goes on, every claim granted so far stays applied. */
  ghost predicate GrantsStayApplied(s: System) {
    forall next, k :: IsRun(s, next) && 0 <= k < |s.grants| ==>
      s.grants[k].at + 3 <= |s.log| && s.log[s.grants[k].at + 2] in Materialize(After(s, next).log).events
  }

  /** One grant that was decided on a history with a row that had to wait can be undone. */
  lemma GrantCanBeUndone(local: DeviceId, log: seq<Event>, g: Grant) returns (more: seq<Event>)
    requires GrantOk(local, log, g) && DistinctIds(log) && !InOrder(log[..g.at])
    ensures NewRows(log, more) && log[g.at + 2] !in Materialize(log + more).events
  {
    var expiry := Current;
    GrantSplits(local, log, g);
    more := UndoingRows(log[..g.at], g.claim, local, expiry, g.role, g.minted, log[g.at + 3..]);
  }

  /** The store around a grant. */
  lemma GrantSplits(local: DeviceId, log: seq<Event>, g: Grant)
    requires GrantOk(local, log, g) && DistinctIds(log)
    ensures log == WithTriple(log[..g.at], g.claim, local, g.role, g.minted) + log[g.at + 3..]
    ensures log[g.at + 2] == Triple(Materialize(log[..g.at]), g.claim, local, g.role, g.minted)[2]
    ensures OtherIds(log[g.at + 3..], g.minted.claim)
  {
    GrantSlice(local, log, g);
    assert log == log[..g.at + 3] + log[g.at + 3..];
    assert log[g.at + 2] == log[g.at..g.at + 3][2];
    RestHasOtherIds(log, g.at + 2);
  }

  lemma RestHasOtherIds(log: seq<Event>, k: nat)
    requires DistinctIds(log) && k < |log|
    ensures OtherIds(log[k + 1..], log[k].id)
  {
  }

  lemma OrderlyGrantStaysIn(local: DeviceId, log: seq<Event>, more: seq<Event>, g: Grant)
    requires GrantOk(local, log, g) && InOrder(log[..g.at])
    ensures log[g.at + 2] in Materialize(log + more).events
  {
    var all := log + more;
    GrantStays(local, log, more, g);
    assert all[..g.at] == log[..g.at] && all[..|all|] == all;
    OrderlyGrantStays(local, all, g, |all|);
  }

  lemma LogOnlyGrows(s: System, next: seq<Action>) returns (more: seq<Event>)
    requires Inv(s) && DistinctIds(s.log) && IsRun(s, next)
    ensures After(s, next).log == s.log + more
  {
    RunKeepsDistinct(s, next);
    more := After(s, next).log[|s.log|..];
  }

  lemma OrderlyGrantsStay(s: System, k: nat)
    requires Inv(s) && OrderlyGrants(s.log, s.grants) && k < |s.grants|
    ensures s.grants[k].at + 3 <= |s.log|
    ensures forall more :: s.log[s.grants[k].at + 2] in Materialize(s.log + more).events
  {
    assert GrantOk(s.local, s.log, s.grants[k]);
    forall more ensures s.log[s.grants[k].at + 2] in Materialize(s.log + more).events {
      OrderlyGrantStaysIn(s.local, s.log, more, s.grants[k]);
    }
  }

  lemma AllOrderlyGrantsStay(s: System)
    requires Inv(s) && DistinctIds(s.log) && OrderlyGrants(s.log, s.grants)
    ensures GrantsStayApplied(s)
  {
    forall next, k | IsRun(s, next) && 0 <= k < |s.grants|
      ensures s.grants[k].at + 3 <= |s.log| && s.log[s.grants[k].at + 2] in Materialize(After(s, next).log).events
    {
      OrderlyGrantsStay(s, k);
      var more := LogOnlyGrows(s, next);
    }
  }

  lemma SomeGrantCanBeUndone(s: System, k: nat)
    requires Inv(s) && DistinctIds(s.log) && k < |s.grants| && s.grants[k].at <= |s.log| && !InOrder(s.log[..s.grants[k].at])
    ensures !GrantsStayApplied(s)
  {
    assert GrantOk(s.local, s.log, s.grants[k]);
    var more := GrantCanBeUndone(s.local, s.log, s.grants[k]);
    OthersAppendRows(s, more);
    assert IsRun(s, Appends(more)) && 0 <= k < |s.grants|;
  }

  /** After any run with arbitrary other appends: the claims granted so far stay applied however the
      run goes on if and only if none of them was decided on a history with a row that had to wait. */
  lemma GrantsStayExactly(local: DeviceId, run: seq<Action>)
    requires IsRun(System(local, [], map[], []), run)
    ensures var s := After(System(local, [], map[], []), run);
            GrantsStayApplied(s) <==> OrderlyGrants(s.log, s.grants)
  {
    var empty := System(local, [], map[], []);
    InitOk(local);
    RunKeeps(empty, run);
    RunKeepsDistinct(empty, run);
    var s := After(empty, run);
    GrantsEndBy(s.local, s.log, s.grants);
    if OrderlyGrants(s.log, s.grants) {
      AllOrderlyGrantsStay(s);
    } else {
      var k :| 0 <= k < |s.grants| && !InOrder(s.log[..s.grants[k].at]);
      SomeGrantCanBeUndone(s, k);
    }
  }
}
