/** Exactly when a profile event of some kind is stored a second time.

    A process decides on what it saw when it last looked. It repeats an event exactly when a stored
    one was not in force in what it saw: not stored yet, not applied, or, for the person, undone by a
    removal of the device.
 */
module ProfileRepeats {
  import opened Events
  import opened Workspace
  import opened Materialization
  import opened ProfileIdentity
  import opened ProfileFinalization
  import opened FinalizationProcesses

  /** The step publishes an event of this kind. */
  predicate PublishesKind(a: Action, kind: Kind) {
    match kind
    case DeviceProfile => a.PublishProfile?
    case PersonLink => a.PublishLink?
    case PersonProfile => a.PublishPerson?
  }

  /** How much was stored when the process last looked for what it is about to publish. */
  function LookedAt(ph: Phase): nat {
    match ph
    case Naming(_, _, _, from) => from
    case Unlinked(_, _, _, looked) => looked
    case Profiling(_, _, _, _, looked) => looked
    case _ => 0
  }

  /** Row `i` was in force when the first `n` rows were stored. */
  ghost predicate InForce(log: seq<Event>, n: nat, i: nat, local: DeviceId)
    requires i < |log|
  {
    && i < n <= |log|
    && var ctx := Materialize(log[..n]);
       && log[i] in ctx.events
       && match log[i].body
          case PersonDeviceLinked(p, _) => local in ctx.state.links && ctx.state.links[local] == p
          case PersonProfileUpdated(p, _) => local in ctx.state.links && ctx.state.links[local] == p
          case _ => true
  }

  /** The step publishes an event of a kind that is stored and was not in force when it looked. */
  ghost predicate Repeats(m: Shared, x: Step, kind: Kind) {
    && PublishesKind(x.action, kind)
    && exists i :: 0 <= i < |m.core.log| && Own(m.core.log[i], m.core.local, kind)
                   && !InForce(m.core.log, LookedAt(PhaseOf(m, x.process)), i, m.core.local)
  }

  // ---------- what an applied profile event shows ----------

  ghost predicate Named(rows: seq<Event>, local: DeviceId) {
    forall e :: e in rows && (Own(e, local, DeviceProfile) || Own(e, local, PersonProfile)) ==> e.body.displayName != ""
  }

  /** Profiles are never taken back. */
  lemma {:induction false} AppliedProfileShows(events: seq<Event>, local: DeviceId, e: Event)
    requires Named(events, local) && e in events && Own(e, local, DeviceProfile)
    ensures HasProfile(Fold(Empty, events), local)
  {
    var before, last := events[..|events| - 1], events[|events| - 1];
    if Own(last, local, DeviceProfile) {
      assert last in events;
    } else {
      assert e in before;
      AppliedProfileShows(before, local, e);
    }
  }

  /** Links of the device to different persons. */
  ghost predicate LinksDiffer(rows: seq<Event>, local: DeviceId) {
    forall e, f :: e in rows && f in rows && Own(e, local, PersonLink) && Own(f, local, PersonLink) && e.body.person == f.body.person
                   ==> e == f
  }

  ghost predicate Injective(links: map<DeviceId, PersonId>) {
    forall c, d :: c in links && d in links && links[c] == links[d] ==> c == d
  }

  ghost predicate LinkedIn(events: seq<Event>, local: DeviceId, p: PersonId) {
    exists g :: g in events && Own(g, local, PersonLink) && g.body.person == p
  }

  /** The device's link was applied, and so was one for every person profile it wrote. */
  ghost predicate LinksOk(events: seq<Event>, s: State, local: DeviceId) {
    && Injective(s.links)
    && (local in s.links ==> LinkedIn(events, local, s.links[local]))
    && (forall e :: e in events && Own(e, local, PersonProfile) ==> LinkedIn(events, local, e.body.person))
  }

  lemma LinkedStays(events: seq<Event>, f: Event, local: DeviceId, p: PersonId)
    requires LinkedIn(events, local, p)
    ensures LinkedIn(events + [f], local, p)
  {
    var g :| g in events && Own(g, local, PersonLink) && g.body.person == p;
    assert g in events + [f];
  }

  lemma LinksStayInjective(s: State, f: Event)
    requires Injective(s.links) && Authorized(s, f)
    ensures Injective(Apply(s, f).links)
  {
  }

  lemma LinksStep(events: seq<Event>, s: State, f: Event, local: DeviceId)
    requires LinksOk(events, s, local) && Authorized(s, f)
    ensures LinksOk(events + [f], Apply(s, f), local)
  {
    var all, t := events + [f], Apply(s, f);
    LinksStayInjective(s, f);
    if local in t.links {
      if Own(f, local, PersonLink) && f.body.device == local {
        assert f in all;
      } else {
        assert local in s.links && t.links[local] == s.links[local];
        LinkedStays(events, f, local, s.links[local]);
      }
    }
    forall e | e in all && Own(e, local, PersonProfile) ensures LinkedIn(all, local, e.body.person) {
      if e in events {
        LinkedStays(events, f, local, e.body.person);
      } else {
        assert s.links[local] == e.body.person;
        LinkedStays(events, f, local, e.body.person);
      }
    }
  }

  /** Every applied person profile of the person the device is linked to shows. */
  ghost predicate PersonShows(events: seq<Event>, s: State, local: DeviceId) {
    forall e :: e in events && Own(e, local, PersonProfile) && local in s.links && s.links[local] == e.body.person
                ==> HasPerson(s, local)
  }

  /** A link to a person whose profile was applied already does not come twice. */
  lemma NoSecondLink(events: seq<Event>, s: State, f: Event, local: DeviceId, e: Event)
    requires LinksOk(events, s, local) && LinksDiffer(events + [f], local) && f.id !in IdSet(events)
    requires Own(f, local, PersonLink) && e in events && Own(e, local, PersonProfile)
    ensures e.body.person != f.body.person
  {
    var g :| g in events && Own(g, local, PersonLink) && g.body.person == e.body.person;
    assert g in events + [f] && f in events + [f];
  }

  lemma PersonStays(s: State, f: Event, local: DeviceId)
    requires Injective(s.links) && Authorized(s, f) && HasPerson(s, local)
    requires Own(f, local, PersonProfile) ==> f.body.displayName != ""
    requires local in Apply(s, f).links
    ensures HasPerson(Apply(s, f), local)
  {
  }

  lemma PersonStep(events: seq<Event>, s: State, f: Event, local: DeviceId)
    requires LinksOk(events, s, local) && PersonShows(events, s, local) && Authorized(s, f) && f.id !in IdSet(events)
    requires LinksDiffer(events + [f], local) && (Own(f, local, PersonProfile) ==> f.body.displayName != "")
    ensures PersonShows(events + [f], Apply(s, f), local)
  {
    var t := Apply(s, f);
    forall e | e in events + [f] && Own(e, local, PersonProfile) && local in t.links && t.links[local] == e.body.person
      ensures HasPerson(t, local)
    {
      if e in events {
        if local in s.links {
          LinkIsKept(s, f, local);
          PersonStays(s, f, local);
        } else {
          NewLinkIsOwn(s, f, local);
          NoSecondLink(events, s, f, local, e);
        }
      }
    }
  }

  lemma LinkIsKept(s: State, f: Event, local: DeviceId)
    requires Authorized(s, f) && local in s.links && local in Apply(s, f).links
    ensures Apply(s, f).links[local] == s.links[local]
  {
  }

  lemma NewLinkIsOwn(s: State, f: Event, local: DeviceId)
    requires Authorized(s, f) && local !in s.links && local in Apply(s, f).links
    ensures Own(f, local, PersonLink) && Apply(s, f).links[local] == f.body.person
  {
  }

  lemma PrefixRows(log: seq<Event>, n: nat, local: DeviceId)
    requires n <= |log| && Named(log, local) && LinksDiffer(log, local)
    ensures Named(log[..n], local) && LinksDiffer(log[..n], local)
  {
    assert forall e :: e in log[..n] ==> e in log;
  }

  ghost predicate PersonOk(events: seq<Event>, s: State, local: DeviceId) {
    LinksOk(events, s, local) && PersonShows(events, s, local)
  }

  lemma PersonOkStep(events: seq<Event>, s: State, f: Event, local: DeviceId)
    requires PersonOk(events, s, local) && Authorized(s, f) && f.id !in IdSet(events)
    requires LinksDiffer(events + [f], local) && (Own(f, local, PersonProfile) ==> f.body.displayName != "")
    ensures PersonOk(events + [f], Apply(s, f), local)
  {
    LinksStep(events, s, f, local);
    PersonStep(events, s, f, local);
  }

  lemma LinearEnd(events: seq<Event>, e: Event)
    requires Linear(events + [e])
    ensures Linear(events) && Authorized(Fold(Empty, events), e) && e.id !in IdSet(events)
  {
    var all := events + [e];
    LinearPrefix(all, |events|);
    assert all[..|events|] == events && all[|events|] == e;
    assert Applicable(Folded(all[..|events|]), all[|events|]);
  }

  lemma PersonOkSnoc(events: seq<Event>, e: Event, local: DeviceId)
    requires Linear(events + [e]) && Named(events + [e], local) && LinksDiffer(events + [e], local)
    requires PersonOk(events, Fold(Empty, events), local)
    ensures PersonOk(events + [e], Fold(Empty, events + [e]), local)
  {
    LinearEnd(events, e);
    FoldSnoc(Empty, events, e);
    assert e in events + [e];
    PersonOkStep(events, Fold(Empty, events), e, local);
  }

  lemma NothingIsOk(local: DeviceId)
    ensures PersonOk([], Fold(Empty, []), local)
  {
  }

  lemma TakeOneMore(events: seq<Event>, k: nat)
    requires k < |events|
    ensures events[..k + 1] == events[..k] + [events[k]]
  {
  }

  lemma PersonOkAt(events: seq<Event>, k: nat, local: DeviceId)
    requires Linear(events) && Named(events, local) && LinksDiffer(events, local) && k < |events|
    requires PersonOk(events[..k], Fold(Empty, events[..k]), local)
    ensures PersonOk(events[..k + 1], Fold(Empty, events[..k + 1]), local)
  {
    LinearPrefix(events, k + 1);
    PrefixRows(events, k + 1, local);
    TakeOneMore(events, k);
    PersonOkSnoc(events[..k], events[k], local);
  }

  lemma {:induction false} PersonOkUpTo(events: seq<Event>, n: nat, local: DeviceId)
    requires Linear(events) && Named(events, local) && LinksDiffer(events, local) && n <= |events|
    ensures PersonOk(events[..n], Fold(Empty, events[..n]), local)
  {
    if n == 0 {
      NothingIsOk(local);
    } else {
      PersonOkUpTo(events, n - 1, local);
      PersonOkAt(events, n - 1, local);
    }
  }

  lemma AppliedPersonShows(events: seq<Event>, local: DeviceId)
    requires Linear(events) && Named(events, local) && LinksDiffer(events, local)
    ensures PersonOk(events, Fold(Empty, events), local)
  {
    PersonOkUpTo(events, |events|, local);
    assert events[..|events|] == events;
  }

  // ---------- what every step keeps ----------

  /** What the process saw when it looked. */
  ghost predicate LookOk(log: seq<Event>, ph: Phase, local: DeviceId) {
    var n := LookedAt(ph);
    && n <= |log|
    && var v := Materialize(log[..n]).state;
       && (ph.Naming? && ph.missing ==> !HasProfile(v, local))
       && (ph.Unlinked? ==> local !in v.links)
       && (ph.Profiling? ==> !HasPerson(v, local))
  }

  ghost predicate RowsNamed(m: Shared) {
    Named(m.core.log, m.core.local) && LinksDiffer(m.core.log, m.core.local)
  }

  ghost predicate LooksOk(m: Shared) {
    forall p :: LookOk(m.core.log, PhaseOf(m, p), m.core.local)
  }

  lemma LookStays(log: seq<Event>, more: seq<Event>, ph: Phase, local: DeviceId)
    requires LookOk(log, ph, local)
    ensures LookOk(log + more, ph, local)
  {
    assert (log + more)[..LookedAt(ph)] == log[..LookedAt(ph)];
  }

  lemma WholeLog(log: seq<Event>)
    ensures log[..|log|] == log
  {
  }

  lemma BeginLooks(s: System)
    requires Enabled(s, BeginFinalize)
    ensures LookOk(s.log, Perform(s, BeginFinalize).phase, s.local)
  {
    WholeLog(s.log);
  }

  lemma RefreshLooks(s: System)
    requires Enabled(s, Refresh)
    ensures LookOk(s.log, Perform(s, Refresh).phase, s.local)
  {
    WholeLog(s.log);
  }

  lemma LinkLooks(log: seq<Event>, ph: Phase, person: PersonId, local: DeviceId)
    requires LookOk(log, ph, local) && ph.Unlinked?
    ensures LookOk(log, Profiling(ph.at, ph.name, person, ph.from, ph.looked), local)
  {
  }

  /** Phases in which nothing is about to be published. */
  predicate Elsewhere(ph: Phase) {
    !ph.Naming? && !ph.Unlinked? && !ph.Profiling?
  }

  lemma ElsewhereLooks(log: seq<Event>, ph: Phase, local: DeviceId)
    requires Elsewhere(ph)
    ensures LookOk(log, ph, local)
  {
  }

  lemma OtherStepPhase(s: System, a: Action)
    requires Enabled(s, a) && !a.BeginFinalize? && !a.Refresh? && !a.PublishLink?
    ensures Perform(s, a).phase == s.phase || Elsewhere(Perform(s, a).phase)
  {
  }

  lemma StoredRow(s: System, a: Action) returns (more: seq<Event>)
    requires Enabled(s, a)
    ensures Perform(s, a).log == s.log + more && Perform(s, a).local == s.local
    ensures more == if a.Arrive? || a.PublishProfile? || a.PublishLink? || a.PublishPerson? then [a.e] else []
  {
    more := if a.Arrive? || a.PublishProfile? || a.PublishLink? || a.PublishPerson? then [a.e] else [];
  }

  lemma ActorLooks(s: System, a: Action)
    requires Enabled(s, a) && LookOk(s.log, s.phase, s.local)
    ensures LookOk(Perform(s, a).log, Perform(s, a).phase, s.local)
  {
    if a.BeginFinalize? {
      BeginLooks(s);
    } else if a.Refresh? {
      RefreshLooks(s);
    } else if a.PublishLink? {
      LinkLooks(s.log, s.phase, a.e.body.person, s.local);
      LookStays(s.log, [a.e], Perform(s, a).phase, s.local);
    } else {
      OtherStepPhase(s, a);
      var more := StoredRow(s, a);
      LookStays(s.log, more, s.phase, s.local);
      if Elsewhere(Perform(s, a).phase) {
        ElsewhereLooks(Perform(s, a).log, Perform(s, a).phase, s.local);
      }
    }
  }

  lemma StepKeepsLooks(m: Shared, x: Step)
    requires LooksOk(m) && CanDo(m, x)
    ensures LooksOk(Do(m, x))
  {
    var s := SeenBy(m, x.process);
    var more := StoredRow(s, x.action);
    forall p ensures LookOk(Do(m, x).core.log, PhaseOf(Do(m, x), p), Do(m, x).core.local) {
      assert LookOk(m.core.log, PhaseOf(m, p), m.core.local);
      if p == x.process {
        ActorLooks(s, x.action);
      } else {
        LookStays(m.core.log, more, PhaseOf(m, p), m.core.local);
      }
    }
  }

  lemma NamedSnoc(rows: seq<Event>, e: Event, local: DeviceId)
    requires Named(rows, local) && (Own(e, local, DeviceProfile) || Own(e, local, PersonProfile) ==> e.body.displayName != "")
    ensures Named(rows + [e], local)
  {
  }

  lemma LinksDifferSnoc(rows: seq<Event>, e: Event, local: DeviceId)
    requires LinksDiffer(rows, local) && (Own(e, local, PersonLink) ==> UnusedPerson(rows, e.body.person))
    ensures LinksDiffer(rows + [e], local)
  {
  }

  lemma StoredIsNamed(s: System, a: Action)
    requires Enabled(s, a) && (Publishing(s.phase) ==> s.phase.name != "")
    requires a.Arrive? || a.PublishProfile? || a.PublishLink? || a.PublishPerson?
    ensures Own(a.e, s.local, DeviceProfile) || Own(a.e, s.local, PersonProfile) ==> a.e.body.displayName != ""
    ensures Own(a.e, s.local, PersonLink) ==> UnusedPerson(s.log, a.e.body.person)
  {
    assert a.Arrive? ==> !Own(a.e, s.local, DeviceProfile) && !Own(a.e, s.local, PersonLink) && !Own(a.e, s.local, PersonProfile);
  }

  lemma StepKeepsNames(m: Shared, x: Step)
    requires AlwaysOk(m) && RowsNamed(m) && CanDo(m, x)
    ensures RowsNamed(Do(m, x))
  {
    var s := SeenBy(m, x.process);
    assert Knows(s);
    var more := StoredRow(s, x.action);
    if more == [] {
      assert m.core.log + more == m.core.log;
    } else {
      StoredIsNamed(s, x.action);
      NamedSnoc(m.core.log, x.action.e, m.core.local);
      LinksDifferSnoc(m.core.log, x.action.e, m.core.local);
    }
  }

  ghost predicate RepeatsInv(m: Shared) {
    AlwaysOk(m) && RowsNamed(m) && LooksOk(m)
  }

  lemma StepKeepsInv(m: Shared, x: Step)
    requires RepeatsInv(m) && CanDo(m, x)
    ensures RepeatsInv(Do(m, x)) && Do(m, x).core.local == m.core.local
  {
    SharedStepKeeps(m, x);
    StepKeepsNames(m, x);
    StepKeepsLooks(m, x);
  }

  lemma FreshIsOk(local: DeviceId)
    ensures RepeatsInv(Fresh(local))
  {
    forall p ensures LookOk([], PhaseOf(Fresh(local), p), local) {
      ElsewhereLooks([], Idle, local);
    }
  }

  // ---------- nothing is published that was in force ----------

  lemma SeenRows(rows: seq<Event>, local: DeviceId)
    requires Named(rows, local) && LinksDiffer(rows, local)
    ensures var events := Materialize(rows).events;
            Linear(events) && Materialize(rows).state == Fold(Empty, events) && Named(events, local) && LinksDiffer(events, local)
  {
    Materialized(rows);
  }

  lemma NoProfileInForce(rows: seq<Event>, local: DeviceId, e: Event)
    requires Named(rows, local) && LinksDiffer(rows, local) && Own(e, local, DeviceProfile)
    requires !HasProfile(Materialize(rows).state, local)
    ensures e !in Materialize(rows).events
  {
    SeenRows(rows, local);
    if e in Materialize(rows).events {
      AppliedProfileShows(Materialize(rows).events, local, e);
    }
  }

  lemma NoPersonInForce(rows: seq<Event>, local: DeviceId, e: Event)
    requires Named(rows, local) && LinksDiffer(rows, local) && Own(e, local, PersonProfile)
    requires !HasPerson(Materialize(rows).state, local)
    ensures var ctx := Materialize(rows);
            !(e in ctx.events && local in ctx.state.links && ctx.state.links[local] == e.body.person)
  {
    SeenRows(rows, local);
    AppliedPersonShows(Materialize(rows).events, local);
  }

  /** The phase from which a kind is published. */
  predicate PublishingPhase(ph: Phase, kind: Kind) {
    match kind
    case DeviceProfile => ph.Naming? && ph.missing
    case PersonLink => ph.Unlinked?
    case PersonProfile => ph.Profiling?
  }

  lemma NotInForce(log: seq<Event>, ph: Phase, local: DeviceId, i: nat, kind: Kind)
    requires Named(log, local) && LinksDiffer(log, local) && LookOk(log, ph, local) && i < |log| && Own(log[i], local, kind)
    requires PublishingPhase(ph, kind)
    ensures !InForce(log, LookedAt(ph), i, local)
  {
    PrefixRows(log, LookedAt(ph), local);
    match kind
    case DeviceProfile => NoProfileInForce(log[..LookedAt(ph)], local, log[i]);
    case PersonLink =>
    case PersonProfile => NoPersonInForce(log[..LookedAt(ph)], local, log[i]);
  }

  // ---------- the theorems ----------

  lemma {:induction false} TallyCounts(rows: seq<Event>, local: DeviceId, kind: Kind)
    ensures Tally(rows, local, kind) > 0 <==> exists i :: 0 <= i < |rows| && Own(rows[i], local, kind)
  {
    if rows != [] {
      var n := |rows| - 1;
      TallyCounts(rows[..n], local, kind);
      assert forall i :: 0 <= i < n ==> rows[..n][i] == rows[i];
    }
  }

  lemma PublishedKind(s: System, a: Action, kind: Kind)
    requires Enabled(s, a)
    ensures Tally(Perform(s, a).log, s.local, kind) == Tally(s.log, s.local, kind) + if PublishesKind(a, kind) then 1 else 0
  {
    var more := StoredRow(s, a);
    if more == [] {
      assert s.log + more == s.log;
    } else {
      TallySnoc(s.log, a.e, s.local, kind);
      assert a.Arrive? ==> !Own(a.e, s.local, kind);
    }
  }

  lemma PublishesFrom(s: System, a: Action, kind: Kind)
    requires Enabled(s, a) && PublishesKind(a, kind)
    ensures PublishingPhase(s.phase, kind)
  {
  }

  lemma RepeatsExactly(m: Shared, x: Step, kind: Kind)
    requires RepeatsInv(m) && CanDo(m, x)
    ensures var before, after := Tally(m.core.log, m.core.local, kind), Tally(Do(m, x).core.log, m.core.local, kind);
            && before <= after
            && ((after > before && after >= 2) <==> Repeats(m, x, kind))
  {
    var s, log := SeenBy(m, x.process), m.core.log;
    PublishedKind(s, x.action, kind);
    TallyCounts(log, m.core.local, kind);
    if PublishesKind(x.action, kind) {
      PublishesFrom(s, x.action, kind);
      if i :| 0 <= i < |log| && Own(log[i], m.core.local, kind) {
        assert LookOk(log, PhaseOf(m, x.process), m.core.local);
        NotInForce(log, s.phase, m.core.local, i, kind);
      }
    }
  }

  lemma {:induction false} RunKeepsInv(run: seq<Step>, m: Shared)
    requires RepeatsInv(m) && CanRun(run, m)
    ensures RepeatsInv(Final(run, m)) && Final(run, m).core.local == m.core.local
  {
    if run != [] {
      StepKeepsInv(m, run[0]);
      RunKeepsInv(run[1..], Do(m, run[0]));
    }
  }

  /** After any run of any number of processes, with crashes, removals and rows that had to wait: a
      step stores a second event of a kind if and only if it publishes one while a stored one was
      not in force when its process looked. */
  lemma SecondEventExactly(run: seq<Step>, local: DeviceId, x: Step, kind: Kind)
    requires CanRun(run, Fresh(local)) && CanDo(Final(run, Fresh(local)), x)
    ensures var m := Final(run, Fresh(local));
            var before, after := Tally(m.core.log, local, kind), Tally(Do(m, x).core.log, local, kind);
            (after > before && after >= 2) <==> Repeats(m, x, kind)
  {
    FreshIsOk(local);
    RunKeepsInv(run, Fresh(local));
    RepeatsExactly(Final(run, Fresh(local)), x, kind);
  }

  ghost predicate NeverRepeats(run: seq<Step>, m: Shared, kind: Kind)
    requires CanRun(run, m)
  {
    run == [] || (!Repeats(m, run[0], kind) && NeverRepeats(run[1..], Do(m, run[0]), kind))
  }

  lemma {:induction false} TallyGrows(run: seq<Step>, m: Shared, kind: Kind)
    requires RepeatsInv(m) && CanRun(run, m)
    ensures Tally(m.core.log, m.core.local, kind) <= Tally(Final(run, m).core.log, m.core.local, kind)
  {
    if run != [] {
      StepKeepsInv(m, run[0]);
      RepeatsExactly(m, run[0], kind);
      TallyGrows(run[1..], Do(m, run[0]), kind);
    }
  }

  lemma {:induction false} OnceExactlyFrom(run: seq<Step>, m: Shared, kind: Kind)
    requires RepeatsInv(m) && CanRun(run, m) && Tally(m.core.log, m.core.local, kind) <= 1
    ensures Tally(Final(run, m).core.log, m.core.local, kind) <= 1 <==> NeverRepeats(run, m, kind)
  {
    if run != [] {
      var next := Do(m, run[0]);
      StepKeepsInv(m, run[0]);
      RepeatsExactly(m, run[0], kind);
      if Repeats(m, run[0], kind) {
        TallyGrows(run[1..], next, kind);
      } else {
        OnceExactlyFrom(run[1..], next, kind);
      }
    }
  }

  /** Over whole runs: each kind of profile event is stored at most once if and only if no step
      repeats it. */
  lemma OnceExactly(run: seq<Step>, local: DeviceId, kind: Kind)
    requires CanRun(run, Fresh(local))
    ensures Tally(Final(run, Fresh(local)).core.log, local, kind) <= 1 <==> NeverRepeats(run, Fresh(local), kind)
  {
    FreshIsOk(local);
    OnceExactlyFrom(run, Fresh(local), kind);
  }
}
