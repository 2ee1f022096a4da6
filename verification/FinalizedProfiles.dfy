/** What a finalized receipt means whatever the processes do: the events it stands for are stored. */
module FinalizedProfiles {
  import opened Events
  import opened Workspace
  import opened Materialization
  import opened ProfileIdentity
  import opened ProfileFinalization
  import opened FinalizationProcesses
  import opened ProfileRepeats

  /** The device stored a profile. */
  ghost predicate ProfileStored(log: seq<Event>, local: DeviceId) {
    exists e :: e in log && Own(e, local, DeviceProfile) && e.body.displayName != ""
  }

  /** Somebody stored a name for the person. */
  ghost predicate PersonNamed(log: seq<Event>, p: PersonId) {
    exists e :: e in log && e.body.PersonProfileUpdated? && e.body.person == p && e.body.displayName != ""
  }

  /** The device stored a link to a person with a stored name. */
  ghost predicate PersonStored(log: seq<Event>, local: DeviceId) {
    exists p :: LinkedIn(log, local, p) && PersonNamed(log, p)
  }

  // ---------- what a materialized identity means ----------

  lemma {:induction false} ShownProfileIsApplied(events: seq<Event>, local: DeviceId)
    requires HasProfile(Fold(Empty, events), local)
    ensures ProfileStored(events, local)
  {
    var before, last := events[..|events| - 1], events[|events| - 1];
    if Own(last, local, DeviceProfile) {
      assert last in events;
    } else {
      ShownProfileIsApplied(before, local);
      var e :| e in before && Own(e, local, DeviceProfile) && e.body.displayName != "";
      assert e in events;
    }
  }

  lemma {:induction false} ShownNameIsApplied(events: seq<Event>, p: PersonId)
    requires p in Fold(Empty, events).persons && Fold(Empty, events).persons[p] != ""
    ensures PersonNamed(events, p)
  {
    var before, last := events[..|events| - 1], events[|events| - 1];
    if last.body.PersonProfileUpdated? && last.body.person == p {
      assert last in events;
    } else {
      ShownNameIsApplied(before, p);
      var e :| e in before && e.body.PersonProfileUpdated? && e.body.person == p && e.body.displayName != "";
      assert e in events;
    }
  }

  lemma ProfileStays(a: seq<Event>, b: seq<Event>, local: DeviceId)
    requires ProfileStored(a, local) && forall e :: e in a ==> e in b
    ensures ProfileStored(b, local)
  {
    var e :| e in a && Own(e, local, DeviceProfile) && e.body.displayName != "";
    assert e in b;
  }

  lemma NameStays(a: seq<Event>, b: seq<Event>, p: PersonId)
    requires PersonNamed(a, p) && forall e :: e in a ==> e in b
    ensures PersonNamed(b, p)
  {
    var e :| e in a && e.body.PersonProfileUpdated? && e.body.person == p && e.body.displayName != "";
    assert e in b;
  }

  lemma LinkStays(a: seq<Event>, b: seq<Event>, local: DeviceId, p: PersonId)
    requires LinkedIn(a, local, p) && forall e :: e in a ==> e in b
    ensures LinkedIn(b, local, p)
  {
    var g :| g in a && Own(g, local, PersonLink) && g.body.person == p;
    assert g in b;
  }

  lemma PersonStaysStored(a: seq<Event>, b: seq<Event>, local: DeviceId)
    requires PersonStored(a, local) && forall e :: e in a ==> e in b
    ensures PersonStored(b, local)
  {
    var p :| LinkedIn(a, local, p) && PersonNamed(a, p);
    LinkStays(a, b, local, p);
    NameStays(a, b, p);
  }

  lemma ViewedProfile(log: seq<Event>, local: DeviceId)
    requires HasProfile(Materialize(log).state, local)
    ensures ProfileStored(log, local)
  {
    MaterializedInBrief(log);
    ShownProfileIsApplied(Materialize(log).events, local);
    ProfileStays(Materialize(log).events, log, local);
  }

  lemma ViewedLink(log: seq<Event>, local: DeviceId)
    requires Named(log, local) && LinksDiffer(log, local) && local in Materialize(log).state.links
    ensures LinkedIn(log, local, Materialize(log).state.links[local])
  {
    SeenRows(log, local);
    MaterializedInBrief(log);
    AppliedPersonShows(Materialize(log).events, local);
    LinkStays(Materialize(log).events, log, local, Materialize(log).state.links[local]);
  }

  lemma ViewedPerson(log: seq<Event>, local: DeviceId)
    requires Named(log, local) && LinksDiffer(log, local) && HasPerson(Materialize(log).state, local)
    ensures PersonStored(log, local)
  {
    var p := Materialize(log).state.links[local];
    ViewedLink(log, local);
    MaterializedInBrief(log);
    ShownNameIsApplied(Materialize(log).events, p);
    NameStays(Materialize(log).events, log, p);
  }

  // ---------- what every step keeps ----------

  /** What is stored when a process is in this phase. */
  ghost predicate PhaseStored(log: seq<Event>, ph: Phase, local: DeviceId) {
    && (ph.Naming? && !ph.missing ==> ProfileStored(log, local))
    && (ph.Linking? || ph.Unlinked? || ph.Profiling? || ph.Completing? ==> ProfileStored(log, local))
    && (ph.Profiling? ==> LinkedIn(log, local, ph.person))
    && (ph.Completing? ==> PersonStored(log, local))
  }

  ghost predicate ReceiptsStored(log: seq<Event>, receipts: map<Coordinates, Stored>, local: DeviceId) {
    forall at :: at in receipts && receipts[at].finalized ==> ProfileStored(log, local) && PersonStored(log, local)
  }

  ghost predicate AllStored(m: Shared) {
    && ReceiptsStored(m.core.log, m.core.receipts, m.core.local)
    && forall p :: PhaseStored(m.core.log, PhaseOf(m, p), m.core.local)
  }

  lemma InConcat<T>(a: seq<T>, b: seq<T>)
    ensures forall e :: e in a ==> e in a + b
  {
  }

  lemma PhaseStaysStored(log: seq<Event>, more: seq<Event>, ph: Phase, local: DeviceId)
    requires PhaseStored(log, ph, local)
    ensures PhaseStored(log + more, ph, local)
  {
    InConcat(log, more);
    if ProfileStored(log, local) {
      ProfileStays(log, log + more, local);
    }
    if ph.Profiling? {
      LinkStays(log, log + more, local, ph.person);
    }
    if ph.Completing? {
      PersonStaysStored(log, log + more, local);
    }
  }

  lemma BeginIsStored(s: System)
    requires Enabled(s, BeginFinalize)
    ensures PhaseStored(s.log, Perform(s, BeginFinalize).phase, s.local)
  {
    if HasProfile(Materialize(s.log).state, s.local) {
      ViewedProfile(s.log, s.local);
    }
  }

  lemma RefreshIsStored(s: System)
    requires Enabled(s, Refresh) && PhaseStored(s.log, s.phase, s.local) && Named(s.log, s.local) && LinksDiffer(s.log, s.local)
    ensures PhaseStored(s.log, Perform(s, Refresh).phase, s.local)
  {
    if s.local in View(s).links {
      ViewedLink(s.log, s.local);
      if HasPerson(View(s), s.local) {
        ViewedPerson(s.log, s.local);
      }
    }
  }

  lemma ProfileIsStored(s: System, e: Event)
    requires Enabled(s, PublishProfile(e)) && s.phase.name != ""
    ensures PhaseStored(s.log + [e], Perform(s, PublishProfile(e)).phase, s.local)
  {
    assert e in s.log + [e];
  }

  lemma LinkIsStored(s: System, e: Event)
    requires Enabled(s, PublishLink(e)) && PhaseStored(s.log, s.phase, s.local)
    ensures PhaseStored(s.log + [e], Perform(s, PublishLink(e)).phase, s.local)
  {
    PhaseStaysStored(s.log, [e], s.phase, s.local);
    assert e in s.log + [e];
  }

  lemma PersonIsStored(s: System, e: Event)
    requires Enabled(s, PublishPerson(e)) && PhaseStored(s.log, s.phase, s.local) && s.phase.name != ""
    ensures PhaseStored(s.log + [e], Perform(s, PublishPerson(e)).phase, s.local)
  {
    PhaseStaysStored(s.log, [e], s.phase, s.local);
    assert e in s.log + [e];
    assert PersonNamed(s.log + [e], s.phase.person) && LinkedIn(s.log + [e], s.local, s.phase.person);
  }

  predicate Looks(a: Action) {
    a.BeginFinalize? || a.Refresh? || a.PublishProfile? || a.PublishLink? || a.PublishPerson?
  }

  lemma OtherPhases(s: System, a: Action)
    requires Enabled(s, a) && !Looks(a)
    ensures var ph := Perform(s, a).phase;
            || ph == s.phase
            || !(ph.Naming? || ph.Linking? || ph.Unlinked? || ph.Profiling? || ph.Completing?)
            || (a.KeepProfile? && ph.Linking? && s.phase.Naming? && !s.phase.missing)
  {
  }

  lemma ActorIsStored(s: System, a: Action)
    requires Enabled(s, a) && PhaseStored(s.log, s.phase, s.local) && Named(s.log, s.local) && LinksDiffer(s.log, s.local)
    requires Publishing(s.phase) ==> s.phase.name != ""
    ensures PhaseStored(Perform(s, a).log, Perform(s, a).phase, s.local)
  {
    match a
    case BeginFinalize => BeginIsStored(s);
    case Refresh => RefreshIsStored(s);
    case PublishProfile(e) => ProfileIsStored(s, e);
    case PublishLink(e) => LinkIsStored(s, e);
    case PublishPerson(e) => PersonIsStored(s, e);
    case _ =>
      OtherPhases(s, a);
      var more := StoredRow(s, a);
      PhaseStaysStored(s.log, more, s.phase, s.local);
  }

  lemma ReceiptsOfStep(s: System, a: Action, at: Coordinates)
    requires Enabled(s, a) && KnowsFiles(s.phase, s.receipts)
    requires at in Perform(s, a).receipts && Perform(s, a).receipts[at].finalized
    ensures (at in s.receipts && s.receipts[at].finalized) || s.phase.Completing?
  {
  }

  lemma ReceiptsStayStored(s: System, a: Action)
    requires Enabled(s, a) && KnowsFiles(s.phase, s.receipts) && PhaseStored(s.log, s.phase, s.local)
    requires ReceiptsStored(s.log, s.receipts, s.local)
    ensures ReceiptsStored(Perform(s, a).log, Perform(s, a).receipts, s.local)
  {
    var t := Perform(s, a);
    var more := StoredRow(s, a);
    InConcat(s.log, more);
    forall at | at in t.receipts && t.receipts[at].finalized
      ensures ProfileStored(t.log, s.local) && PersonStored(t.log, s.local)
    {
      ReceiptsOfStep(s, a, at);
      ProfileStays(s.log, t.log, s.local);
      PersonStaysStored(s.log, t.log, s.local);
    }
  }

  lemma StepKeepsStored(m: Shared, x: Step)
    requires RepeatsInv(m) && AllStored(m) && CanDo(m, x)
    ensures AllStored(Do(m, x))
  {
    var s := SeenBy(m, x.process);
    assert Knows(s) && PhaseStored(m.core.log, PhaseOf(m, x.process), m.core.local);
    var more := StoredRow(s, x.action);
    ReceiptsStayStored(s, x.action);
    forall p ensures PhaseStored(Do(m, x).core.log, PhaseOf(Do(m, x), p), Do(m, x).core.local) {
      if p == x.process {
        ActorIsStored(s, x.action);
      } else {
        assert PhaseStored(m.core.log, PhaseOf(m, p), m.core.local);
        PhaseStaysStored(m.core.log, more, PhaseOf(m, p), m.core.local);
      }
    }
  }

  lemma {:induction false} RunKeepsStored(run: seq<Step>, m: Shared)
    requires RepeatsInv(m) && AllStored(m) && CanRun(run, m)
    ensures AllStored(Final(run, m)) && Final(run, m).core.local == m.core.local
  {
    if run != [] {
      StepKeepsInv(m, run[0]);
      StepKeepsStored(m, run[0]);
      RunKeepsStored(run[1..], Do(m, run[0]));
    }
  }

  /** After any run of any number of processes, with crashes, removals and rows that had to wait: a
      finalized receipt means that the device stored a profile and a link, and that a name is stored
      for the person it linked itself to. */
  lemma FinalizedIsPublished(run: seq<Step>, local: DeviceId, at: Coordinates)
    requires CanRun(run, Fresh(local))
    requires var s := Final(run, Fresh(local)).core; at in s.receipts && s.receipts[at].finalized
    ensures var s := Final(run, Fresh(local)).core; ProfileStored(s.log, local) && PersonStored(s.log, local)
  {
    FreshIsOk(local);
    RunKeepsStored(run, Fresh(local));
  }
}
