/** Two more guarantees of the finalization sequence of one process: a pending receipt always has its
    marker, and the device goes by one name.
 */
module ProfileNames {
  import opened Events
  import opened Workspace
  import opened Materialization
  import opened ProfileIdentity
  import opened ProfileFinalization
  import FinalizedProfiles

  // ---------- receipts and markers ----------

  /** A pending receipt has its marker, a finalized one is not pending, and a claim whose key may be
      imported is one or the other. */
  ghost predicate FlagsOk(s: System) {
    && (forall at :: at in s.receipts && s.receipts[at].pending ==> at in s.markers)
    && (forall at :: at in s.receipts && s.receipts[at].finalized ==> !s.receipts[at].pending)
    && (forall at :: at in s.ready || at in s.imported ==>
          at in s.receipts && (s.receipts[at].pending || s.receipts[at].finalized))
  }

  lemma MarkingKeepsFlags(s: System, a: Action)
    requires FilesOk(s) && FlagsOk(s) && Enabled(s, a)
    requires a.BeginMark? || a.WriteMarker? || a.WriteReceipt? || a.RemoveMarker?
    ensures FlagsOk(Perform(s, a))
  {
  }

  lemma OthersKeepFlags(s: System, a: Action)
    requires FilesOk(s) && FlagsOk(s) && Enabled(s, a)
    requires !(a.BeginMark? || a.WriteMarker? || a.WriteReceipt? || a.RemoveMarker?)
    ensures FlagsOk(Perform(s, a))
  {
  }

  lemma {:induction false} RunKeepsFlags(run: seq<Action>, s: System)
    requires Inv(s) && FlagsOk(s) && IsRun(run, s)
    ensures FlagsOk(After(run, s))
  {
    if run != [] {
      StepKeeps(s, run[0]);
      if run[0].BeginMark? || run[0].WriteMarker? || run[0].WriteReceipt? || run[0].RemoveMarker? {
        MarkingKeepsFlags(s, run[0]);
      } else {
        OthersKeepFlags(s, run[0]);
      }
      RunKeepsFlags(run[1..], Perform(s, run[0]));
    }
  }

  /** After any run with crashes anywhere: a pending receipt has its marker, so a later run finds it; a
      finalized one is not pending; and every imported key belongs to one or the other. */
  lemma PendingHasMarker(run: seq<Action>, local: DeviceId, at: Coordinates)
    requires IsRun(run, Initial(local))
    ensures var s := After(run, Initial(local));
            && (at in s.receipts && s.receipts[at].pending ==> at in s.markers && !s.receipts[at].finalized)
            && (at in s.imported ==> at in s.receipts && (s.receipts[at].pending || s.receipts[at].finalized))
  {
    RunKeepsFlags(run, Initial(local));
  }

  // ---------- one name ----------

  /** A name the device gave itself or its person. */
  predicate Names(e: Event, local: DeviceId) {
    Own(e, local, DeviceProfile) || Own(e, local, PersonProfile)
  }

  predicate NamesAs(e: Event, local: DeviceId, name: string) {
    Names(e, local) ==> e.body.displayName == name
  }

  /** All stored names are this one. */
  ghost predicate Called(log: seq<Event>, local: DeviceId, name: string) {
    forall e :: e in log ==> NamesAs(e, local, name)
  }

  ghost predicate OneNamed(log: seq<Event>, local: DeviceId) {
    exists name :: Called(log, local, name)
  }

  ghost predicate SomeProfile(log: seq<Event>, local: DeviceId) {
    exists e :: e in log && Own(e, local, DeviceProfile)
  }

  ghost predicate SomeName(log: seq<Event>, local: DeviceId) {
    exists e :: e in log && Names(e, local)
  }

  /** The stored names agree, a person is named only by a device that named itself, and a name about to
      be published is the stored one. */
  ghost predicate NamesOk(log: seq<Event>, ph: Phase, local: DeviceId) {
    && OneNamed(log, local)
    && (SomeName(log, local) ==> SomeProfile(log, local))
    && (Publishing(ph) && SomeName(log, local) ==> Called(log, local, ph.name))
  }

  lemma CalledSnoc(log: seq<Event>, e: Event, local: DeviceId, name: string)
    requires Called(log, local, name) && NamesAs(e, local, name)
    ensures Called(log + [e], local, name)
  {
  }

  lemma SomeSnoc(log: seq<Event>, e: Event, local: DeviceId)
    ensures SomeName(log + [e], local) <==> SomeName(log, local) || Names(e, local)
    ensures SomeProfile(log + [e], local) <==> SomeProfile(log, local) || Own(e, local, DeviceProfile)
  {
    assert e in log + [e];
    if SomeName(log, local) {
      var x :| x in log && Names(x, local);
      assert x in log + [e];
    }
    if SomeProfile(log, local) {
      var x :| x in log && Own(x, local, DeviceProfile);
      assert x in log + [e];
    }
  }

  lemma NoNameIsAny(log: seq<Event>, local: DeviceId, name: string)
    requires !SomeName(log, local)
    ensures Called(log, local, name)
  {
  }

  /** A row that names nothing. */
  lemma SilentRow(log: seq<Event>, e: Event, ph: Phase, local: DeviceId)
    requires NamesOk(log, ph, local) && !Names(e, local)
    ensures NamesOk(log + [e], ph, local)
  {
    SomeSnoc(log, e, local);
    var name :| Called(log, local, name);
    CalledSnoc(log, e, local, name);
    if Publishing(ph) && SomeName(log, local) {
      CalledSnoc(log, e, local, ph.name);
    }
  }

  /** A row that gives the name at hand. */
  lemma NamingRow(log: seq<Event>, e: Event, ph: Phase, next: Phase, local: DeviceId)
    requires NamesOk(log, ph, local) && Publishing(ph) && Names(e, local) && e.body.displayName == ph.name
    requires SomeProfile(log, local) || Own(e, local, DeviceProfile)
    requires Publishing(next) ==> next.name == ph.name
    ensures NamesOk(log + [e], next, local)
  {
    SomeSnoc(log, e, local);
    if !SomeName(log, local) {
      NoNameIsAny(log, local, ph.name);
    }
    CalledSnoc(log, e, local, ph.name);
  }

  lemma {:induction false} ShownName(events: seq<Event>, local: DeviceId, name: string)
    requires HasProfile(Fold(Empty, events), local) && Called(events, local, name)
    ensures Fold(Empty, events).profiles[local] == name
  {
    var before, last := events[..|events| - 1], events[|events| - 1];
    assert last in events;
    if !Own(last, local, DeviceProfile) {
      assert forall e :: e in before ==> e in events;
      ShownName(before, local, name);
    }
  }

  /** The name to publish is the stored one, if one is stored. */
  lemma BegunName(s: System)
    requires IdentityInv(s) && NamesOk(s.log, s.phase, s.local) && s.phase.Idle?
    ensures NamesOk(s.log, Begun(s.log, s.key, s.receipts, s.local), s.local)
  {
    var next := Begun(s.log, s.key, s.receipts, s.local);
    if next.Naming? && SomeName(s.log, s.local) {
      StoredProfileShows(s);
      var name :| Called(s.log, s.local, name);
      MaterializedInBrief(s.log);
      assert Called(Materialize(s.log).events, s.local, name);
      ShownName(Materialize(s.log).events, s.local, name);
      assert next.name == name;
    }
  }

  lemma StoredProfileShows(s: System)
    requires IdentityInv(s) && SomeProfile(s.log, s.local)
    ensures HasProfile(View(s), s.local)
  {
    ViewShowsSlots(s);
    var e :| e in s.log && Own(e, s.local, DeviceProfile);
    SomeIsCounted(s.log, s.local, e);
  }

  lemma {:induction false} SomeIsCounted(log: seq<Event>, local: DeviceId, e: Event)
    requires e in log && Own(e, local, DeviceProfile)
    ensures Tally(log, local, DeviceProfile) > 0
  {
    if e != log[|log| - 1] {
      assert e in log[..|log| - 1];
      SomeIsCounted(log[..|log| - 1], local, e);
    }
  }

  lemma ShownIsStored(s: System)
    requires HasProfile(View(s), s.local)
    ensures SomeProfile(s.log, s.local)
  {
    FinalizedProfiles.ViewedProfile(s.log, s.local);
  }

  lemma ArrivalKeepsName(s: System, e: Event)
    requires NamesOk(s.log, s.phase, s.local) && Foreign(e, s.local)
    ensures NamesOk(s.log + [e], s.phase, s.local)
  {
    assert !Own(e, s.local, DeviceProfile) && !Own(e, s.local, PersonProfile);
    SilentRow(s.log, e, s.phase, s.local);
  }

  lemma ProfileKeepsName(s: System, e: Event)
    requires NamesOk(s.log, s.phase, s.local) && Enabled(s, PublishProfile(e))
    ensures var t := Perform(s, PublishProfile(e)); t.log == s.log + [e] && NamesOk(t.log, t.phase, s.local)
  {
    NamingRow(s.log, e, s.phase, Perform(s, PublishProfile(e)).phase, s.local);
  }

  lemma LinkKeepsName(s: System, e: Event)
    requires NamesOk(s.log, s.phase, s.local) && Enabled(s, PublishLink(e))
    ensures var t := Perform(s, PublishLink(e)); t.log == s.log + [e] && NamesOk(t.log, t.phase, s.local)
  {
    SilentRow(s.log, e, s.phase, s.local);
    assert Perform(s, PublishLink(e)).phase.name == s.phase.name;
  }

  lemma PersonKeepsName(s: System, e: Event)
    requires NamesOk(s.log, s.phase, s.local) && Enabled(s, PublishPerson(e)) && SomeProfile(s.log, s.local)
    ensures var t := Perform(s, PublishPerson(e)); t.log == s.log + [e] && NamesOk(t.log, t.phase, s.local)
  {
    NamingRow(s.log, e, s.phase, Perform(s, PublishPerson(e)).phase, s.local);
  }

  lemma StepKeepsNames(s: System, a: Action)
    requires IdentityInv(s) && NamesOk(s.log, s.phase, s.local) && Enabled(s, a) && Calm(s, a)
    ensures var t := Perform(s, a); NamesOk(t.log, t.phase, s.local)
  {
    match a
    case Arrive(e) => ArrivalKeepsName(s, e);
    case BeginFinalize => BegunName(s);
    case PublishProfile(e) => ProfileKeepsName(s, e);
    case PublishLink(e) => LinkKeepsName(s, e);
    case PublishPerson(e) =>
      ShownIsStored(s);
      PersonKeepsName(s, e);
    case _ => OtherStepsKeepName(s, a);
  }

  lemma OtherStepsKeepName(s: System, a: Action)
    requires NamesOk(s.log, s.phase, s.local) && Enabled(s, a) && FileStep(a)
    ensures var t := Perform(s, a); NamesOk(t.log, t.phase, s.local)
  {
    var t := Perform(s, a);
    assert t.log == s.log && (Publishing(t.phase) ==> Publishing(s.phase) && t.phase.name == s.phase.name);
  }

  lemma {:induction false} RunKeepsNames(run: seq<Action>, s: System)
    requires Inv(s) && IdentityInv(s) && NamesOk(s.log, s.phase, s.local) && IsRun(run, s) && CalmRun(run, s)
    ensures NamesOk(After(run, s).log, After(run, s).phase, s.local)
  {
    if run != [] {
      StepKeeps(s, run[0]);
      StepKeepsIdentity(s, run[0]);
      StepKeepsNames(s, run[0]);
      LocalStays(s, run[0]);
      RunKeepsNames(run[1..], Perform(s, run[0]));
    }
  }

  /** After any run with crashes anywhere, in which the device is not removed and each published event
      is applied at its own place: whatever claims it held meanwhile, under whatever names, the device
      and its person carry one and the same name. */
  lemma DeviceHasOneName(run: seq<Action>, local: DeviceId, i: nat, j: nat)
    requires IsRun(run, Initial(local)) && CalmRun(run, Initial(local))
    requires var log := After(run, Initial(local)).log;
             i < |log| && j < |log| && Names(log[i], local) && Names(log[j], local)
    ensures var log := After(run, Initial(local)).log; log[i].body.displayName == log[j].body.displayName
  {
    InitialIdentity(local);
    NoNameIsAny([], local, "");
    RunKeepsNames(run, Initial(local));
    var log := After(run, Initial(local)).log;
    var name :| Called(log, local, name);
    assert log[i] in log && log[j] in log;
  }
}
