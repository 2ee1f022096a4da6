/** Several processes finalizing profiles over one data directory.

    The lock around marking and finalizing is held inside one process only. Here every process has
    its own phase and its own imports in progress; the files and the event store are shared.
 */
module FinalizationProcesses {
  import opened Events
  import opened Workspace
  import opened Materialization
  import opened CanonicalClaim
  import opened ProfileIdentity
  import opened ProfileFinalization

  /** `core` is everything durable; its own phase and imports in progress are not used. */
  datatype Shared = Shared(core: System, phases: map<nat, Phase>, readies: map<nat, set<Coordinates>>)

  datatype Step = Step(process: nat, action: Action)

  function PhaseOf(m: Shared, p: nat): Phase {
    if p in m.phases then m.phases[p] else Idle
  }

  function ReadyOf(m: Shared, p: nat): set<Coordinates> {
    if p in m.readies then m.readies[p] else {}
  }

  /** The system as process `p` sees it. */
  function SeenBy(m: Shared, p: nat): System {
    m.core.(phase := PhaseOf(m, p), ready := ReadyOf(m, p))
  }

  predicate CanDo(m: Shared, x: Step) {
    Enabled(SeenBy(m, x.process), x.action)
  }

  /** A step changes the durable part and the acting process only; a crash is that of one process. */
  function Do(m: Shared, x: Step): Shared
    requires CanDo(m, x)
  {
    var t := Perform(SeenBy(m, x.process), x.action);
    Shared(t.(phase := Idle, ready := {}), m.phases[x.process := t.phase], m.readies[x.process := t.ready])
  }

  ghost predicate CanRun(run: seq<Step>, m: Shared) {
    run == [] || (CanDo(m, run[0]) && CanRun(run[1..], Do(m, run[0])))
  }

  ghost function Final(run: seq<Step>, m: Shared): Shared
    requires CanRun(run, m)
  {
    if run == [] then m else Final(run[1..], Do(m, run[0]))
  }

  function Fresh(local: DeviceId): Shared {
    Shared(Initial(local), map[], map[])
  }

  /** How the others see a step of one process. */
  lemma StepSeenByOthers(m: Shared, x: Step, q: nat)
    requires CanDo(m, x) && q != x.process
    ensures SeenBy(Do(m, x), q) == Perform(SeenBy(m, x.process), x.action).(phase := PhaseOf(m, q), ready := ReadyOf(m, q))
    ensures SeenBy(Do(m, x), x.process) == Perform(SeenBy(m, x.process), x.action)
  {
  }

  lemma StepSeenByItself(m: Shared, x: Step)
    requires CanDo(m, x)
    ensures SeenBy(Do(m, x), x.process) == Perform(SeenBy(m, x.process), x.action)
  {
  }

  // ---------- what holds however the processes interleave ----------

  /** What a process knows whatever the others do: its decision, a name to publish, and that the copy
      of a receipt it works with names the stored claim and is not finalized. */
  ghost predicate Knows(s: System) {
    DecisionOk(s) && KnowsFiles(s.phase, s.receipts)
  }

  ghost predicate AlwaysOk(m: Shared) {
    PublishedOk(m.core) && forall p :: Knows(SeenBy(m, p))
  }

  lemma PublishedIgnoresProcess(s: System, phase: Phase, ready: set<Coordinates>)
    requires PublishedOk(s)
    ensures PublishedOk(s.(phase := phase, ready := ready))
  {
    PublishedStays(s, s.(phase := phase, ready := ready));
  }

  /** Steps that append nothing. */
  lemma QuietStep(s: System, a: Action)
    requires Knows(s) && Enabled(s, a) && FileStep(a)
    ensures var t := Perform(s, a); OnlyGrows(s, t) && t.log == s.log && t.published == s.published
  {
  }

  /** What is known of the name to publish and of the files. */
  ghost predicate KnowsFiles(ph: Phase, receipts: map<Coordinates, Stored>) {
    && (Publishing(ph) ==> ph.name != "")
    && ((ph.Marking? || ph.Marked?) ==> ph.at in receipts && receipts[ph.at].receipt == ph.copy.receipt && !ph.copy.finalized)
    && (ph.Completing? ==> ph.at in receipts)
  }

  lemma BeginMarkKnows(s: System, at: Coordinates)
    requires Enabled(s, BeginMark(at))
    ensures var t := Perform(s, BeginMark(at)); KnowsFiles(t.phase, t.receipts)
  {
  }

  lemma WriteMarkKnows(s: System, a: Action)
    requires KnowsFiles(s.phase, s.receipts) && Enabled(s, a) && (a.WriteMarker? || a.WriteReceipt? || a.RemoveMarker?)
    ensures var t := Perform(s, a); KnowsFiles(t.phase, t.receipts)
  {
  }

  lemma LookStepKnows(s: System, a: Action)
    requires KnowsFiles(s.phase, s.receipts) && Enabled(s, a) && (a.KeepProfile? || a.WriteFinalized?)
    ensures var t := Perform(s, a); KnowsFiles(t.phase, t.receipts)
  {
  }

  lemma RefreshedKnows(ph: Phase, v: State, local: DeviceId, looked: nat, receipts: map<Coordinates, Stored>)
    requires ph.Linking? && KnowsFiles(ph, receipts) && ph.at in receipts
    ensures KnowsFiles(Refreshed(ph, v, local, looked), receipts)
  {
  }

  lemma RefreshKnows(s: System)
    requires KnowsFiles(s.phase, s.receipts) && s.phase.Linking? && s.phase.at in s.receipts
    ensures var t := Perform(s, Refresh); KnowsFiles(t.phase, t.receipts)
  {
    RefreshedKnows(s.phase, View(s), s.local, |s.log|, s.receipts);
  }

  lemma PrepareKnows(s: System, at: Coordinates, r: Receipt)
    requires KnowsFiles(s.phase, s.receipts) && Enabled(s, Prepare(at, r))
    ensures KnowsFiles(s.phase, Perform(s, Prepare(at, r)).receipts)
  {
  }

  lemma OtherStepKnows(s: System, a: Action)
    requires KnowsFiles(s.phase, s.receipts) && Enabled(s, a) && (a.ImportKey? || a.Fail? || a.Crash?)
    ensures var t := Perform(s, a); KnowsFiles(t.phase, t.receipts)
  {
  }

  lemma QuietStepKnows(s: System, a: Action)
    requires KnowsFiles(s.phase, s.receipts) && Enabled(s, a) && FileStep(a)
    requires Publishing(s.phase) ==> s.phase.at in s.receipts
    ensures var t := Perform(s, a); KnowsFiles(t.phase, t.receipts)
  {
    match a
    case BeginMark(at) => BeginMarkKnows(s, at);
    case WriteMarker => WriteMarkKnows(s, a);
    case WriteReceipt => WriteMarkKnows(s, a);
    case RemoveMarker => WriteMarkKnows(s, a);
    case KeepProfile => LookStepKnows(s, a);
    case WriteFinalized => LookStepKnows(s, a);
    case Refresh => RefreshKnows(s);
    case Prepare(at, r) => PrepareKnows(s, at, r);
    case _ => OtherStepKnows(s, a);
  }

  lemma QuietStepKeeps(s: System, a: Action)
    requires PublishedOk(s) && Knows(s) && Enabled(s, a) && FileStep(a)
    ensures OnlyGrows(s, Perform(s, a)) && PublishedOk(Perform(s, a)) && Knows(Perform(s, a))
  {
    QuietStep(s, a);
    FileStepPhase(s, a);
    PublishedStays(s, Perform(s, a));
    DecisionKept(s, Perform(s, a));
    QuietStepKnows(s, a);
  }

  lemma ArrivalKeeps(s: System, e: Event)
    requires PublishedOk(s) && Knows(s) && Foreign(e, s.local)
    ensures var t := s.(log := s.log + [e]); OnlyGrows(s, t) && PublishedOk(t) && Knows(t)
  {
    var t := s.(log := s.log + [e]);
    PublishedStays(s, t);
    DecisionKept(s, t);
  }

  lemma BeginKeeps(s: System)
    requires PublishedOk(s) && Knows(s) && Enabled(s, BeginFinalize)
    ensures var t := Perform(s, BeginFinalize); OnlyGrows(s, t) && PublishedOk(t) && Knows(t)
  {
    var next := Begun(s.log, s.key, s.receipts, s.local);
    PublishedStays(s, s.(phase := next));
    if next.Naming? {
      BegunIsGranted(s.log, s.key, s.receipts, s.local);
      NamingIsDecided(s, next);
    }
  }

  lemma PublishingKeeps(s: System, e: Event, next: Phase)
    requires PublishedOk(s) && Knows(s) && (s.phase.Naming? || s.phase.Unlinked? || s.phase.Profiling?)
    requires next.Linking? || next.Profiling? || next.Completing?
    requires next.at == s.phase.at && (Publishing(next) ==> next.name == s.phase.name && next.from == s.phase.from)
    ensures var t := Publish(s, e, next); OnlyGrows(s, t) && PublishedOk(t) && Knows(t)
  {
    PublishedExtends(s, e, next);
    DecisionKept(s, Publish(s, e, next));
  }

  lemma ProcessStepKeeps(s: System, a: Action)
    requires PublishedOk(s) && Knows(s) && Enabled(s, a)
    ensures OnlyGrows(s, Perform(s, a)) && PublishedOk(Perform(s, a)) && Knows(Perform(s, a))
  {
    match a
    case Arrive(e) => ArrivalKeeps(s, e);
    case BeginFinalize => BeginKeeps(s);
    case PublishProfile(_) => PublishingStepKeeps(s, a);
    case PublishLink(_) => PublishingStepKeeps(s, a);
    case PublishPerson(_) => PublishingStepKeeps(s, a);
    case _ => QuietStepKeeps(s, a);
  }

  lemma PublishingStepKeeps(s: System, a: Action)
    requires PublishedOk(s) && Knows(s) && Enabled(s, a) && (a.PublishProfile? || a.PublishLink? || a.PublishPerson?)
    ensures OnlyGrows(s, Perform(s, a)) && PublishedOk(Perform(s, a)) && Knows(Perform(s, a))
  {
    PublishingKeeps(s, a.e, Perform(s, a).phase);
  }

  /** What another process knows survives. */
  lemma OthersStillKnow(s: System, t: System, phase: Phase, ready: set<Coordinates>)
    requires OnlyGrows(s, t) && Knows(s.(phase := phase, ready := ready))
    ensures Knows(t.(phase := phase, ready := ready))
  {
    var a, b := s.(phase := phase, ready := ready), t.(phase := phase, ready := ready);
    DecisionKept(a, b);
  }

  lemma SharedStepKeeps(m: Shared, x: Step)
    requires AlwaysOk(m) && CanDo(m, x)
    ensures AlwaysOk(Do(m, x)) && Do(m, x).core.local == m.core.local
  {
    var s := SeenBy(m, x.process);
    var t := Perform(s, x.action);
    PublishedIgnoresProcess(m.core, s.phase, s.ready);
    ProcessStepKeeps(s, x.action);
    PublishedIgnoresProcess(t, Idle, {});
    forall p
      ensures Knows(SeenBy(Do(m, x), p))
    {
      if p == x.process {
        StepSeenByItself(m, x);
      } else {
        StepSeenByOthers(m, x, p);
        assert s.(phase := PhaseOf(m, p), ready := ReadyOf(m, p)) == SeenBy(m, p);
        assert Knows(SeenBy(m, p));
        OthersStillKnow(s, t, PhaseOf(m, p), ReadyOf(m, p));
      }
    }
  }

  lemma {:induction false} SharedRunKeeps(run: seq<Step>, m: Shared)
    requires AlwaysOk(m) && CanRun(run, m)
    ensures AlwaysOk(Final(run, m)) && Final(run, m).core.local == m.core.local
  {
    if run != [] {
      SharedStepKeeps(m, run[0]);
      SharedRunKeeps(run[1..], Do(m, run[0]));
    }
  }

  /** With any number of processes, any interleaving, crashes, removals and new invites, every profile
      event of the local device was published with the key present and decided on a history in which
      its active membership was granted by a canonical claim. */
  lemma ProfilesAlwaysNeedKeyAndMembership(run: seq<Step>, local: DeviceId, i: nat, kind: Kind) returns (k: nat)
    requires CanRun(run, Fresh(local))
    requires var s := Final(run, Fresh(local)).core; i < |s.log| && Own(s.log[i], local, kind)
    ensures var s := Final(run, Fresh(local)).core;
            && s.key
            && k < |s.published| && s.published[k].index == i && s.published[k].from <= i
            && DecidedOn(s, s.published[k].at, s.published[k].from)
  {
    SharedRunKeeps(run, Fresh(local));
    var s := Final(run, Fresh(local)).core;
    assert Listed(s, i);
    k :| 0 <= k < |s.published| && s.published[k].index == i && s.published[k].from <= i;
  }

  // ---------- exactly when the intent is lost ----------

  /** The claim's key is imported or about to be. */
  ghost predicate Wanted(m: Shared, at: Coordinates) {
    at in m.core.imported || exists p :: at in ReadyOf(m, p)
  }

  ghost predicate IntentKept(m: Shared) {
    forall at :: Wanted(m, at) ==> Recoverable(m.core, at)
  }

  /** A receipt written over after the marker was removed, or a marker removed after the receipt was
      written over. */
  ghost predicate LosesIntent(m: Shared, x: Step) {
    var s := SeenBy(m, x.process);
    || (x.action.WriteReceipt? && s.phase.Marked? && s.phase.at !in s.markers)
    || (x.action.RemoveMarker? && (s.phase.Unmarking? || s.phase.Clearing?)
        && !(s.phase.at in s.receipts && s.receipts[s.phase.at].finalized)
        && (s.phase.Unmarking? || Wanted(m, s.phase.at)))
  }

  lemma WantedAfter(m: Shared, x: Step, at: Coordinates)
    requires CanDo(m, x) && Wanted(Do(m, x), at)
    ensures Wanted(m, at)
            || ((x.action.WriteReceipt? || (x.action.RemoveMarker? && SeenBy(m, x.process).phase.Unmarking?))
                && at == SeenBy(m, x.process).phase.at)
  {
    var s := SeenBy(m, x.process);
    var t := Perform(s, x.action);
    if at in Do(m, x).core.imported && at !in m.core.imported {
      assert at in ReadyOf(m, x.process);
    }
    if p :| at in ReadyOf(Do(m, x), p) {
      if p == x.process && at !in s.ready {
        assert at in t.ready;
      } else {
        assert at in ReadyOf(m, p);
      }
    }
  }

  lemma RecoverableStep(s: System, a: Action, at: Coordinates)
    requires Enabled(s, a) && Recoverable(s, at) && (s.phase.Completing? ==> s.phase.at in s.receipts)
    ensures Recoverable(Perform(s, a), at)
            || (a.WriteReceipt? && at == s.phase.at && at !in s.markers)
            || (a.RemoveMarker? && at == s.phase.at && !(at in s.receipts && s.receipts[at].finalized))
  {
  }

  /** In any interleaving, a step loses the intent of some claim if and only if it is one of these. */
  lemma IntentLostExactly(m: Shared, x: Step)
    requires AlwaysOk(m) && IntentKept(m) && CanDo(m, x)
    ensures IntentKept(Do(m, x)) <==> !LosesIntent(m, x)
  {
    var s := SeenBy(m, x.process);
    assert Knows(s);
    if LosesIntent(m, x) {
      assert s.phase.at in ReadyOf(Do(m, x), x.process) || Wanted(m, s.phase.at);
      LostIsWanted(m, x);
    } else {
      forall at | Wanted(Do(m, x), at) ensures Recoverable(Do(m, x).core, at) {
        WantedAfter(m, x, at);
        if Wanted(m, at) {
          RecoverableStep(s, x.action, at);
        }
      }
    }
  }

  lemma LostIsWanted(m: Shared, x: Step)
    requires AlwaysOk(m) && CanDo(m, x) && LosesIntent(m, x)
    ensures var at := SeenBy(m, x.process).phase.at;
            Wanted(Do(m, x), at) && !Recoverable(Do(m, x).core, at)
  {
    var s := SeenBy(m, x.process);
    assert Knows(s);
    var at := s.phase.at;
    if x.action.WriteReceipt? || s.phase.Unmarking? {
      assert at in ReadyOf(Do(m, x), x.process);
    } else if at !in m.core.imported {
      var p :| at in ReadyOf(m, p);
      assert at in ReadyOf(Do(m, x), p);
    }
  }

  lemma {:induction false} IntentKeptExactly(run: seq<Step>, m: Shared)
    requires AlwaysOk(m) && IntentKept(m) && CanRun(run, m)
    ensures AlwaysKeepsIntent(run, m) <==> NeverLosesIntent(run, m)
  {
    if run != [] {
      IntentLostExactly(m, run[0]);
      SharedStepKeeps(m, run[0]);
      if IntentKept(Do(m, run[0])) {
        IntentKeptExactly(run[1..], Do(m, run[0]));
      }
    }
  }

  /** In every state of the run each imported key has its marker or a finalized receipt. */
  ghost predicate AlwaysKeepsIntent(run: seq<Step>, m: Shared)
    requires CanRun(run, m)
  {
    IntentKept(m) && (run == [] || AlwaysKeepsIntent(run[1..], Do(m, run[0])))
  }

  ghost predicate NeverLosesIntent(run: seq<Step>, m: Shared)
    requires CanRun(run, m)
  {
    run == [] || (!LosesIntent(m, run[0]) && NeverLosesIntent(run[1..], Do(m, run[0])))
  }

  // ---------- processes that do not overlap ----------

  predicate Outside(a: Action) {
    a.Arrive? || a.Prepare? || a.ImportKey?
  }

  /** The step is outside the guarded section, or no other process is inside it. */
  ghost predicate Alone(m: Shared, x: Step) {
    Outside(x.action) || forall q :: q != x.process ==> PhaseOf(m, q) == Idle
  }

  ghost predicate NeverOverlaps(run: seq<Step>, m: Shared)
    requires CanRun(run, m)
  {
    run == [] || (Alone(m, run[0]) && NeverOverlaps(run[1..], Do(m, run[0])))
  }

  ghost predicate SerialInv(m: Shared) {
    forall p :: Inv(SeenBy(m, p))
  }

  lemma RecoverableStays(s: System, a: Action, at: Coordinates)
    requires FilesOk(s) && Enabled(s, a) && Recoverable(s, at)
    ensures Recoverable(Perform(s, a), at)
  {
  }

  lemma IdleProcess(s: System, t: System, ready: set<Coordinates>)
    requires Inv(t) && forall at :: at in ready ==> Recoverable(t, at)
    ensures Inv(t.(phase := Idle, ready := ready))
  {
    PublishedIgnoresProcess(t, Idle, ready);
  }

  lemma OutsideGrows(s: System, a: Action, phase: Phase, ready: set<Coordinates>)
    requires Outside(a) && Enabled(s, a)
    ensures OnlyGrows(s.(phase := phase, ready := ready), Perform(s, a).(phase := phase, ready := ready))
  {
  }

  lemma OutsideFiles(s: System, a: Action, phase: Phase, ready: set<Coordinates>)
    requires Outside(a) && Enabled(s, a) && FilesOk(s.(phase := phase, ready := ready))
    ensures FilesOk(Perform(s, a).(phase := phase, ready := ready))
  {
  }

  lemma OutsideIntent(s: System, a: Action, phase: Phase, ready: set<Coordinates>)
    requires Outside(a) && Enabled(s, a) && IntentOk(s) && IntentOk(s.(phase := phase, ready := ready))
    ensures IntentOk(Perform(s, a).(phase := phase, ready := ready))
  {
  }

  /** A step outside the section leaves what the other processes rely on. */
  lemma OutsideKeepsOthers(s: System, a: Action, phase: Phase, ready: set<Coordinates>)
    requires Inv(s) && Inv(s.(phase := phase, ready := ready)) && Outside(a) && Enabled(s, a)
    requires PublishedOk(Perform(s, a))
    ensures Inv(Perform(s, a).(phase := phase, ready := ready))
  {
    OutsideGrows(s, a, phase, ready);
    OutsideFiles(s, a, phase, ready);
    OutsideIntent(s, a, phase, ready);
    DecisionKept(s.(phase := phase, ready := ready), Perform(s, a).(phase := phase, ready := ready));
    PublishedIgnoresProcess(Perform(s, a), phase, ready);
  }

  lemma SerialStepKeeps(m: Shared, x: Step)
    requires SerialInv(m) && CanDo(m, x) && Alone(m, x)
    ensures SerialInv(Do(m, x)) && Do(m, x).core.local == m.core.local
  {
    var s := SeenBy(m, x.process);
    var t := Perform(s, x.action);
    assert Inv(s);
    StepKeeps(s, x.action);
    LocalStays(s, x.action);
    forall p
      ensures Inv(SeenBy(Do(m, x), p))
    {
      if p == x.process {
        StepSeenByItself(m, x);
      } else {
        StepSeenByOthers(m, x, p);
        assert s.(phase := PhaseOf(m, p), ready := ReadyOf(m, p)) == SeenBy(m, p);
        assert Inv(SeenBy(m, p));
        if Outside(x.action) {
          OutsideKeepsOthers(s, x.action, PhaseOf(m, p), ReadyOf(m, p));
        } else {
          forall at | at in ReadyOf(m, p) ensures Recoverable(t, at) {
            RecoverableStays(s, x.action, at);
          }
          IdleProcess(s, t, ReadyOf(m, p));
        }
      }
    }
  }

  /** Identity, too, is kept when processes do not overlap. */
  ghost predicate SerialIdentity(m: Shared) {
    forall p :: IdentityInv(SeenBy(m, p))
  }

  lemma IdentityIgnoresReady(s: System, phase: Phase, ready: set<Coordinates>)
    requires IdentityInv(s) && IdentityOk(phase, View(s), s.local)
    ensures IdentityInv(s.(phase := phase, ready := ready))
  {
    var t := s.(phase := phase, ready := ready);
    assert SomeFinalized(t) ==> SomeFinalized(s);
  }

  lemma OutsideKeepsIdentity(s: System, a: Action, phase: Phase, ready: set<Coordinates>)
    requires IdentityInv(s) && FilesOk(s) && Outside(a) && Enabled(s, a) && Calm(s, a)
    requires IdentityInv(s.(phase := phase, ready := ready))
    ensures IdentityInv(Perform(s, a).(phase := phase, ready := ready))
  {
    var t := s.(phase := phase, ready := ready);
    if a.Arrive? {
      ArrivalKeepsIdentity(t, a.e);
      assert Perform(s, a).(phase := phase, ready := ready) == t.(log := t.log + [a.e]);
    } else {
      StepKeepsIdentity(s, a);
      assert Perform(s, a).log == s.log && Perform(s, a).local == s.local;
      IdentityIgnoresReady(Perform(s, a), phase, ready);
    }
  }

  lemma SerialStepKeepsIdentity(m: Shared, x: Step)
    requires SerialInv(m) && SerialIdentity(m) && CanDo(m, x) && Alone(m, x) && Calm(SeenBy(m, x.process), x.action)
    ensures SerialIdentity(Do(m, x))
  {
    var s := SeenBy(m, x.process);
    assert Inv(s) && IdentityInv(s);
    StepKeepsIdentity(s, x.action);
    forall p
      ensures IdentityInv(SeenBy(Do(m, x), p))
    {
      if p == x.process {
        StepSeenByItself(m, x);
      } else {
        StepSeenByOthers(m, x, p);
        assert s.(phase := PhaseOf(m, p), ready := ReadyOf(m, p)) == SeenBy(m, p);
        assert IdentityInv(SeenBy(m, p));
        if Outside(x.action) {
          OutsideKeepsIdentity(s, x.action, PhaseOf(m, p), ReadyOf(m, p));
        } else {
          IdentityIgnoresReady(Perform(s, x.action), Idle, ReadyOf(m, p));
        }
      }
    }
  }

  ghost predicate CalmSteps(run: seq<Step>, m: Shared)
    requires CanRun(run, m)
  {
    run == [] || (Calm(SeenBy(m, run[0].process), run[0].action) && CalmSteps(run[1..], Do(m, run[0])))
  }

  lemma {:induction false} SerialRunKeeps(run: seq<Step>, m: Shared)
    requires SerialInv(m) && CanRun(run, m) && NeverOverlaps(run, m)
    ensures SerialInv(Final(run, m)) && Final(run, m).core.local == m.core.local
  {
    if run != [] {
      SerialStepKeeps(m, run[0]);
      SerialRunKeeps(run[1..], Do(m, run[0]));
    }
  }

  lemma {:induction false} SerialRunKeepsIdentity(run: seq<Step>, m: Shared)
    requires SerialInv(m) && SerialIdentity(m) && CanRun(run, m) && NeverOverlaps(run, m) && CalmSteps(run, m)
    ensures SerialIdentity(Final(run, m))
  {
    if run != [] {
      SerialStepKeeps(m, run[0]);
      SerialStepKeepsIdentity(m, run[0]);
      SerialRunKeepsIdentity(run[1..], Do(m, run[0]));
    }
  }

  lemma FreshIsSerial(local: DeviceId)
    ensures SerialInv(Fresh(local)) && SerialIdentity(Fresh(local))
  {
    InitialIdentity(local);
    assert forall p :: SeenBy(Fresh(local), p) == Initial(local);
  }

  /** When the guarded sections of different processes never overlap, no imported key loses its
      intent; and if the device is not removed and each published event is applied at its own place,
      a finalized claim has a complete identity and no profile event is written twice. */
  lemma SerialProcessesAreCrashSafe(run: seq<Step>, local: DeviceId)
    requires CanRun(run, Fresh(local)) && NeverOverlaps(run, Fresh(local))
    ensures IntentKept(Final(run, Fresh(local)))
    ensures CalmSteps(run, Fresh(local)) ==>
              var s := Final(run, Fresh(local)).core;
              && (forall at :: at in s.receipts && s.receipts[at].finalized ==> CompleteIdentity(View(s), local))
              && (forall kind :: Tally(s.log, local, kind) <= 1)
  {
    FreshIsSerial(local);
    SerialRunKeeps(run, Fresh(local));
    var m := Final(run, Fresh(local));
    forall at | Wanted(m, at) ensures Recoverable(m.core, at) {
      if at in m.core.imported {
        assert Inv(SeenBy(m, 0));
      } else {
        var p :| at in ReadyOf(m, p);
        assert Inv(SeenBy(m, p));
      }
    }
    if CalmSteps(run, Fresh(local)) {
      SerialRunKeepsIdentity(run, Fresh(local));
      assert IdentityInv(SeenBy(m, 0));
      TalliesAreSmall(SeenBy(m, 0));
    }
  }

  // ---------- runs of a single process ----------

  /** Only process `p` is busy, and it sees `s`. */
  ghost predicate Busy(m: Shared, p: nat, s: System) {
    && SeenBy(m, p) == s && m.core == s.(phase := Idle, ready := {})
    && forall q :: q != p ==> PhaseOf(m, q) == Idle && ReadyOf(m, q) == {}
  }

  function By(p: nat, run: seq<Action>): seq<Step> {
    seq(|run|, i requires 0 <= i < |run| => Step(p, run[i]))
  }

  lemma BusyStep(m: Shared, p: nat, s: System, a: Action)
    requires Busy(m, p, s) && Enabled(s, a)
    ensures CanDo(m, Step(p, a)) && Busy(Do(m, Step(p, a)), p, Perform(s, a))
  {
    var t := Perform(s, a);
    StepSeenByItself(m, Step(p, a));
    assert Do(m, Step(p, a)).core == t.(phase := Idle, ready := {});
    forall q | q != p ensures PhaseOf(Do(m, Step(p, a)), q) == Idle && ReadyOf(Do(m, Step(p, a)), q) == {} {
      assert PhaseOf(m, q) == Idle && ReadyOf(m, q) == {};
    }
  }

  lemma RunCons(x: Step, rest: seq<Step>, m: Shared)
    requires CanDo(m, x) && CanRun(rest, Do(m, x))
    ensures CanRun([x] + rest, m) && Final([x] + rest, m) == Final(rest, Do(m, x))
  {
    assert ([x] + rest)[1..] == rest;
  }

  lemma RunTail(run: seq<Step>, m: Shared)
    requires CanRun(run, m) && run != []
    ensures CanDo(m, run[0]) && CanRun(run[1..], Do(m, run[0])) && Final(run, m) == Final(run[1..], Do(m, run[0]))
  {
  }

  // ---------- overlaps ----------

  /** What a process may publish, should it start now. */
  ghost predicate CouldName(s: System, name: string) {
    var next := Begun(s.log, s.key, s.receipts, s.local);
    next.Naming? && next.missing && next.name == name
  }

  lemma BeginNames(m: Shared, p: nat, name: string)
    requires PhaseOf(m, p) == Idle && CouldName(m.core, name)
    ensures var x := Step(p, BeginFinalize);
            && CanDo(m, x)
            && PhaseOf(Do(m, x), p).Naming? && PhaseOf(Do(m, x), p).missing && PhaseOf(Do(m, x), p).name == name
            && CouldName(Do(m, x).core, name)
            && Do(m, x).core.log == m.core.log && Do(m, x).core.local == m.core.local
            && forall q :: q != p ==> PhaseOf(Do(m, x), q) == PhaseOf(m, q)
  {
    var s := SeenBy(m, p);
    assert Perform(s, BeginFinalize) == s.(phase := Begun(s.log, s.key, s.receipts, s.local));
  }

  lemma BothPublish(m: Shared, p: nat, q: nat, e: Event, f: Event)
    requires p != q && PhaseOf(m, p).Naming? && PhaseOf(m, q).Naming? && PhaseOf(m, p).missing && PhaseOf(m, q).missing
    requires Own(e, m.core.local, DeviceProfile) && e.body.displayName == PhaseOf(m, p).name
    requires Own(f, m.core.local, DeviceProfile) && f.body.displayName == PhaseOf(m, q).name
    ensures CanDo(m, Step(p, PublishProfile(e))) && CanDo(Do(m, Step(p, PublishProfile(e))), Step(q, PublishProfile(f)))
    ensures var end := Do(Do(m, Step(p, PublishProfile(e))), Step(q, PublishProfile(f))).core;
            Tally(end.log, m.core.local, DeviceProfile) == Tally(m.core.log, m.core.local, DeviceProfile) + 2
  {
    TallySnoc(m.core.log, e, m.core.local, DeviceProfile);
    TallySnoc(m.core.log + [e], f, m.core.local, DeviceProfile);
  }

  lemma FourSteps(a: Step, b: Step, c: Step, d: Step, m: Shared, one: Shared, two: Shared, three: Shared)
    requires CanDo(m, a) && one == Do(m, a) && CanDo(one, b) && two == Do(one, b)
    requires CanDo(two, c) && three == Do(two, c) && CanDo(three, d)
    ensures CanRun([a, b, c, d], m) && Final([a, b, c, d], m) == Do(three, d)
  {
    RunCons(d, [], three);
    RunCons(c, [d] + [], two);
    RunCons(b, [c] + ([d] + []), one);
    RunCons(a, [b] + ([c] + ([d] + [])), m);
    assert [a] + ([b] + ([c] + ([d] + []))) == [a, b, c, d];
  }

  /** Overlap duplicates: wherever one process could start publishing a missing profile, two that
      start together both publish it. */
  lemma OverlapDuplicatesProfile(m: Shared, p: nat, q: nat, e: Event, f: Event)
    requires p != q && PhaseOf(m, p) == Idle && PhaseOf(m, q) == Idle
    requires Own(e, m.core.local, DeviceProfile) && Own(f, m.core.local, DeviceProfile)
    requires e.body.displayName == f.body.displayName && CouldName(m.core, e.body.displayName)
    ensures var run := [Step(p, BeginFinalize), Step(q, BeginFinalize), Step(p, PublishProfile(e)), Step(q, PublishProfile(f))];
            && CanRun(run, m)
            && Tally(Final(run, m).core.log, m.core.local, DeviceProfile) == Tally(m.core.log, m.core.local, DeviceProfile) + 2
  {
    BothBegin(m, p, q, e.body.displayName);
    var one := Do(m, Step(p, BeginFinalize));
    var two := Do(one, Step(q, BeginFinalize));
    BothPublish(two, p, q, e, f);
    FourSteps(Step(p, BeginFinalize), Step(q, BeginFinalize), Step(p, PublishProfile(e)), Step(q, PublishProfile(f)),
              m, one, two, Do(two, Step(p, PublishProfile(e))));
  }

  lemma BothBegin(m: Shared, p: nat, q: nat, name: string)
    requires p != q && PhaseOf(m, p) == Idle && PhaseOf(m, q) == Idle && CouldName(m.core, name)
    ensures CanDo(m, Step(p, BeginFinalize)) && CanDo(Do(m, Step(p, BeginFinalize)), Step(q, BeginFinalize))
    ensures var two := Do(Do(m, Step(p, BeginFinalize)), Step(q, BeginFinalize));
            && PhaseOf(two, p).Naming? && PhaseOf(two, p).missing && PhaseOf(two, p).name == name
            && PhaseOf(two, q).Naming? && PhaseOf(two, q).missing && PhaseOf(two, q).name == name
            && two.core.log == m.core.log && two.core.local == m.core.local
  {
    BeginNames(m, p, name);
    BeginNames(Do(m, Step(p, BeginFinalize)), q, name);
  }

  /** Overlap loses the intent: a process that marks a claim while another finishes it leaves the
      imported key with neither a marker nor a finalized receipt. */
  lemma OverlapLosesIntent(m: Shared, p: nat, q: nat, at: Coordinates)
    requires p != q && PhaseOf(m, q) == Completing(at)
    requires at in m.core.receipts && !m.core.receipts[at].finalized
    requires PhaseOf(m, p) == Marked(at, m.core.receipts[at])
    ensures var run := [Step(q, WriteFinalized), Step(q, RemoveMarker), Step(p, WriteReceipt), Step(p, ImportKey(at))];
            && CanRun(run, m)
            && at in Final(run, m).core.imported && !Recoverable(Final(run, m).core, at)
  {
    var one := Do(m, Step(q, WriteFinalized));
    FinishesWhileMarked(m, p, q, at);
    var two := Do(one, Step(q, RemoveMarker));
    WritesOver(two, p, at);
    FourSteps(Step(q, WriteFinalized), Step(q, RemoveMarker), Step(p, WriteReceipt), Step(p, ImportKey(at)),
              m, one, two, Do(two, Step(p, WriteReceipt)));
  }

  lemma FinishesWhileMarked(m: Shared, p: nat, q: nat, at: Coordinates)
    requires p != q && PhaseOf(m, q) == Completing(at) && at in m.core.receipts && PhaseOf(m, p).Marked?
    ensures CanDo(m, Step(q, WriteFinalized)) && CanDo(Do(m, Step(q, WriteFinalized)), Step(q, RemoveMarker))
    ensures var two := Do(Do(m, Step(q, WriteFinalized)), Step(q, RemoveMarker));
            at !in two.core.markers && PhaseOf(two, p) == PhaseOf(m, p)
  {
  }

  lemma WritesOver(m: Shared, p: nat, at: Coordinates)
    requires PhaseOf(m, p).Marked? && PhaseOf(m, p).at == at && !PhaseOf(m, p).copy.finalized && at !in m.core.markers
    ensures CanDo(m, Step(p, WriteReceipt)) && CanDo(Do(m, Step(p, WriteReceipt)), Step(p, ImportKey(at)))
    ensures var end := Do(Do(m, Step(p, WriteReceipt)), Step(p, ImportKey(at))).core;
            at in end.imported && !Recoverable(end, at)
  {
  }
}
