/** Runs of the finalization protocol that break what one would expect of it. */
module FinalizationExamples {
  import opened Events
  import opened Workspace
  import opened Materialization
  import InviteClaims
  import opened CanonicalClaim
  import opened ProfileIdentity
  import opened ProfileFinalization
  import opened FinalizationProcesses
  import opened FinalizationRuns
  import opened RepairedGaps
  import opened ClaimExamples
  import opened JoinerStory

  // ---------- joining ----------

  ghost function Local(t: Story): System {
    Initial(t.claim.device)
  }

  /** The joiner has the history, its receipt, its marker and the key, and nothing is going on. */
  ghost function Joined(t: Story): System {
    Local(t).(log := Rows(t), key := true, receipts := Receipts(t), markers := {At(t)}, imported := {At(t)})
  }

  lemma RowsAreForeign(t: Story)
    requires IsStory(t)
    ensures forall e :: e in Rows(t) ==> Foreign(e, t.claim.device)
  {
    forall e | e in Rows(t) ensures e.author == t.owner {
      assert e in Simple(t) || e in InviteClaims.Triple(Materialize(Simple(t)), t.claim, t.owner, Regular, t.first);
    }
  }

  lemma Joining(t: Story, ok: Rule)
    requires IsStory(t)
    ensures Reaches(Local(t), Joined(t), ok)
  {
    RowsAreForeign(t);
    RowsReach(Local(t), Rows(t), ok);
    assert [] + Rows(t) == Rows(t);
    MarkReaches(Local(t).(log := Rows(t)), At(t), ReceiptFor(t), ok);
    Then(Local(t), Local(t).(log := Rows(t)), Joined(t), ok);
  }

  lemma JoinedCouldName(t: Story)
    requires IsStory(t)
    ensures CouldName(Joined(t), t.claim.displayName)
    ensures Begun(Joined(t).log, true, Receipts(t), t.claim.device)
            == Naming(At(t), t.claim.displayName, true, |Rows(t)|)
  {
    ClaimIsActive(t);
    MaterializedInBrief(Rows(t));
    RowsSayNothing(t);
    NoProfiles(Materialize(Rows(t)).events);
    NoLinks(Materialize(Rows(t)).events);
  }

  /** The history arrives at a fresh device, which records its intent and imports the key. */
  lemma FreshJoins(t: Story, ok: Rule) returns (m: Shared)
    requires IsStory(t)
    ensures Busy(m, 0, Joined(t)) && AllReach(Fresh(t.claim.device), m, ok)
  {
    Joining(t, ok);
    m := BusyReaches(Fresh(t.claim.device), 0, Local(t), Joined(t), ok);
  }

  // ---------- two processes ----------

  /** The profile one process writes, and the one the other writes after it. */
  ghost function EarlierProfile(t: Story): Event {
    Write(Rows(t), t.claim.device, Profile(t))
  }

  ghost function LaterProfile(t: Story): Event {
    Write(Rows(t) + [EarlierProfile(t)], t.claim.device, Profile(t))
  }

  lemma BothAreWritten(t: Story)
    requires IsStory(t)
    ensures WrittenNow(Rows(t), EarlierProfile(t)) && WrittenNow(Rows(t) + [EarlierProfile(t)], LaterProfile(t))
  {
    assert Rows(t) + [] == Rows(t);
    JoinerIsMember(t, []);
    ProfileIsWritten(Rows(t), t.claim.device, t.claim.displayName);
    OwnProfileLeavesJoiner(t, EarlierProfile(t));
    JoinerIsMember(t, [EarlierProfile(t)]);
    ProfileIsWritten(Rows(t) + [EarlierProfile(t)], t.claim.device, t.claim.displayName);
  }

  /** From nothing: the history arrives, the key is imported, two processes finalize together, and
      the profile is published twice. */
  lemma ProfilePublishedTwice(t: Story) returns (run: seq<Step>)
    requires IsStory(t)
    ensures CanRun(run, Fresh(t.claim.device)) && AllObey(run, Fresh(t.claim.device), OnHeads())
    ensures Tally(Final(run, Fresh(t.claim.device)).core.log, t.claim.device, DeviceProfile) >= 2
  {
    BothAreWritten(t);
    var joined := FreshJoins(t, OnHeads());
    var end := FinalizeTogether(t, joined, OnHeads());
    AllThen(Fresh(t.claim.device), joined, end, OnHeads());
    run :| CanRun(run, Fresh(t.claim.device)) && Final(run, Fresh(t.claim.device)) == end && AllObey(run, Fresh(t.claim.device), OnHeads());
  }

  lemma FinalizeTogether(t: Story, m: Shared, ok: Rule) returns (end: Shared)
    requires IsStory(t) && Busy(m, 0, Joined(t)) && ok(Rows(t), EarlierProfile(t)) && ok(Rows(t) + [EarlierProfile(t)], LaterProfile(t))
    ensures AllReach(m, end, ok) && Tally(end.core.log, t.claim.device, DeviceProfile) >= 2
  {
    JoinedCouldName(t);
    assert PhaseOf(m, 0) == Idle && PhaseOf(m, 1) == Idle;
    var both := TogetherBegin(m, t.claim.displayName, ok);
    end := TogetherPublish(both, EarlierProfile(t), LaterProfile(t), ok);
    AllThen(m, both, end, ok);
  }

  // ---------- an intent that is lost ----------

  ghost function One(t: Story): seq<Event> {
    Rows(t) + [EarlierProfile(t)]
  }

  ghost function LinkEvent(t: Story): Event {
    Write(One(t), t.claim.device, PersonDeviceLinked("person", t.claim.device))
  }

  ghost function PersonEvent(t: Story): Event {
    Write(One(t) + [LinkEvent(t)], t.claim.device, PersonProfileUpdated("person", t.claim.displayName))
  }

  lemma StillUnlinked(t: Story)
    requires IsStory(t)
    ensures Materialize(One(t)).state.links == map[] && UnusedPerson(One(t), "person")
  {
    RowsSayNothing(t);
    MaterializedInBrief(One(t));
    NoLinks(Materialize(One(t)).events);
  }

  lemma OneIsApplied(t: Story)
    requires IsStory(t)
    ensures IdSet(One(t)) <= IdSet(Materialize(One(t)).events)
  {
    RowsAreMaterialized(t);
    BothAreWritten(t);
    WrittenOnComplete(Rows(t), EarlierProfile(t));
  }

  lemma JoinerStaysMember(t: Story)
    requires IsStory(t)
    ensures IsMember(Materialize(One(t)).state, t.claim.device)
  {
    OwnProfileLeavesJoiner(t, EarlierProfile(t));
    JoinerIsMember(t, [EarlierProfile(t)]);
  }

  lemma LinkIsWritten(t: Story)
    requires IsStory(t)
    ensures WrittenNow(One(t), LinkEvent(t))
  {
    JoinerStaysMember(t);
    StillUnlinked(t);
    WriteIsWritten(One(t), t.claim.device, PersonDeviceLinked("person", t.claim.device));
  }

  lemma LinkShows(s: State, e: Event, d: DeviceId)
    requires IsMember(s, d) && e.body == PersonDeviceLinked("person", d)
    ensures IsMember(Apply(s, e), d) && d in Apply(s, e).links && Apply(s, e).links[d] == "person"
  {
  }

  lemma PersonIsWritten(t: Story)
    requires IsStory(t)
    ensures WrittenNow(One(t) + [LinkEvent(t)], PersonEvent(t))
  {
    OneIsApplied(t);
    JoinerStaysMember(t);
    LinkIsWritten(t);
    WrittenOnComplete(One(t), LinkEvent(t));
    LinkShows(Materialize(One(t)).state, LinkEvent(t), t.claim.device);
    WriteIsWritten(One(t) + [LinkEvent(t)], t.claim.device, PersonProfileUpdated("person", t.claim.displayName));
  }

  /** One process publishes everything and stops before it writes the finalized receipt. */
  lemma AlmostFinalized(t: Story, ok: Rule) returns (s: System)
    requires IsStory(t) && ok(Rows(t), EarlierProfile(t)) && ok(One(t), LinkEvent(t)) && ok(One(t) + [LinkEvent(t)], PersonEvent(t))
    ensures Reaches(Joined(t), s, ok) && s.phase == Completing(At(t)) && s.receipts == Receipts(t) && s.ready == {}
  {
    JoinedCouldName(t);
    StillUnlinked(t);
    BeginReaches(Joined(t), ok);
    var begun := Joined(t).(phase := Naming(At(t), t.claim.displayName, true, |Rows(t)|));
    s := EverythingReaches(begun, EarlierProfile(t), "person", LinkEvent(t), PersonEvent(t), ok);
    Then(Joined(t), begun, s, ok);
  }

  lemma LosesIntentFrom(t: Story, m: Shared, ok: Rule) returns (end: Shared)
    requires IsStory(t) && Busy(m, 0, Joined(t))
    requires ok(Rows(t), EarlierProfile(t)) && ok(One(t), LinkEvent(t)) && ok(One(t) + [LinkEvent(t)], PersonEvent(t))
    ensures AllReach(m, end, ok) && At(t) in end.core.imported && !Recoverable(end.core, At(t))
  {
    var s := AlmostFinalized(t, ok);
    assert Busy(m, 1, Joined(t));
    var m2 := BusyReaches(m, 1, Joined(t), s, ok);
    var m3 := MarksAgain(m2, 2, 1, At(t), ok);
    end := LosesIntentThen(m3, 2, 1, At(t), ok);
    AllThen(m, m2, m3, ok);
    AllThen(m, m3, end, ok);
  }

  /** From nothing: one process joins, a second publishes everything, a third marks the claim again
      while the second finishes; the imported key has neither marker nor finalized receipt. */
  lemma IntentIsLost(t: Story) returns (run: seq<Step>)
    requires IsStory(t)
    ensures CanRun(run, Fresh(t.claim.device)) && AllObey(run, Fresh(t.claim.device), OnHeads())
    ensures var s := Final(run, Fresh(t.claim.device)).core;
            At(t) in s.imported && !Recoverable(s, At(t))
  {
    BothAreWritten(t);
    LinkIsWritten(t);
    PersonIsWritten(t);
    var joined := FreshJoins(t, OnHeads());
    var end := LosesIntentFrom(t, joined, OnHeads());
    AllThen(Fresh(t.claim.device), joined, end, OnHeads());
    run :| CanRun(run, Fresh(t.claim.device)) && Final(run, Fresh(t.claim.device)) == end && AllObey(run, Fresh(t.claim.device), OnHeads());
  }

  // ---------- one process, and a row that had to wait ----------

  /** Carol and Bob's rows reach the joiner, the child before its parent. */
  function Gossip(t: Story): seq<Event> {
    [t.a] + [t.b] + [t.x] + [t.y]
  }

  lemma StoryLeavesJoiner(t: Story)
    requires Cast(t)
    ensures LeavesJoiner(t, t.a) && LeavesJoiner(t, t.b) && LeavesJoiner(t, t.x) && LeavesJoiner(t, t.y) && LeavesJoiner(t, t.z)
  {
  }

  lemma CarolComes(s: State, t: Story)
    requires People(t) && t.a.author == t.owner && t.a.body == MemberInvited(t.carol, Admin) && InCharge(s, t)
    ensures Authorized(s, t.a) && InCharge(Apply(s, t.a), t) && CarolIsIn(Apply(s, t.a), t)
  {
  }

  lemma BobComes(s: State, t: Story)
    requires People(t) && t.b.author == t.carol && t.b.body == MemberInvited(t.bob, Regular) && InCharge(s, t) && CarolIsIn(s, t)
    ensures Authorized(s, t.b) && InCharge(Apply(s, t.b), t) && BothAreIn(Apply(s, t.b), t)
  {
  }

  function Known(t: Story): set<EventId> {
    {t.w.id, t.k.id, t.first.request, t.first.member, t.first.claim}
  }

  lemma RowIds(t: Story)
    ensures IdSet(Rows(t)) == Known(t)
  {
    var three := InviteClaims.Triple(Materialize(Simple(t)), t.claim, t.owner, Regular, t.first);
    assert Rows(t) == [t.w, t.k, three[0], three[1], three[2]];
  }

  /** The joiner's rows followed by the invitations of Carol and Bob. */
  ghost function Base(t: Story): seq<Event> {
    Rows(t) + [t.a] + [t.b]
  }

  lemma BaseIds(t: Story)
    ensures IdSet(Rows(t) + [t.a]) == Known(t) + {t.a.id} && IdSet(Base(t)) == Known(t) + {t.a.id, t.b.id}
  {
    RowIds(t);
    IdsAfter(Rows(t), t.a);
    IdsAfter(Rows(t) + [t.a], t.b);
  }

  lemma NewToKnown(t: Story)
    requires Separate(t)
    ensures t.a.id !in Known(t) && t.b.id !in Known(t) + {t.a.id}
    ensures var ids := Known(t) + {t.a.id, t.b.id}; t.x.id !in ids && t.y.id !in ids && t.z.id !in ids
    ensures t.x.id !in Known(t) + {t.a.id, t.b.id} + {t.y.id, t.z.id}
  {
  }

  lemma AfterCarol(t: Story)
    requires IsStory(t)
    ensures var c := Pass(Start, Rows(t) + [t.a]); c.events == Rows(t) + [t.a] && InCharge(c.state, t) && CarolIsIn(c.state, t)
  {
    RowsLeaveOwnerInCharge(t);
    RowIds(t);
    NewToKnown(t);
    NewOnKnownParent(Pass(Start, Rows(t)), t.a, t.k.id);
    CarolComes(Pass(Start, Rows(t)).state, t);
    RowApplies(Start, Rows(t), t.a);
  }

  lemma AfterBob(t: Story)
    requires IsStory(t)
    ensures var c := Pass(Start, Base(t)); c.events == Base(t) && InCharge(c.state, t) && BothAreIn(c.state, t)
  {
    AfterCarol(t);
    BaseIds(t);
    NewToKnown(t);
    NewOnKnownParent(Pass(Start, Rows(t) + [t.a]), t.b, t.a.id);
    BobComes(Pass(Start, Rows(t) + [t.a]).state, t);
    RowApplies(Start, Rows(t) + [t.a], t.b);
  }

  lemma BaseIsStage(t: Story)
    requires IsStory(t)
    ensures Tail(t) && Stage(t, Base(t))
  {
    StoryHasTail(t);
    AfterBob(t);
    BaseIds(t);
    NewToKnown(t);
  }

  lemma GossipSlices(t: Story)
    ensures Rows(t) + Gossip(t) == Base(t) + [t.x] + [t.y]
  {
  }

  /** The profile is written on the heads of the repaired history, the last of which is the child. */
  lemma ProfileHangsOnChild(t: Story)
    requires IsStory(t)
    ensures t.x.id in Heads(Materialize(Rows(t) + Gossip(t)).events)
  {
    GossipSlices(t);
    BaseIsStage(t);
    StageHasGap(t, Base(t));
    GapIsRepaired(Base(t), t.x, t.y);
    MaterializedHeads(Rows(t) + Gossip(t), Base(t) + [t.y], t.x);
  }

  lemma NothingIsPublished(t: Story)
    requires IsStory(t)
    ensures forall x :: x in Base(t) + [t.y] + [t.z] ==> !x.body.DeviceProfileUpdated?
  {
    RowsSayNothing(t);
    forall x | x in Base(t) + [t.y] + [t.z] ensures !x.body.DeviceProfileUpdated? {
      assert x in Rows(t) || x == t.a || x == t.b || x == t.y || x == t.z;
    }
  }

  lemma ProfileIsUnmet(t: Story, e: Event)
    requires Separate(t) && t.x.id in e.parents
    ensures Unmet([e], IdSet(Base(t)) + {t.y.id, t.z.id})
  {
    BaseIds(t);
    NewToKnown(t);
  }

  /** A first pass applies the removal of Bob, then neither the child nor the profile on it. */
  lemma RemovalOvertakes(t: Story, e: Event)
    requires IsStory(t) && t.x.id in e.parents
    ensures Materialize(Rows(t) + Gossip(t) + [e] + [t.z]).events == Base(t) + [t.y] + [t.z]
  {
    GossipSlices(t);
    BaseIsStage(t);
    StageHasGap(t, Base(t));
    StageHasRemoval(t, Base(t));
    ProfileIsUnmet(t, e);
    GapIsOvertaken(Base(t), t.x, t.y, [e], t.z);
  }

  lemma ProfileIsUndone(t: Story, e: Event)
    requires IsStory(t) && t.x.id in e.parents
    ensures !HasProfile(Materialize(Rows(t) + Gossip(t) + [e] + [t.z]).state, t.claim.device)
  {
    RemovalOvertakes(t, e);
    MaterializedInBrief(Rows(t) + Gossip(t) + [e] + [t.z]);
    NothingIsPublished(t);
    NoProfiles(Base(t) + [t.y] + [t.z]);
  }

  lemma GossipSaysNothing(t: Story)
    requires IsStory(t)
    ensures forall x :: x in Rows(t) + Gossip(t) ==> !x.body.DeviceProfileUpdated? && !x.body.PersonDeviceLinked?
  {
    RowsSayNothing(t);
    forall x | x in Rows(t) + Gossip(t) ensures !x.body.DeviceProfileUpdated? && !x.body.PersonDeviceLinked? {
      assert x in Rows(t) || x == t.a || x == t.b || x == t.x || x == t.y;
    }
  }

  lemma StillNoProfile(t: Story)
    requires IsStory(t)
    ensures Materialize(Rows(t) + Gossip(t)).state.profiles == map[] && Materialize(Rows(t) + Gossip(t)).state.links == map[]
  {
    var rows := Rows(t) + Gossip(t);
    MaterializedInBrief(rows);
    GossipSaysNothing(t);
    NoProfiles(Materialize(rows).events);
    NoLinks(Materialize(rows).events);
  }

  lemma GossipLeavesJoiner(t: Story)
    requires Cast(t)
    ensures forall x :: x in Gossip(t) ==> LeavesJoiner(t, x)
  {
    StoryLeavesJoiner(t);
    forall x | x in Gossip(t) ensures LeavesJoiner(t, x) {
      assert x == t.a || x == t.b || x == t.x || x == t.y;
    }
  }

  lemma AfterwardsLeavesJoiner(t: Story, e: Event)
    requires Cast(t) && e.body.DeviceProfileUpdated?
    ensures forall x :: x in Gossip(t) + [e] + [t.z] ==> LeavesJoiner(t, x)
  {
    StoryLeavesJoiner(t);
    GossipLeavesJoiner(t);
    OwnProfileLeavesJoiner(t, e);
    forall x | x in Gossip(t) + [e] + [t.z] ensures LeavesJoiner(t, x) {
      assert x in Gossip(t) || x == e || x == t.z;
    }
  }

  ghost function FirstProfile(t: Story): Event {
    Write(Rows(t) + Gossip(t), t.claim.device, Profile(t))
  }

  lemma BeginsOnGossip(t: Story)
    requires IsStory(t)
    ensures Begun(Rows(t) + Gossip(t), true, Receipts(t), t.claim.device)
            == Naming(At(t), t.claim.displayName, true, |Rows(t) + Gossip(t)|)
    ensures WrittenNow(Rows(t) + Gossip(t), FirstProfile(t))
  {
    GossipLeavesJoiner(t);
    ClaimStaysActive(t, Gossip(t));
    StillNoProfile(t);
    JoinerIsMember(t, Gossip(t));
    ProfileIsWritten(Rows(t) + Gossip(t), t.claim.device, t.claim.displayName);
  }

  ghost function AfterRemoval(t: Story): seq<Event> {
    Rows(t) + Gossip(t) + [FirstProfile(t)] + [t.z]
  }

  lemma ActiveAgain(t: Story)
    requires IsStory(t)
    ensures ActiveClaim(Materialize(AfterRemoval(t)), t.claim.device, Receipts(t)).Some?
    ensures IsMember(Materialize(AfterRemoval(t)).state, t.claim.device)
  {
    var e := FirstProfile(t);
    AfterwardsLeavesJoiner(t, e);
    Slices(Rows(t), Gossip(t), e, t.z);
    ClaimStaysActive(t, Gossip(t) + [e] + [t.z]);
    JoinerIsMember(t, Gossip(t) + [e] + [t.z]);
  }

  lemma BeginsAgain(t: Story)
    requires IsStory(t)
    ensures var next := Begun(AfterRemoval(t), true, Receipts(t), t.claim.device); next.Naming? && next.missing
    ensures IsMember(Materialize(AfterRemoval(t)).state, t.claim.device)
  {
    ActiveAgain(t);
    ProfileHangsOnChild(t);
    ProfileIsUndone(t, FirstProfile(t));
  }

  lemma Slices<T>(a: seq<T>, b: seq<T>, x: T, y: T)
    ensures a + (b + [x] + [y]) == a + b + [x] + [y]
  {
  }

  lemma TallyOfTwo(log: seq<Event>, e: Event, z: Event, f: Event, local: DeviceId)
    requires Own(e, local, DeviceProfile) && Own(f, local, DeviceProfile)
    ensures Tally(log + [e] + [z] + [f], local, DeviceProfile) >= 2
  {
    TallySnoc(log, e, local, DeviceProfile);
    TallySnoc(log + [e], z, local, DeviceProfile);
    TallySnoc(log + [e] + [z], f, local, DeviceProfile);
  }

  /** What the process publishes the second time, on the heads it finds then. */
  lemma SecondProfile(t: Story) returns (f: Event)
    requires IsStory(t)
    ensures WrittenNow(AfterRemoval(t), f) && Own(f, t.claim.device, DeviceProfile)
    ensures var next := Begun(AfterRemoval(t), true, Receipts(t), t.claim.device);
            next.Naming? && next.missing && f.body.displayName == next.name
  {
    BeginsAgain(t);
    f := AnyProfile(AfterRemoval(t), t.claim.device, Begun(AfterRemoval(t), true, Receipts(t), t.claim.device).name);
  }

  lemma AnyProfile(log: seq<Event>, d: DeviceId, name: string) returns (f: Event)
    requires IsMember(Materialize(log).state, d)
    ensures WrittenNow(log, f) && f.author == d && f.body == DeviceProfileUpdated(name)
  {
    f := Write(log, d, DeviceProfileUpdated(name));
    ProfileIsWritten(log, d, name);
  }

  ghost function WithGossip(t: Story): System {
    Joined(t).(log := Rows(t) + Gossip(t))
  }

  /** Up to the crash. */
  lemma PublishesOnGossip(t: Story, ok: Rule) returns (s: System)
    requires IsStory(t) && ok(Rows(t) + Gossip(t), FirstProfile(t))
    ensures Reaches(Local(t), s, ok) && s.phase == Idle && s.log == AfterRemoval(t) && s.local == t.claim.device
    ensures s.key && s.receipts == Receipts(t)
  {
    Joining(t, ok);
    GossipIsForeign(t);
    RowsReach(Joined(t), Gossip(t), ok);
    Then(Local(t), Joined(t), WithGossip(t), ok);
    BeginsOnGossip(t);
    BeginReaches(WithGossip(t), ok);
    var begun := WithGossip(t).(phase := Naming(At(t), t.claim.displayName, true, |Rows(t) + Gossip(t)|));
    Then(Local(t), WithGossip(t), begun, ok);
    s := ProfileThenCrash(begun, FirstProfile(t), t.z, ok);
    Then(Local(t), begun, s, ok);
  }

  /** Starting over after the crash. */
  lemma PublishesAgain(s: System, f: Event, ok: Rule) returns (end: System)
    requires s.phase == Idle && ok(s.log, f) && f.author == s.local
    requires var next := Begun(s.log, s.key, s.receipts, s.local); next.Naming? && next.missing && f.body == DeviceProfileUpdated(next.name)
    ensures Reaches(s, end, ok) && end.log == s.log + [f]
  {
    var begun := s.(phase := Begun(s.log, s.key, s.receipts, s.local));
    BeginReaches(s, ok);
    ProfileReaches(begun, f, ok);
    end := Publish(begun, f, Linking(begun.phase.at, begun.phase.name, begun.phase.from));
    Then(s, begun, end, ok);
  }

  /** Even one process publishes twice when its first profile was written on a row that had to wait:
      it crashes before the receipt is finalized, a later row undoes that row, and the profile with
      it. */
  lemma GapPublishesTwice(t: Story) returns (run: seq<Action>)
    requires IsStory(t)
    ensures IsRun(run, Initial(t.claim.device)) && Obeys(run, Initial(t.claim.device), OnHeads())
    ensures Tally(After(run, Initial(t.claim.device)).log, t.claim.device, DeviceProfile) >= 2
  {
    BeginsOnGossip(t);
    var f := SecondProfile(t);
    var s := PublishesOnGossip(t, OnHeads());
    var end := PublishesAgain(s, f, OnHeads());
    Then(Local(t), s, end, OnHeads());
    TallyOfTwo(Rows(t) + Gossip(t), FirstProfile(t), t.z, f, t.claim.device);
    run :| IsRun(run, Local(t)) && After(run, Local(t)) == end && Obeys(run, Local(t), OnHeads());
  }

  lemma GossipIsForeign(t: Story)
    requires Cast(t)
    ensures (forall x :: x in Gossip(t) ==> Foreign(x, t.claim.device)) && Foreign(t.z, t.claim.device)
  {
    forall x | x in Gossip(t) ensures Foreign(x, t.claim.device) {
      assert x == t.a || x == t.b || x == t.x || x == t.y;
    }
  }
}
