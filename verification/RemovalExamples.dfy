/** Two workspaces on which removing a member does not do what one would expect. */
module RemovalExamples {
  import opened Events
  import opened Workspace
  import opened Materialization
  import opened RepairedGaps
  import opened MlsIndex
  import opened CausalHistory
  import opened MemberRemoval

  /** The rows of the plot, in the order of the store. */
  datatype Plot = Plot(w: Event, m: Event, b: Event, r: Event, x: Event, owner: DeviceId, device: DeviceId, bob: DeviceId,
                       group: GroupId)

  predicate SeparateRows(p: Plot) {
    && p.m.id != p.w.id && p.b.id !in {p.w.id, p.m.id} && p.r.id !in {p.w.id, p.m.id, p.b.id}
    && p.x.id !in {p.w.id, p.m.id, p.b.id, p.r.id}
  }

  /** The owner lets the device and Bob in and removes Bob. Before he knows, Bob adds the device to a
      group; his commit arrives after his removal. */
  ghost predicate IsPlot(p: Plot) {
    && SeparateRows(p) && p.owner != p.device && p.owner != p.bob && p.device != p.bob
    && p.w.author == p.m.author == p.b.author == p.r.author == p.owner && p.x.author == p.bob
    && p.w.body == WorkspaceCreated && p.w.parents == []
    && p.m.body == MemberInvited(p.device, Regular) && p.m.parents == [p.w.id]
    && p.b.body == MemberInvited(p.bob, Regular) && p.b.parents == [p.w.id]
    && p.r.body == MemberRemoved(p.bob) && p.r.parents == [p.b.id]
    && p.x.body == GroupMemberAdded(Scope.Workspace, p.group, 1, p.device, "package") && p.x.parents == [p.b.id]
  }

  lemma PlotExists() returns (p: Plot)
    ensures IsPlot(p)
  {
    p := Plot(Event("w", "owner", [], WorkspaceCreated),
              Event("m", "owner", ["w"], MemberInvited("device", Regular)),
              Event("b", "owner", ["w"], MemberInvited("bob", Regular)),
              Event("r", "owner", ["b"], MemberRemoved("bob")),
              Event("x", "bob", ["b"], GroupMemberAdded(Scope.Workspace, "group", 1, "device", "package")),
              "owner", "device", "bob", "group");
    assert "owner"[0] != "bob"[0] && "device"[0] != "owner"[0] && "device"[0] != "bob"[0];
  }

  function Two(p: Plot): seq<Event> {
    [p.w] + [p.m]
  }

  function Four(p: Plot): seq<Event> {
    Two(p) + [p.b] + [p.r]
  }

  function All(p: Plot): seq<Event> {
    Four(p) + [p.x]
  }

  // ---------- what is materialized ----------

  /** The owner is in charge of a workspace with the device in it. */
  ghost predicate Running(s: State, p: Plot) {
    && s.root == Some(p.owner) && p.owner in s.members && s.members[p.owner].role == Owner
    && p.device in s.members && s.members[p.device].role == Regular
  }

  lemma DeviceJoins(p: Plot)
    requires IsPlot(p)
    ensures Authorized(Apply(Empty, p.w), p.m) && Running(Apply(Apply(Empty, p.w), p.m), p)
    ensures p.bob !in Apply(Apply(Empty, p.w), p.m).members
  {
  }

  lemma BobJoins(s: State, p: Plot)
    requires IsPlot(p) && Running(s, p)
    ensures Authorized(s, p.b) && Running(Apply(s, p.b), p)
    ensures p.bob in Apply(s, p.b).members && Apply(s, p.b).members[p.bob].role == Regular
  {
  }

  lemma BobLeaves(s: State, p: Plot)
    requires IsPlot(p) && Running(s, p) && p.bob in s.members && s.members[p.bob].role == Regular
    ensures Authorized(s, p.r) && Running(Apply(s, p.r), p) && p.bob !in Apply(s, p.r).members
  {
  }

  lemma PassOfTwo(p: Plot)
    requires IsPlot(p)
    ensures var c := Pass(Start, Two(p));
            c.events == Two(p) && IdSet(c.events) == {p.w.id, p.m.id} && Running(c.state, p)
  {
    FirstRow(p.w);
    DeviceJoins(p);
    RowApplies(Start, [p.w], p.m);
  }

  lemma PassOfFour(p: Plot)
    requires IsPlot(p)
    ensures var c := Pass(Start, Four(p));
            && c.events == Four(p) && IdSet(c.events) == {p.w.id, p.m.id, p.b.id, p.r.id}
            && Running(c.state, p) && p.bob !in c.state.members
  {
    PassOfTwo(p);
    BobOnTwo(Pass(Start, Two(p)), p);
    RowApplies(Start, Two(p), p.b);
    RemovalOnThree(Pass(Start, Two(p) + [p.b]), p);
    RowApplies(Start, Two(p) + [p.b], p.r);
  }

  lemma BobOnTwo(c: Context, p: Plot)
    requires IsPlot(p) && IdSet(c.events) == {p.w.id, p.m.id} && Running(c.state, p)
    ensures Applicable(c, p.b) && Running(Applied(c, p.b).state, p)
    ensures p.bob in Applied(c, p.b).state.members && Applied(c, p.b).state.members[p.bob].role == Regular
  {
    BobJoins(c.state, p);
  }

  lemma RemovalOnThree(c: Context, p: Plot)
    requires IsPlot(p) && IdSet(c.events) == {p.w.id, p.m.id, p.b.id} && Running(c.state, p)
    requires p.bob in c.state.members && c.state.members[p.bob].role == Regular
    ensures Applicable(c, p.r) && Running(Applied(c, p.r).state, p) && p.bob !in Applied(c, p.r).state.members
  {
    BobLeaves(c.state, p);
  }

  lemma TwoAreMaterialized(p: Plot)
    requires IsPlot(p)
    ensures Materialize(Two(p)).events == Two(p) && Running(Materialize(Two(p)).state, p)
  {
    PassOfTwo(p);
    AllAreApplied(Two(p));
  }

  /** Bob's commit is not applied: he is no member any more. */
  lemma FourAreMaterialized(p: Plot)
    requires IsPlot(p)
    ensures Materialize(All(p)).events == Four(p) && Running(Materialize(All(p)).state, p)
  {
    PassOfFour(p);
    CommitIsBarred(Pass(Start, Four(p)), p);
    RowWaits(Start, Four(p), p.x);
    RoundsResume(Start, All(p));
    NothingLeft(Pass(Start, Four(p)), All(p));
  }

  lemma CommitIsBarred(c: Context, p: Plot)
    requires IsPlot(p) && IdSet(c.events) == {p.w.id, p.m.id, p.b.id, p.r.id} && p.bob !in c.state.members
    ensures !Applicable(c, p.x) && forall e :: e in All(p) ==> !Applicable(c, e)
  {
    assert !Authorized(c.state, p.x);
    forall e | e in All(p) ensures !Applicable(c, e) {
      assert e == p.x || e == p.w || e == p.m || e == p.b || e == p.r;
    }
  }

  // ---------- what is admitted ----------

  lemma StoreOfPlot(p: Plot)
    requires IsPlot(p)
    ensures ById(All(p)) == map[p.w.id := p.w, p.m.id := p.m, p.b.id := p.b, p.r.id := p.r, p.x.id := p.x]
  {
    ByIdSnoc([], p.w);
    ByIdSnoc([p.w], p.m);
    ByIdSnoc(Two(p), p.b);
    ByIdSnoc(Two(p) + [p.b], p.r);
    ByIdSnoc(Four(p), p.x);
    assert [] + [p.w] == [p.w];
  }

  /** The causal past of two rows, one on the other. */
  lemma TwoAncestors(store: map<EventId, Event>, b: EventId, w: EventId, id: EventId)
    requires w in store && store[w].parents == [] && b in store && store[b].parents == [w]
    ensures Ancestor(store, [b], id) <==> id in {w, b}
  {
    RootIsAncestor(store, [b], b);
    ParentIsAncestor(store, [b], b, w);
    if Ancestor(store, [b], id) {
      ClosedHoldsAncestors(store, [b], {w, b}, id);
    }
  }

  lemma ReachesTwo(store: map<EventId, Event>, b: EventId, w: EventId)
    requires w in store && store[w].parents == [] && b in store && store[b].parents == [w]
    ensures Reaches(store, [b], {w, b})
  {
    forall id ensures Ancestor(store, [b], id) <==> id in {w, b} {
      TwoAncestors(store, b, w, id);
    }
  }

  /** Before Bob's commit there are his own invitation and the creation of the workspace. */
  lemma AncestorsOfCommit(p: Plot)
    requires IsPlot(p)
    ensures Reaches(ById(All(p)), p.x.parents, {p.w.id, p.b.id}) && {p.w.id, p.b.id} <= ById(All(p)).Keys
  {
    StoreOfPlot(p);
    ReachesTwo(ById(All(p)), p.b.id, p.w.id);
  }

  function WithIdIn(ids: set<EventId>): Event -> bool {
    (x: Event) => x.id in ids
  }

  /** The ids reached from these parents are exactly `ids`. */
  ghost predicate Reaches(store: map<EventId, Event>, parents: seq<EventId>, ids: set<EventId>) {
    forall id :: Ancestor(store, parents, id) <==> id in ids
  }

  lemma PastByIds(raw: seq<Event>, e: Event, ids: set<EventId>)
    requires Reaches(ById(raw), e.parents, ids) && ids <= ById(raw).Keys
    ensures CausalPast(raw, e) == Filter(raw, WithIdIn(ids)) && AllPresent(ById(raw), e.parents)
  {
    FilterAgrees(raw, (x: Event) => Ancestor(ById(raw), e.parents, x.id), WithIdIn(ids));
  }

  lemma RowsWithIds(p: Plot)
    requires SeparateRows(p)
    ensures Filter(All(p), WithIdIn({p.w.id, p.b.id})) == [p.w] + [p.b]
  {
    FilterFive(p, WithIdIn({p.w.id, p.b.id}));
  }

  lemma PastOfCommit(p: Plot)
    requires IsPlot(p)
    ensures AllPresent(ById(All(p)), p.x.parents) && CausalPast(All(p), p.x) == [p.w] + [p.b]
  {
    AncestorsOfCommit(p);
    PastByIds(All(p), p.x, {p.w.id, p.b.id});
    RowsWithIds(p);
  }

  lemma FilterKeeps(s: seq<Event>, e: Event, q: Event -> bool)
    requires q(e)
    ensures Filter(s + [e], q) == Filter(s, q) + [e]
  {
    FilterSnoc(s, e, q);
  }

  lemma FilterDrops(s: seq<Event>, e: Event, q: Event -> bool)
    requires !q(e)
    ensures Filter(s + [e], q) == Filter(s, q)
  {
    FilterSnoc(s, e, q);
  }

  lemma FilterOfOne(e: Event, q: Event -> bool)
    ensures Filter([e], q) == if q(e) then [e] else []
  {
    FilterSnoc([], e, q);
    assert [] + [e] == [e];
  }

  lemma FilterFive(p: Plot, q: Event -> bool)
    requires q(p.w) && !q(p.m) && q(p.b) && !q(p.r) && !q(p.x)
    ensures Filter(All(p), q) == [p.w] + [p.b]
  {
    FilterOfOne(p.w, q);
    FilterDrops([p.w], p.m, q);
    FilterKeeps(Two(p), p.b, q);
    FilterDrops(Two(p) + [p.b], p.r, q);
    FilterDrops(Four(p), p.x, q);
  }

  /** In that past Bob is a member. */
  lemma PastAuthorizesCommit(p: Plot)
    requires IsPlot(p)
    ensures Authorized(Materialize([p.w] + [p.b]).state, p.x)
  {
    var rows := [p.w] + [p.b];
    FirstRow(p.w);
    BobOnOne(Pass(Start, [p.w]), p);
    RowApplies(Start, [p.w], p.b);
    AllAreApplied(rows);
  }

  lemma BobOnOne(c: Context, p: Plot)
    requires IsPlot(p) && IdSet(c.events) == {p.w.id} && c.state == Apply(Empty, p.w)
    ensures Applicable(c, p.b) && Authorized(Applied(c, p.b).state, p.x)
  {
  }

  lemma AdmittedByPast(raw: seq<Event>, materialized: seq<Event>, past: seq<Event>, e: Event)
    requires CommitBody(e.body) && e.id !in Ids(materialized) && AllPresent(ById(raw), e.parents)
    requires CausalPast(raw, e) == past && Authorized(Materialize(past).state, e)
    ensures Admitted(raw, materialized, Authorizing(), e)
  {
    assert Authorizing()(past, e);
  }

  lemma CommitIsNew(p: Plot)
    requires SeparateRows(p)
    ensures p.x.id !in Ids(Four(p))
  {
    assert Ids(Four(p)) == [p.w.id, p.m.id, p.b.id, p.r.id];
  }

  lemma CommitMayJoin(p: Plot)
    requires IsPlot(p)
    ensures Admitted(All(p), Four(p), Authorizing(), p.x)
  {
    PastOfCommit(p);
    PastAuthorizesCommit(p);
    CommitIsNew(p);
    AdmittedByPast(All(p), Four(p), [p.w] + [p.b], p.x);
  }

  lemma OthersMayNot(p: Plot, e: Event)
    requires IsPlot(p) && e in {p.w, p.m, p.b, p.r}
    ensures !Admitted(All(p), Four(p), Authorizing(), e)
  {
  }

  /** So his commit, and nothing else, is indexed behind the materialized events. */
  lemma CommitIsAdmitted(p: Plot)
    requires IsPlot(p)
    ensures Extra(All(p)) == [p.x] && Indexed(All(p)) == All(p)
  {
    FourAreMaterialized(p);
    CommitMayJoin(p);
    OthersMayNot(p, p.w);
    OthersMayNot(p, p.m);
    OthersMayNot(p, p.b);
    OthersMayNot(p, p.r);
    FilterLast(p, Admission(All(p), Four(p), Authorizing()));
  }

  lemma FilterLast(p: Plot, q: Event -> bool)
    requires !q(p.w) && !q(p.m) && !q(p.b) && !q(p.r) && q(p.x)
    ensures Filter(All(p), q) == [p.x]
  {
    FilterOfOne(p.w, q);
    FilterDrops([p.w], p.m, q);
    FilterDrops(Two(p), p.b, q);
    FilterDrops(Two(p) + [p.b], p.r, q);
    FilterKeeps(Four(p), p.x, q);
  }

  lemma OnlyOneCommit(p: Plot)
    requires IsPlot(p)
    ensures forall e :: e in All(p) && CommitBody(e.body) ==> e == p.x
  {
    forall e | e in All(p) && CommitBody(e.body) ensures e == p.x {
      assert e == p.x || e == p.w || e == p.m || e == p.b || e == p.r;
    }
  }

  lemma OnlyGroupOfDevice(p: Plot, sc: Scope, g: GroupId)
    requires IsPlot(p)
    ensures InGroup(All(p), sc, g, p.device) ==> sc == Scope.Workspace && g == p.group
    ensures InGroup([p.x], Scope.Workspace, p.group, p.device)
  {
    OnlyOneCommit(p);
    assert AddsTo([p.x][0], Scope.Workspace, p.group, p.device);
  }

  function LocalGroups(p: Plot): map<Scope, Group> {
    map[Scope.Workspace := Group(p.group, 1)]
  }

  lemma OneCommitForksNothing(events: seq<Event>, x: Event)
    requires forall e :: e in events && CommitBody(e.body) ==> e == x
    ensures NoForks(events)
  {
    forall sc, g ensures !Forked(events, sc, g) {
      forall n: nat ensures !ForkedAt(events, sc, g, n) {
        ForkedAtByMembers(events, sc, g, n);
      }
    }
  }

  lemma PlotIsRemovable(p: Plot)
    requires IsPlot(p)
    ensures Removable(All(p), LocalGroups(p), p.device)
  {
    OnlyOneCommit(p);
    OneCommitForksNothing(All(p), p.x);
    forall sc, g | InGroup(All(p), sc, g, p.device) ensures sc in LocalGroups(p) && g == LocalGroups(p)[sc].id {
      OnlyGroupOfDevice(p, sc, g);
    }
  }

  lemma NextEpochIsFree(p: Plot)
    requires IsPlot(p)
    ensures NextEpochFree(All(p), Scope.Workspace, Group(p.group, 1))
  {
    OnlyOneCommit(p);
  }

  lemma IndexOfPlot(p: Plot)
    requires IsPlot(p)
    ensures Removable(Indexed(All(p)), LocalGroups(p), p.device) && !InNoGroup(Extra(All(p)), p.device)
    ensures AllFree(All(p), LocalGroups(p), LocalGroups(p).Keys)
  {
    CommitIsAdmitted(p);
    PlotIsRemovable(p);
    NextEpochIsFree(p);
    OnlyGroupOfDevice(p, Scope.Workspace, p.group);
  }

  /** Nothing fails, nobody interferes, the device is dropped from its only group, and still the last
      look refuses to record the removal. */
  method LateCommitBlocksRemoval(p: Plot) returns (runtime: Runtime, r: Result, stage: Stage)
    requires IsPlot(p)
    ensures stage == FinalCheck && r.RevocationPending?
    ensures DroppedSince(All(p), runtime.raw, LocalGroups(p), Scope.Workspace, p.device)
    ensures NoRemovalSince(All(p), runtime.raw)
  {
    runtime := new Runtime(p.owner, true, true, All(p), LocalGroups(p), None, map[]);
    FourAreMaterialized(p);
    IndexOfPlot(p);
    CommitIsAdmitted(p);
    ghost var first, last;
    r, stage, first, last := runtime.RemoveMemberWithOpenMls(p.device);
    InWholeIndex(p);
    assert DroppedSince(All(p), last.rows, LocalGroups(p), Scope.Workspace, p.device);
    DroppedStays(All(p), last.rows, runtime.raw, LocalGroups(p), p.device, {Scope.Workspace});
  }

  lemma InWholeIndex(p: Plot)
    requires IsPlot(p)
    ensures InGroup(IndexOf(Look(All(p), All(p))), Scope.Workspace, p.group, p.device)
  {
    CommitIsAdmitted(p);
    assert IndexOf(Look(All(p), All(p))) == All(p);
    assert AddsTo(All(p)[4], Scope.Workspace, p.group, p.device);
  }

  lemma NoCommitsNoIndex(p: Plot)
    requires IsPlot(p)
    ensures Indexed(Two(p)) == Two(p) && Extra(Two(p)) == []
  {
    TwoAreMaterialized(p);
    NeitherIsAdmitted(p, Admission(Two(p), Two(p), Authorizing()));
  }

  lemma NeitherIsAdmitted(p: Plot, q: Event -> bool)
    requires !q(p.w) && !q(p.m)
    ensures Filter(Two(p), q) == []
  {
    FilterOfOne(p.w, q);
    FilterDrops([p.w], p.m, q);
  }

  lemma NoCommitsNoGroups(p: Plot)
    requires IsPlot(p)
    ensures Removable(Indexed(Two(p)), map[], p.device) && InNoGroup(Extra(Two(p)), p.device)
  {
    NoCommitsNoIndex(p);
    assert forall k :: 0 <= k < |Two(p)| ==> !CommitBody(Two(p)[k].body);
  }

  /** A workspace without a workspace key but with a channel key: the removal is recorded and the
      removed device's channel key stays at its epoch. */
  method ChannelKeyStaysBehind(p: Plot, channel: ChannelId, epoch: nat) returns (runtime: Runtime, r: Result)
    requires IsPlot(p)
    ensures r.Removed? && runtime.raw != [] && runtime.raw[|runtime.raw| - 1].body == MemberRemoved(p.device)
    ensures runtime.workspaceKey == None && runtime.channelKeys == map[channel := epoch]
  {
    runtime := new Runtime(p.owner, true, true, Two(p), map[], None, map[channel := epoch]);
    TwoAreMaterialized(p);
    NoCommitsNoGroups(p);
    var stage; ghost var first, last;
    r, stage, first, last := runtime.RemoveMemberWithOpenMls(p.device);
  }
}
