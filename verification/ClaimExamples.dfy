/** Two histories: one on which a claim is accepted, and one in which a row stored before its parent
    lets a later event undo an accepted claim.
 */
module ClaimExamples {
  import opened Events
  import opened Workspace
  import opened Materialization
  import opened InviteClaims
  import opened RepairedGaps

  /** The rows and claims of the story, in the order of the store; `z` is stored last. */
  datatype Story = Story(w: Event, k: Event, a: Event, b: Event, x: Event, y: Event, z: Event,
                         claim: Claim, first: Minted, second: Minted, owner: DeviceId, carol: DeviceId, bob: DeviceId)

  /** All ids differ. */
  predicate Separate(t: Story) {
    && t.k.id != t.w.id
    && t.a.id !in {t.w.id, t.k.id}
    && t.b.id !in {t.w.id, t.k.id, t.a.id}
    && t.y.id !in {t.w.id, t.k.id, t.a.id, t.b.id}
    && t.x.id !in {t.w.id, t.k.id, t.a.id, t.b.id, t.y.id}
    && t.z.id !in {t.w.id, t.k.id, t.a.id, t.b.id, t.y.id, t.x.id}
    && NewTo(t.first, {t.w.id, t.k.id, t.a.id, t.b.id, t.y.id, t.x.id, t.z.id})
    && NewTo(t.second, {t.w.id, t.k.id, t.a.id, t.b.id, t.y.id, t.x.id, t.z.id, t.first.request, t.first.member, t.first.claim})
  }

  predicate NewTo(m: Minted, ids: set<EventId>) {
    && m.request !in ids && m.member !in ids && m.claim !in ids
    && m.request != m.member && m.member != m.claim && m.request != m.claim
  }

  /** The owner creates the workspace and an invite for one claim and makes Carol an admin, who lets
      Bob in. Bob's row `x` is stored before Carol's row `y` it hangs on. Much later Carol's removal of
      Bob arrives, written when she knew of neither. */
  ghost predicate IsStory(t: Story) {
    Separate(t) && Cast(t)
  }

  predicate People(t: Story) {
    && t.owner != t.bob && t.owner != t.carol && t.carol != t.bob
    && t.claim.device != t.owner && t.claim.device != t.bob && t.claim.device != t.carol
  }

  /** Who writes what, on which parents. */
  ghost predicate Cast(t: Story) {
    && People(t)
    && t.claim.inviteId != "" && t.claim.requestId != "" && 0 < |t.claim.displayName| <= 128
    && (t.w.author == t.k.author == t.a.author == t.owner) && (t.b.author == t.y.author == t.z.author == t.carol)
    && t.x.author == t.bob
    && t.w.body == WorkspaceCreated && t.w.parents == []
    && t.k.body == InviteCapabilityCreated(t.claim.inviteId, Regular, "", "key", Some(1)) && t.k.parents == [t.w.id]
    && t.a.body == MemberInvited(t.carol, Admin) && t.a.parents == [t.k.id]
    && t.b.body == MemberInvited(t.bob, Regular) && t.b.parents == [t.a.id]
    && t.x.body == Other && t.x.parents == [t.y.id]
    && t.y.body == Other && t.y.parents == [t.b.id]
    && t.z.body == MemberRemoved(t.bob) && t.z.parents == [t.b.id]
  }

  lemma StoryExists() returns (t: Story)
    ensures IsStory(t)
  {
    var claim := Claim("invite", "request", "joiner", "name");
    t := Story(Event("w", "owner", [], WorkspaceCreated),
               Event("k", "owner", ["w"], InviteCapabilityCreated("invite", Regular, "", "key", Some(1))),
               Event("a", "owner", ["k"], MemberInvited("carol", Admin)),
               Event("b", "carol", ["a"], MemberInvited("bob", Regular)),
               Event("x", "bob", ["y"], Other),
               Event("y", "carol", ["b"], Other),
               Event("z", "carol", ["b"], MemberRemoved("bob")),
               claim, Minted("1", "2", "3"), Minted("4", "5", "6"), "owner", "carol", "bob");
    LettersDiffer("owner", "carol", "bob", "joiner");
  }

  lemma LettersDiffer(a: string, b: string, c: string, d: string)
    requires a != [] && b != [] && c != [] && d != []
    requires a[0] != b[0] && a[0] != c[0] && b[0] != c[0] && d[0] !in {a[0], b[0], c[0]}
    ensures a != b && a != c && b != c && d != a && d != b && d != c
  {
  }

  // ---------- what the states below have in common ----------

  /** The owner is in charge, the invite is untouched and the claimant is no member. */
  ghost predicate Open(s: State, t: Story) {
    && s.root == Some(t.owner) && t.owner in s.members && s.members[t.owner].role == Owner
    && t.claim.inviteId in s.invites
    && (var v := s.invites[t.claim.inviteId];
        v.capabilityKey == "key" && v.role == Regular && v.maxClaims == 1 && v.claimCount == 0 && v.status == Invited)
    && t.claim.device !in s.members
  }

  lemma CreatedAndInvited(t: Story)
    requires t.claim.device != t.owner && t.w.author == t.owner && t.k.author == t.owner && t.w.body == WorkspaceCreated
    requires t.k.body == InviteCapabilityCreated(t.claim.inviteId, Regular, "", "key", Some(1))
    ensures var one := Apply(Empty, t.w);
            Authorized(Empty, t.w) && Authorized(one, t.k) && Open(Apply(one, t.k), t)
  {
  }

  /** Carol is an admin. */
  ghost predicate CarolIsIn(s: State, t: Story) {
    t.carol in s.members && s.members[t.carol].role == Admin
  }

  ghost predicate BothAreIn(s: State, t: Story) {
    CarolIsIn(s, t) && t.bob in s.members && s.members[t.bob].role == Regular
  }

  lemma CarolIsInvited(s: State, t: Story)
    requires People(t) && t.a.author == t.owner && t.a.body == MemberInvited(t.carol, Admin) && Open(s, t)
    ensures Authorized(s, t.a) && Open(Apply(s, t.a), t) && CarolIsIn(Apply(s, t.a), t)
  {
  }

  lemma BobIsInvited(s: State, t: Story)
    requires People(t) && t.b.author == t.carol && t.b.body == MemberInvited(t.bob, Regular) && Open(s, t) && CarolIsIn(s, t)
    ensures Authorized(s, t.b) && Open(Apply(s, t.b), t) && BothAreIn(Apply(s, t.b), t)
  {
  }

  lemma OtherChangesNothing(s: State, t: Story, e: Event)
    requires Open(s, t) && e.body == Other
    ensures Authorized(s, e) <==> e.author in s.members
    ensures Open(Apply(s, e), t) && Apply(s, e).members == s.members
  {
  }

  /** On such a state, with no trace of the claim among the applied events, the claim is accepted. */
  lemma OpenAccepts(ctx: Context, t: Story)
    requires t.claim.displayName != "" && Open(ctx.state, t)
    requires forall e :: e in ctx.events ==> !e.body.InviteClaimed? && !e.body.JoinRequestRecorded?
    ensures Decide(ctx, t.claim, Current) == Accept(Regular)
  {
    forall j | 0 <= j < |ctx.events| ensures !Repeats(t.claim)(ctx.events[j]) {
      assert ctx.events[j] in ctx.events;
    }
    assert FindFirst(ctx.events, Repeats(t.claim)).None?;
  }

  lemma RequestIsAuthorized(s: State, t: Story, e: Event)
    requires Open(s, t) && e.author == t.owner && e.body.JoinRequestRecorded?
    ensures Authorized(s, e) && Open(Apply(s, e), t)
  {
  }

  /** The owner is in charge and the invite has its one claim left. */
  ghost predicate Claimable(s: State, t: Story) {
    && s.root == Some(t.owner) && t.owner in s.members && s.members[t.owner].role == Owner
    && t.claim.inviteId in s.invites
    && s.invites[t.claim.inviteId].maxClaims == 1 && s.invites[t.claim.inviteId].claimCount == 0
    && s.invites[t.claim.inviteId].status == Invited
  }

  lemma InvitationIsAuthorized(s: State, t: Story, e: Event)
    requires Open(s, t) && e.author == t.owner && t.claim.device != t.owner && e.body == MemberInvited(t.claim.device, Regular)
    ensures Authorized(s, e) && Claimable(Apply(s, e), t)
  {
  }

  lemma ClaimIsAuthorized(s: State, t: Story, e: Event)
    requires Claimable(s, t) && e.author == t.owner && e.body.InviteClaimed? && e.body.inviteId == t.claim.inviteId
    ensures Authorized(s, e)
  {
  }

  lemma OpenAuthorizes(ctx: Context, t: Story, minted: Minted)
    requires Open(ctx.state, t) && t.claim.device != t.owner
    ensures TripleAuthorized(ctx.state, Triple(ctx, t.claim, t.owner, Regular, minted))
  {
    var three := Triple(ctx, t.claim, t.owner, Regular, minted);
    RequestIsAuthorized(ctx.state, t, three[0]);
    InvitationIsAuthorized(Apply(ctx.state, three[0]), t, three[1]);
    ClaimIsAuthorized(Apply(Apply(ctx.state, three[0]), three[1]), t, three[2]);
  }

  // ---------- Bob's row and Carol's ----------

  /** What Bob's and Carol's last rows need to play their part on such rows. */
  ghost predicate Stage(t: Story, rows: seq<Event>) {
    var c := Pass(Start, rows);
    && c.events == rows && BothAreIn(c.state, t) && c.state.root == Some(t.owner)
    && t.b.id in IdSet(rows) && t.x.id !in IdSet(rows) && t.y.id !in IdSet(rows) && t.z.id !in IdSet(rows)
  }

  predicate Tail(t: Story) {
    && People(t) && t.x.id != t.y.id && t.z.id != t.y.id && t.z.id != t.x.id
    && t.x.author == t.bob && t.x.body == Other && t.x.parents == [t.y.id]
    && t.y.author == t.carol && t.y.body == Other && t.y.parents == [t.b.id]
    && t.z.author == t.carol && t.z.body == MemberRemoved(t.bob) && t.z.parents == [t.b.id]
  }

  lemma StoryHasTail(t: Story)
    requires IsStory(t)
    ensures Tail(t)
  {
  }

  lemma OtherKeepsBoth(s: State, t: Story, e: Event)
    requires e.body == Other
    ensures BothAreIn(s, t) && s.root.Some? && e.author in {t.carol, t.bob} ==> Authorized(s, e)
    ensures Apply(s, e).members == s.members && Apply(s, e).root == s.root
  {
  }

  lemma RemovalOfBob(s: State, t: Story)
    requires People(t) && t.z.author == t.carol && t.z.body == MemberRemoved(t.bob)
    requires BothAreIn(s, t) && s.root == Some(t.owner)
    ensures Authorized(s, t.z) && t.bob !in Apply(s, t.z).members
  {
  }

  lemma StageHasGap(t: Story, rows: seq<Event>)
    requires Tail(t) && Stage(t, rows)
    ensures Gap(rows, t.x, t.y)
  {
    var c := Pass(Start, rows);
    var d := Applied(c, t.y);
    OtherKeepsBoth(c.state, t, t.y);
    NewOnKnownParent(c, t.y, t.b.id);
    assert t.y.id in t.x.parents;
    AppliedIds(c, t.y);
    OtherKeepsBoth(d.state, t, t.x);
    NewOnKnownParent(d, t.x, t.y.id);
  }

  lemma StageHasRemoval(t: Story, rows: seq<Event>)
    requires Tail(t) && Stage(t, rows)
    ensures var d := Applied(Pass(Start, rows), t.y);
            Applicable(d, t.z) && t.bob !in Applied(d, t.z).state.members && !Applicable(Applied(d, t.z), t.x)
  {
    var c := Pass(Start, rows);
    var d := Applied(c, t.y);
    OtherKeepsBoth(c.state, t, t.y);
    AppliedIds(c, t.y);
    NewOnKnownParent(d, t.z, t.b.id);
    RemovalOfBob(d.state, t);
  }

  // ---------- an accepted claim ----------

  function Simple(t: Story): seq<Event> {
    [t.w] + [t.k]
  }

  lemma SimplePass(t: Story)
    requires IsStory(t)
    ensures var c := Pass(Start, Simple(t));
            c.events == Simple(t) && IdSet(c.events) == {t.w.id, t.k.id} && Open(c.state, t)
  {
    FirstRow(t.w);
    CreatedAndInvited(t);
    RowApplies(Start, [t.w], t.k);
  }

  /** Rows that say nothing about the claim. */
  ghost predicate Silent(rows: seq<Event>) {
    forall e :: e in rows ==> !e.body.InviteClaimed? && !e.body.JoinRequestRecorded?
  }

  lemma OpenHistoryAccepts(rows: seq<Event>, t: Story, minted: Minted)
    requires t.claim.displayName != "" && t.claim.device != t.owner
    requires Open(Materialize(rows).state, t) && Silent(Materialize(rows).events) && FreshFor(minted, rows)
    ensures AcceptedOn(rows, t.claim, t.owner, Current, Regular, minted)
  {
    OpenAccepts(Materialize(rows), t);
    OpenAuthorizes(Materialize(rows), t, minted);
  }

  /** A claim is accepted on a history of two events, and no row of it had to wait. */
  lemma SimpleClaimIsAccepted(t: Story)
    requires IsStory(t)
    ensures AcceptedOn(Simple(t), t.claim, t.owner, Current, Regular, t.first)
    ensures InOrder(Simple(t)) && Open(Materialize(Simple(t)).state, t) && Materialize(Simple(t)).events == Simple(t)
  {
    SimplePass(t);
    AllAreApplied(Simple(t));
    SimpleIsSilent(t);
    FirstIsFresh(t);
    OpenHistoryAccepts(Simple(t), t, t.first);
  }

  lemma SimpleIsSilent(t: Story)
    requires Cast(t)
    ensures Silent(Simple(t))
  {
  }

  /** The rows mention only these ids. */
  ghost predicate Within(rows: seq<Event>, ids: set<EventId>) {
    forall e :: e in rows ==> e.id in ids && forall p :: p in e.parents ==> p in ids
  }

  lemma FreshOutside(minted: Minted, rows: seq<Event>, ids: set<EventId>)
    requires NewTo(minted, ids) && Within(rows, ids)
    ensures FreshFor(minted, rows)
  {
    forall e | e in rows
      ensures e.id !in {minted.request, minted.member, minted.claim}
      ensures forall p :: p in e.parents ==> p !in {minted.request, minted.member, minted.claim}
    {
    }
  }

  lemma WithinConcat(a: seq<Event>, b: seq<Event>, ids: set<EventId>)
    requires Within(a, ids) && Within(b, ids)
    ensures Within(a + b, ids)
  {
  }

  function StoryIds(t: Story): set<EventId> {
    {t.w.id, t.k.id, t.a.id, t.b.id, t.y.id, t.x.id, t.z.id}
  }

  lemma StoryIsWithin(t: Story)
    requires Cast(t)
    ensures Within(Simple(t), StoryIds(t)) && Within(Repaired(t), StoryIds(t)) && Within([t.z], StoryIds(t))
  {
    assert Repaired(t) == [t.w, t.k, t.a, t.b, t.x, t.y];
  }

  lemma FirstIsFresh(t: Story)
    requires IsStory(t)
    ensures FreshFor(t.first, Simple(t)) && FreshFor(t.first, Repaired(t))
  {
    StoryIsWithin(t);
    FreshOutside(t.first, Simple(t), StoryIds(t));
    FreshOutside(t.first, Repaired(t), StoryIds(t));
  }

  // ---------- a repaired gap ----------

  function Staffed(t: Story): seq<Event> {
    Simple(t) + [t.a] + [t.b]
  }

  /** The child `x` was stored before its parent `y`. */
  function Repaired(t: Story): seq<Event> {
    Staffed(t) + [t.x] + [t.y]
  }

  function Early(t: Story): seq<Event> {
    Staffed(t) + [t.y]
  }

  lemma CarolJoins(t: Story)
    requires IsStory(t)
    ensures var c := Pass(Start, Simple(t) + [t.a]);
            c.events == Simple(t) + [t.a] && Open(c.state, t) && CarolIsIn(c.state, t)
  {
    SimplePass(t);
    CarolOnSimple(Pass(Start, Simple(t)), t);
    RowApplies(Start, Simple(t), t.a);
  }

  lemma FirstFour(t: Story)
    requires IsStory(t)
    ensures var c := Pass(Start, Staffed(t)); c.events == Staffed(t) && Open(c.state, t) && BothAreIn(c.state, t)
  {
    CarolJoins(t);
    IdsOfStaff(t);
    BobOnCarol(Pass(Start, Simple(t) + [t.a]), t);
    RowApplies(Start, Simple(t) + [t.a], t.b);
  }

  function StaffIds(t: Story): set<EventId> {
    {t.w.id, t.k.id, t.a.id, t.b.id}
  }

  lemma StaffIsKnown(t: Story)
    requires Separate(t)
    ensures var ids := IdSet(Staffed(t)); t.b.id in ids && t.x.id !in ids && t.y.id !in ids && t.z.id !in ids
  {
    IdsOfStaff(t);
  }

  lemma StaffIsStage(t: Story)
    requires IsStory(t)
    ensures Tail(t) && Stage(t, Staffed(t))
  {
    StoryHasTail(t);
    FirstFour(t);
    StaffIsKnown(t);
  }

  lemma CarolOnSimple(c: Context, t: Story)
    requires People(t) && t.a.author == t.owner && t.a.body == MemberInvited(t.carol, Admin) && t.a.parents == [t.k.id]
    requires t.a.id !in IdSet(c.events) && t.k.id in IdSet(c.events) && Open(c.state, t)
    ensures Applicable(c, t.a) && Open(Applied(c, t.a).state, t) && CarolIsIn(Applied(c, t.a).state, t)
  {
    CarolIsInvited(c.state, t);
    NewOnKnownParent(c, t.a, t.k.id);
  }

  lemma BobOnCarol(c: Context, t: Story)
    requires People(t) && t.b.author == t.carol && t.b.body == MemberInvited(t.bob, Regular) && t.b.parents == [t.a.id]
    requires t.b.id !in IdSet(c.events) && t.a.id in IdSet(c.events) && Open(c.state, t) && CarolIsIn(c.state, t)
    ensures Applicable(c, t.b) && Open(Applied(c, t.b).state, t) && BothAreIn(Applied(c, t.b).state, t)
  {
    BobIsInvited(c.state, t);
    NewOnKnownParent(c, t.b, t.a.id);
  }

  lemma OpenStays(s: State, t: Story)
    requires Tail(t) && Open(s, t)
    ensures var d := Apply(s, t.y); Open(Apply(d, t.x), t) && Open(Apply(d, t.z), t)
  {
    var d := Apply(s, t.y);
    OtherChangesNothing(s, t, t.y);
    OtherChangesNothing(d, t, t.x);
    RemovalKeepsOpen(d, t);
  }

  lemma RemovalKeepsOpen(s: State, t: Story)
    requires People(t) && t.z.body == MemberRemoved(t.bob) && Open(s, t)
    ensures Open(Apply(s, t.z), t)
  {
  }

  /** The child is applied in the second pass. */
  lemma RepairedIsMaterialized(t: Story)
    requires IsStory(t)
    ensures Materialize(Repaired(t)).events == Early(t) + [t.x] && Open(Materialize(Repaired(t)).state, t)
    ensures Pass(Start, Repaired(t)).events == Early(t)
  {
    StaffIsStage(t);
    StageHasGap(t, Staffed(t));
    GapPass(Staffed(t), t.x, t.y);
    GapIsRepaired(Staffed(t), t.x, t.y);
    FirstFour(t);
    OpenStays(Pass(Start, Staffed(t)).state, t);
  }

  lemma RepairedIsSilent(t: Story)
    requires IsStory(t)
    ensures Silent(Early(t) + [t.x]) && Silent(Early(t) + [t.z])
  {
  }

  lemma RepairedAccepts(t: Story)
    requires IsStory(t)
    ensures AcceptedOn(Repaired(t), t.claim, t.owner, Current, Regular, t.first) && !InOrder(Repaired(t))
  {
    RepairedIsMaterialized(t);
    RepairedIsSilent(t);
    FirstIsFresh(t);
    OpenHistoryAccepts(Repaired(t), t, t.first);
    assert |Materialize(Repaired(t)).events| > |Pass(Start, Repaired(t)).events|;
  }

  ghost function ClaimRows(t: Story): seq<Event> {
    Triple(Materialize(Repaired(t)), t.claim, t.owner, Regular, t.first)
  }

  /** The stored history after the claim was granted. */
  ghost function Granted(t: Story): seq<Event> {
    Repaired(t) + ClaimRows(t)
  }

  lemma TripleParents(ctx: Context, t: Story)
    ensures var three := Triple(ctx, t.claim, t.owner, Regular, t.first);
            && three[0].parents == Heads(ctx.events)
            && three[1].parents == [t.first.request] && three[2].parents == [t.first.member]
            && three[0].id == t.first.request && three[1].id == t.first.member && three[2].id == t.first.claim
  {
  }

  function RepairedIds(t: Story): set<EventId> {
    {t.w.id, t.k.id, t.a.id, t.b.id, t.y.id, t.x.id}
  }

  lemma IdsOfRepaired(t: Story)
    ensures IdSet(Early(t) + [t.x]) == RepairedIds(t)
  {
    assert Early(t) + [t.x] == [t.w, t.k, t.a, t.b, t.y, t.x];
  }

  lemma IdsOfStaff(t: Story)
    ensures IdSet(Staffed(t)) == StaffIds(t) && IdSet(Simple(t) + [t.a]) == {t.w.id, t.k.id, t.a.id}
  {
    assert Simple(t) + [t.a] == [t.w, t.k, t.a] && Staffed(t) == [t.w, t.k, t.a, t.b];
  }

  /** The triple hangs on the child, so none of it is applied before the child is. */
  lemma TripleHangsOnChild(t: Story)
    requires IsStory(t)
    ensures t.x.id in ClaimRows(t)[0].parents
    ensures forall p :: p in ClaimRows(t)[0].parents ==> p in RepairedIds(t)
  {
    RepairedIsMaterialized(t);
    MaterializedHeads(Repaired(t), Early(t), t.x);
    IdsOfRepaired(t);
    TripleParents(Materialize(Repaired(t)), t);
  }

  lemma MaterializedHeads(rows: seq<Event>, before: seq<Event>, last: Event)
    requires Materialize(rows).events == before + [last]
    ensures last.id in Heads(Materialize(rows).events)
    ensures forall p :: p in Heads(Materialize(rows).events) ==> p in IdSet(Materialize(rows).events)
  {
    Materialized(rows);
    HeadsOf(Materialize(rows).events, before, last);
  }

  lemma HeadsOf(events: seq<Event>, before: seq<Event>, last: Event)
    requires Linear(events) && events == before + [last]
    ensures last.id in Heads(events) && forall p :: p in Heads(events) ==> p in IdSet(events)
  {
    HeadsFacts(events);
  }

  lemma TripleIsUnmet(t: Story, ids: set<EventId>)
    requires IsStory(t) && t.x.id !in ids && t.first.request !in ids && t.first.member !in ids
    ensures Unmet(ClaimRows(t), ids)
  {
    TripleHangsOnChild(t);
    TripleParents(Materialize(Repaired(t)), t);
    ThreeAreUnmet(ClaimRows(t), ids, t.x.id, t.first.request, t.first.member);
  }

  lemma ThreeAreUnmet(rows: seq<Event>, ids: set<EventId>, p: EventId, q: EventId, r: EventId)
    requires |rows| == 3 && p in rows[0].parents && q in rows[1].parents && r in rows[2].parents
    requires p !in ids && q !in ids && r !in ids
    ensures Unmet(rows, ids)
  {
    assert rows == [rows[0], rows[1], rows[2]];
  }

  lemma ChildIsUnknown(t: Story)
    requires Separate(t)
    ensures var ids := IdSet(Staffed(t)) + {t.y.id, t.z.id};
            t.x.id !in ids && t.first.request !in ids && t.first.member !in ids
  {
    IdsOfStaff(t);
  }

  /** The removal is applied first, the child never, and the triple written on the child neither. */
  lemma RemovalUndoesClaim(t: Story)
    requires IsStory(t)
    ensures var c := Materialize(Granted(t) + [t.z]);
            c.events == Early(t) + [t.z] && Open(c.state, t)
  {
    StaffIsStage(t);
    StageHasGap(t, Staffed(t));
    StageHasRemoval(t, Staffed(t));
    ChildIsUnknown(t);
    TripleIsUnmet(t, IdSet(Staffed(t)) + {t.y.id, t.z.id});
    GapIsOvertaken(Staffed(t), t.x, t.y, ClaimRows(t), t.z);
    FirstFour(t);
    OpenStays(Pass(Start, Staffed(t)).state, t);
  }

  function AllIds(t: Story): set<EventId> {
    StoryIds(t) + {t.first.request, t.first.member, t.first.claim}
  }

  lemma TripleIsWithin(t: Story)
    requires IsStory(t)
    ensures Within(ClaimRows(t), AllIds(t))
  {
    TripleHangsOnChild(t);
    TripleParents(Materialize(Repaired(t)), t);
    var three := ClaimRows(t);
    assert three == [three[0], three[1], three[2]];
  }

  lemma SecondIsFresh(t: Story)
    requires IsStory(t)
    ensures FreshFor(t.second, Granted(t) + [t.z])
  {
    StoryIsWithin(t);
    TripleIsWithin(t);
    WithinConcat(Repaired(t), ClaimRows(t), AllIds(t));
    WithinConcat(Granted(t), [t.z], AllIds(t));
    SecondIsNew(t);
    FreshOutside(t.second, Granted(t) + [t.z], AllIds(t));
  }

  lemma SecondIsNew(t: Story)
    requires Separate(t)
    ensures NewTo(t.second, AllIds(t))
  {
  }

  /** So the invite for one claim is open again, for the very same claim: once a row had to wait, a
      later row can undo what a claim was granted on. */
  lemma RepairedGapReopensInvite(t: Story)
    requires IsStory(t)
    ensures AcceptedOn(Repaired(t), t.claim, t.owner, Current, Regular, t.first)
    ensures Granted(t) == WithTriple(Repaired(t), t.claim, t.owner, Regular, t.first)
    ensures AcceptedOn(Granted(t) + [t.z], t.claim, t.owner, Current, Regular, t.second)
  {
    RepairedAccepts(t);
    RemovalUndoesClaim(t);
    RepairedIsSilent(t);
    SecondIsFresh(t);
    OpenHistoryAccepts(Granted(t) + [t.z], t, t.second);
  }

  lemma NothingBefore<T>(a: seq<T>, b: seq<T>)
    requires a == []
    ensures a + b == b
  {
  }

  lemma FirstGrant(s: System, rows: seq<Event>, c: Claim, role: Role, m: Minted) returns (run: seq<Action>)
    requires s.grants == [] && s.procs == map[] && NewRows(s.log, rows)
    requires AcceptedOn(s.log + rows, c, s.local, Current, role, m)
    ensures IsRun(s, run)
    ensures var mid := After(s, run);
            && mid.log == WithTriple(s.log + rows, c, s.local, role, m) && mid.local == s.local && 1 !in mid.procs
            && |mid.grants| == 1 && mid.grants[0].claim == c
  {
    ClaimAfterRows(s, rows, 0, c, Current, role, m);
    run := Appends(rows) + ClaimSteps(0, c, Current, m);
  }

  lemma SecondGrant(s: System, more: seq<Event>, c: Claim, role: Role, n: Minted) returns (run: seq<Action>)
    requires NewRows(s.log, more) && 1 !in s.procs && AcceptedOn(s.log + more, c, s.local, Current, role, n)
    requires |s.grants| == 1 && s.grants[0].claim == c
    ensures IsRun(s, run) && |After(s, run).grants| == 2
            && After(s, run).grants[0].claim == c && After(s, run).grants[1].claim == c
  {
    ClaimAfterRows(s, more, 1, c, Current, role, n);
    run := Appends(more) + ClaimSteps(1, c, Current, n);
  }

  lemma RowsDiffer(t: Story)
    requires IsStory(t)
    ensures NewRows([], Repaired(t))
  {
    assert Repaired(t) == [t.w, t.k, t.a, t.b, t.x, t.y];
  }

  lemma RemovalIsNew(t: Story)
    requires Separate(t)
    ensures NewRows(Granted(t), [t.z])
  {
    TripleParents(Materialize(Repaired(t)), t);
    RemovalIsNewTo(t, ClaimRows(t));
  }

  lemma RemovalIsNewTo(t: Story, three: seq<Event>)
    requires Separate(t) && |three| == 3
    requires three[0].id == t.first.request && three[1].id == t.first.member && three[2].id == t.first.claim
    ensures NewRows(Repaired(t) + three, [t.z])
  {
    forall e | e in Repaired(t) + three ensures e.id != t.z.id {
      assert e in [t.w, t.k, t.a, t.b, t.x, t.y] || e == three[0] || e == three[1] || e == three[2];
    }
  }

  /** One claim granted twice, on an invite for one claim: other writers store the repaired history,
      one process claims, the removal arrives, and another process claims the same again. */
  lemma LimitCanBeExceeded(t: Story) returns (run: seq<Action>)
    requires IsStory(t)
    ensures IsRun(System(t.owner, [], map[], []), run)
    ensures var grants := After(System(t.owner, [], map[], []), run).grants;
            |grants| == 2 && grants[0].claim == t.claim && grants[1].claim == t.claim
    ensures t.k.body.inviteId == t.claim.inviteId && t.k.body.maxClaims == Some(1)
  {
    var s := System(t.owner, [], map[], []);
    var begin := UntilFirstGrant(t);
    var end := FromFirstGrant(t, After(s, begin));
    RunConcat(s, begin, end);
    run := begin + end;
  }

  lemma UntilFirstGrant(t: Story) returns (run: seq<Action>)
    requires IsStory(t)
    ensures IsRun(System(t.owner, [], map[], []), run)
    ensures var s := After(System(t.owner, [], map[], []), run);
            s.log == Granted(t) && s.local == t.owner && 1 !in s.procs && |s.grants| == 1 && s.grants[0].claim == t.claim
  {
    RepairedAccepts(t);
    RowsDiffer(t);
    var s := System(t.owner, [], map[], []);
    NothingBefore(s.log, Repaired(t));
    run := FirstGrant(s, Repaired(t), t.claim, Regular, t.first);
  }

  lemma FromFirstGrant(t: Story, s: System) returns (run: seq<Action>)
    requires IsStory(t) && s.log == Granted(t) && s.local == t.owner && 1 !in s.procs
    requires |s.grants| == 1 && s.grants[0].claim == t.claim
    ensures IsRun(s, run)
    ensures var grants := After(s, run).grants;
            |grants| == 2 && grants[0].claim == t.claim && grants[1].claim == t.claim
  {
    RepairedGapReopensInvite(t);
    RemovalIsNew(t);
    run := SecondGrant(s, [t.z], t.claim, Regular, t.second);
  }
}
