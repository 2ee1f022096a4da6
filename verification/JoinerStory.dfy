/** The joiner of the story: its files and history once its claim was granted, what it may write, and
    what a change of its role does. */
module JoinerStory {
  import opened Events
  import opened Workspace
  import opened Materialization
  import InviteClaims
  import opened InviteReplay
  import StateMeaning
  import opened CanonicalClaim
  import opened ProfileIdentity
  import opened ProfileFinalization
  import opened RepairedGaps
  import opened ClaimExamples

  // ---------- a joiner with an accepted claim ----------

  /** The responder's history after it granted the claim of the story. */
  ghost function Rows(t: Story): seq<Event> {
    InviteClaims.WithTriple(Simple(t), t.claim, t.owner, Regular, t.first)
  }

  function At(t: Story): Coordinates {
    Coordinates(t.claim.inviteId, t.claim.requestId)
  }

  function ReceiptFor(t: Story): Receipt {
    Receipt(t.claim.inviteId, t.claim.requestId, t.owner, "key", t.claim.displayName)
  }

  /** All five rows are applied. */
  lemma RowsAreMaterialized(t: Story)
    requires IsStory(t)
    ensures Materialize(Rows(t)).events == Rows(t) && |Materialize(Simple(t)).events| == 2
  {
    SimpleClaimIsAccepted(t);
    AcceptedContinuesAtOnce(Simple(t), t.claim, t.owner, InviteClaims.Current, Regular, t.first);
    var ctx := Materialize(Rows(t));
    assert Rows(t) <= ctx.events;
    MaterializedInBrief(Rows(t));
    AllInside(ctx.events, Rows(t));
  }

  /** Distinct events out of a shorter list that they extend are that list. */
  lemma AllInside(events: seq<Event>, rows: seq<Event>)
    requires rows <= events && DistinctIds(events) && forall e :: e in events ==> e in rows
    ensures events == rows
  {
    if |rows| < |events| {
      NextIsOutside(events, rows);
    }
  }

  lemma NextIsOutside(events: seq<Event>, rows: seq<Event>)
    requires rows <= events && |rows| < |events| && DistinctIds(events)
    ensures events[|rows|] !in rows
  {
    assert forall k :: 0 <= k < |rows| ==> rows[k] == events[k];
  }

  lemma OnlySecond(a: Event, b: Event, p: Event -> bool)
    requires !p(a) && p(b)
    ensures Only([a] + [b], p) == Some(b)
  {
    FilterConcat([a], [b], p);
    FilterOne(a, p);
    FilterOne(b, p);
  }

  lemma OneCapabilityInSimple(t: Story)
    requires IsStory(t)
    ensures OneCapability(Simple(t), ReceiptFor(t))
  {
    OnlySecond(t.w, t.k, CanonicalClaim.Capability(ReceiptFor(t)));
  }

  lemma NobodyAnswered(t: Story)
    requires IsStory(t)
    ensures var before := Materialize(Simple(t));
            !WasAnswered(before, t.claim, InviteClaims.Triple(before, t.claim, t.owner, Regular, t.first))
  {
    SimpleClaimIsAccepted(t);
    MaterializedInBrief(Simple(t));
    NoRequestYet(t);
    var before := Materialize(Simple(t));
    NoInviteAnswers(before.state.invites, InviteClaims.Triple(before, t.claim, t.owner, Regular, t.first)[0]);
  }

  lemma NoInviteAnswers(invites: map<InviteId, Invite>, e: Event)
    requires forall i :: i in invites ==> invites[i].requestId == None
    ensures forall i :: i in MarkAccepted(invites, e) ==> MarkAccepted(invites, e)[i].requestId == None
  {
  }

  lemma NoRequestYet(t: Story)
    requires t.w.body == WorkspaceCreated && t.k.body.InviteCapabilityCreated?
    ensures forall i :: i in Fold(Empty, Simple(t)).invites ==> Fold(Empty, Simple(t)).invites[i].requestId == None
  {
    FoldSnoc(Empty, [t.w], t.k);
    FoldSnoc(Empty, [], t.w);
    assert [] + [t.w] == [t.w];
  }

  /** The joiner's files once it holds the receipt and marked its intent. */
  function Receipts(t: Story): map<Coordinates, Stored> {
    map[At(t) := Stored(ReceiptFor(t), true, false)]
  }

  lemma ClaimIsActive(t: Story)
    requires IsStory(t)
    ensures ActiveClaim(Materialize(Rows(t)), t.claim.device, Receipts(t)) == Some((At(t), t.claim.displayName))
  {
    ClaimStaysActive(t, []);
    assert Rows(t) + [] == Rows(t);
  }

  // ---------- what the rows do not say ----------

  lemma {:induction false} NoLinks(events: seq<Event>)
    requires forall e :: e in events ==> !e.body.PersonDeviceLinked?
    ensures Fold(Empty, events).links == map[]
  {
    if events != [] {
      NoLinks(events[..|events| - 1]);
    }
  }

  lemma {:induction false} NoProfiles(events: seq<Event>)
    requires forall e :: e in events ==> !e.body.DeviceProfileUpdated?
    ensures Fold(Empty, events).profiles == map[]
  {
    if events != [] {
      NoProfiles(events[..|events| - 1]);
    }
  }

  lemma RowsSayNothing(t: Story)
    requires IsStory(t)
    ensures forall e :: e in Rows(t) ==> !e.body.DeviceProfileUpdated? && !e.body.PersonDeviceLinked? && !e.body.PersonProfileUpdated?
  {
    forall e | e in Rows(t) ensures !e.body.DeviceProfileUpdated? && !e.body.PersonDeviceLinked? && !e.body.PersonProfileUpdated? {
      assert e in Simple(t) || e in InviteClaims.Triple(Materialize(Simple(t)), t.claim, t.owner, Regular, t.first);
    }
  }

  // ---------- what the joiner may write ----------

  lemma RestIsMore(ctx: Context, rows: seq<Event>, more: seq<Event>)
    requires DistinctIds(ctx.events) && rows <= ctx.events && forall e :: e in ctx.events ==> e in rows + more
    ensures forall e :: e in ctx.events[|rows|..] ==> e in more
  {
    forall e | e in ctx.events[|rows|..] ensures e in more {
      var k :| 0 <= k < |ctx.events[|rows|..]| && ctx.events[|rows|..][k] == e;
      assert ctx.events[|rows| + k] == e && e in rows + more;
      NotAmongFirst(ctx.events, rows, |rows| + k);
    }
  }

  lemma NotAmongFirst(events: seq<Event>, rows: seq<Event>, k: nat)
    requires DistinctIds(events) && rows <= events && |rows| <= k < |events|
    ensures events[k] !in rows
  {
    assert forall j :: 0 <= j < |rows| ==> rows[j] == events[j];
  }

  /** Rows that leave the joiner's membership and claim alone. */
  ghost predicate LeavesJoiner(t: Story, e: Event) {
    !StateMeaning.TouchesMembership(e, t.claim.device) && !Disturbs(e, t.claim.device, ReceiptFor(t), t.first.request)
  }

  lemma ClaimStaysActive(t: Story, more: seq<Event>)
    requires IsStory(t) && forall e :: e in more ==> LeavesJoiner(t, e)
    ensures ActiveClaim(Materialize(Rows(t) + more), t.claim.device, Receipts(t)) == Some((At(t), t.claim.displayName))
  {
    SimpleClaimIsAccepted(t);
    OneCapabilityInSimple(t);
    NobodyAnswered(t);
    RowsAreMaterialized(t);
    var ctx := Materialize(Rows(t) + more);
    AcceptedContinues(Simple(t), t.claim, t.owner, InviteClaims.Current, Regular, t.first, more);
    MaterializedInBrief(Rows(t) + more);
    RestIsMore(ctx, Rows(t), more);
    RestLeavesJoiner(t, ctx.events, more);
    AcceptedClaimActiveExactly(Simple(t), t.claim, t.owner, InviteClaims.Current, Regular, t.first, ReceiptFor(t),
                               Receipts(t), more);
  }

  lemma RestLeavesJoiner(t: Story, events: seq<Event>, more: seq<Event>)
    requires |events| >= 5 && (forall e :: e in events[5..] ==> e in more) && forall e :: e in more ==> LeavesJoiner(t, e)
    ensures Untouched(events, 5, |events|, t.claim.device)
    ensures Undisturbed(events[5..], t.claim.device, ReceiptFor(t), t.first.request)
  {
    forall k | 5 <= k < |events| ensures !StateMeaning.TouchesMembership(events[k], t.claim.device) {
      assert events[5..][k - 5] == events[k];
      assert LeavesJoiner(t, events[k]);
    }
  }

  /** While the claim is active the joiner is a member. */
  lemma JoinerIsMember(t: Story, more: seq<Event>)
    requires IsStory(t) && forall e :: e in more ==> LeavesJoiner(t, e)
    ensures IsMember(Materialize(Rows(t) + more).state, t.claim.device)
  {
    ClaimStaysActive(t, more);
    ActiveClaimIsGranted(Materialize(Rows(t) + more), t.claim.device, Receipts(t));
    MembersNeedRoot(Rows(t) + more);
  }

  function Profile(t: Story): Body {
    DeviceProfileUpdated(t.claim.displayName)
  }

  /** Writing a profile takes no more than membership. */
  lemma ProfileIsWritten(log: seq<Event>, d: DeviceId, name: string)
    requires IsMember(Materialize(log).state, d)
    ensures WrittenNow(log, Write(log, d, DeviceProfileUpdated(name)))
  {
    WriteIsWritten(log, d, DeviceProfileUpdated(name));
  }

  lemma OwnProfileLeavesJoiner(t: Story, e: Event)
    requires e.body.DeviceProfileUpdated? || e.body.PersonDeviceLinked? || e.body.PersonProfileUpdated?
    ensures LeavesJoiner(t, e)
  {
  }

  /** The owner is in charge. */
  ghost predicate InCharge(s: State, t: Story) {
    s.root == Some(t.owner) && t.owner in s.members && s.members[t.owner].role == Owner
  }

  lemma RowsLeaveOwnerInCharge(t: Story)
    requires IsStory(t)
    ensures Pass(Start, Rows(t)).events == Rows(t) && InCharge(Pass(Start, Rows(t)).state, t)
  {
    SimpleClaimIsAccepted(t);
    var before := Materialize(Simple(t));
    var three := InviteClaims.Triple(before, t.claim, t.owner, Regular, t.first);
    InviteClaims.TripleIsLate(Simple(t), t.claim, t.owner, Regular, t.first);
    PassConcat(Start, Simple(t), three);
    RequestIsAuthorized(before.state, t, three[0]);
    InvitationIsAuthorized(Apply(before.state, three[0]), t, three[1]);
    ClaimLeavesInCharge(Apply(Apply(before.state, three[0]), three[1]), t, three[2]);
  }

  lemma ClaimLeavesInCharge(s: State, t: Story, e: Event)
    requires Claimable(s, t) && e.body.InviteClaimed?
    ensures InCharge(Apply(s, e), t)
  {
  }

  // ---------- a change of role ----------

  lemma RowsState(t: Story)
    requires IsStory(t)
    ensures var s := Materialize(Rows(t)).state;
            InCharge(s, t) && t.claim.device in s.members && s.members[t.claim.device].role == Regular
    ensures IdSet(Rows(t)) <= IdSet(Materialize(Rows(t)).events)
  {
    RowsLeaveOwnerInCharge(t);
    AllAreApplied(Rows(t));
    SimpleClaimIsAccepted(t);
    var before := Materialize(Simple(t));
    InviteClaims.TripleIsLate(Simple(t), t.claim, t.owner, Regular, t.first);
    PassConcat(Start, Simple(t), InviteClaims.Triple(before, t.claim, t.owner, Regular, t.first));
    AcceptedMembership(Simple(t), t.claim, t.owner, InviteClaims.Current, Regular, t.first);
  }

  /** The owner makes the new member a guest. */
  ghost function Demotion(t: Story): Event {
    Write(Rows(t), t.owner, MemberRoleUpdated(t.claim.device, Guest))
  }

  lemma DemotionIsApplied(t: Story)
    requires IsStory(t)
    ensures WrittenNow(Rows(t), Demotion(t)) && Materialize(Rows(t) + [Demotion(t)]).events == Rows(t) + [Demotion(t)]
  {
    RowsState(t);
    RowsAreMaterialized(t);
    WriteIsWritten(Rows(t), t.owner, MemberRoleUpdated(t.claim.device, Guest));
    WrittenOnComplete(Rows(t), Demotion(t));
  }

  /** A history of six events on which the retry of an accepted claim is refused and its profile can
      not be published, because the owner changed the role of the new member. Before that event, the
      retry is answered and the claim is the active one. */
  lemma DemotionRefusesAndBlocks(t: Story)
    requires IsStory(t)
    ensures WrittenNow(Rows(t), Demotion(t)) && Demotion(t).body.MemberRoleUpdated?
    ensures InviteClaims.Decide(Materialize(Rows(t)), t.claim, InviteClaims.Current)
            == InviteClaims.Replay(t.first.member, t.first.claim, Regular)
    ensures ActiveClaim(Materialize(Rows(t)), t.claim.device, Receipts(t)) == Some((At(t), t.claim.displayName))
    ensures InviteClaims.Decide(Materialize(Rows(t) + [Demotion(t)]), t.claim, InviteClaims.Current).Refuse?
    ensures ActiveClaim(Materialize(Rows(t) + [Demotion(t)]), t.claim.device, Receipts(t)) == None
  {
    ReplayBefore(t);
    ClaimIsActive(t);
    SimpleClaimIsAccepted(t);
    RowsAreMaterialized(t);
    DemotionIsApplied(t);
    OneCapabilityInSimple(t);
    var g := Demotion(t);
    RoleChangeEndsReplay(Simple(t), t.claim, t.owner, InviteClaims.Current, Regular, t.first, [g], 5, Guest, InviteClaims.Current);
    RoleChangeBlocksFinalization(Simple(t), t.claim, t.owner, InviteClaims.Current, Regular, t.first, ReceiptFor(t), Receipts(t),
                                 [g], 5, Guest);
    OnlyReceipt(Materialize(Rows(t) + [g]), t);
  }

  lemma OnlyReceipt(ctx: Context, t: Story)
    requires var active := ActiveClaim(ctx, t.claim.device, Receipts(t)); active.None? || active.value.0 != At(t)
    ensures ActiveClaim(ctx, t.claim.device, Receipts(t)) == None
  {
  }

  lemma ReplayBefore(t: Story)
    requires IsStory(t)
    ensures InviteClaims.Decide(Materialize(Rows(t)), t.claim, InviteClaims.Current)
            == InviteClaims.Replay(t.first.member, t.first.claim, Regular)
  {
    SimpleClaimIsAccepted(t);
    RowsAreMaterialized(t);
    var ctx := Materialize(Rows(t));
    ReplayExactlyWhileMember(Simple(t), t.claim, t.owner, InviteClaims.Current, Regular, t.first, [], InviteClaims.Current);
    assert Rows(t) + [] == Rows(t);
    NothingCollides(t);
  }

  lemma NothingCollides(t: Story)
    requires IsStory(t)
    ensures !InviteClaims.Collides(Rows(t), t.claim)
  {
    var three := InviteClaims.Triple(Materialize(Simple(t)), t.claim, t.owner, Regular, t.first);
    assert Rows(t) == [t.w, t.k, three[0], three[1], three[2]];
    assert InviteClaims.Repeats(t.claim)(Rows(t)[4]);
    NothingCollidesIn(Rows(t), t.claim, three);
  }

  lemma NothingCollidesIn(rows: seq<Event>, c: InviteClaims.Claim, three: seq<Event>)
    requires |three| == 3 && |rows| == 5 && rows[2..] == three && InviteClaims.Repeats(c)(rows[4])
    requires !rows[0].body.InviteClaimed? && !rows[0].body.JoinRequestRecorded?
    requires !rows[1].body.InviteClaimed? && !rows[1].body.JoinRequestRecorded?
    requires three[0].body == JoinRequestRecorded(c.requestId, c.device, c.displayName, "invite_claim", c.inviteId, "preapproved")
    requires three[1].body.MemberInvited?
    ensures !InviteClaims.Collides(rows, c)
  {
    assert FindFirst(rows, InviteClaims.Repeats(c)).Some?;
    forall e | e in rows ensures !InviteClaims.ClaimCollides(e, c) && !InviteClaims.RequestCollides(e, c, true) {
      assert rows == [rows[0], rows[1], rows[2], rows[3], rows[4]];
      assert rows[2] == three[0] && rows[3] == three[1];
    }
  }
}
