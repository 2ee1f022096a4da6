/** What a materialized state says, in terms of the applied events alone.

    Every component of the state is what the last event about it said, and an event is authorized
    exactly when the events before it allow it.
 */
module StateMeaning {
  import opened Events
  import opened Workspace
  import opened Materialization

  lemma FindLastSnoc(events: seq<Event>, e: Event, p: Event -> bool)
    ensures FindLast(events + [e], p) == if p(e) then Some(|events|) else FindLast(events, p)
  {
    assert (events + [e])[..|events|] == events;
  }

  /** Some event behind position `k` is like this. */
  ghost predicate Since(events: seq<Event>, k: nat, p: Event -> bool) {
    exists j :: k < j < |events| && p(events[j])
  }

  lemma SinceSnoc(events: seq<Event>, e: Event, k: nat, p: Event -> bool)
    requires k < |events|
    ensures Since(events + [e], k, p) <==> Since(events, k, p) || p(e)
  {
    var all := events + [e];
    if Since(events, k, p) {
      var j :| k < j < |events| && p(events[j]);
      assert p(all[j]);
    }
    if p(e) {
      assert p(all[|events|]);
    }
  }

  // ---------- members ----------

  /** Events that end, replace or re-issue the membership of a device. */
  predicate TouchesMembership(e: Event, d: DeviceId) {
    match e.body
    case WorkspaceCreated => e.author == d
    case MemberInvited(x, _) => x == d
    case MemberRoleUpdated(x, _) => x == d
    case MemberRemoved(x) => x == d
    case _ => false
  }

  function Touching(d: DeviceId): Event -> bool {
    (e: Event) => TouchesMembership(e, d)
  }

  function MemberGiven(e: Event): Option<Member> {
    match e.body
    case WorkspaceCreated => Some(Member(Owner, e.id))
    case MemberInvited(_, r) => Some(Member(r, e.id))
    case MemberRoleUpdated(_, r) => Some(Member(r, e.id))
    case _ => None
  }

  /** What the last event about the device made of it. */
  function MemberSaid(events: seq<Event>, d: DeviceId): Option<Member> {
    var k := FindLast(events, Touching(d));
    if k.None? then None else MemberGiven(events[k.value])
  }

  function RoleSaid(events: seq<Event>, d: DeviceId): Option<Role> {
    var m := MemberSaid(events, d);
    if m.Some? then Some(m.value.role) else None
  }

  ghost predicate MembersOk(events: seq<Event>, s: State) {
    forall d :: MemberSaid(events, d) == if d in s.members then Some(s.members[d]) else None
  }

  lemma MemberSaidSnoc(events: seq<Event>, e: Event, d: DeviceId)
    ensures MemberSaid(events + [e], d) == if TouchesMembership(e, d) then MemberGiven(e) else MemberSaid(events, d)
  {
    FindLastSnoc(events, e, Touching(d));
  }

  lemma MembersStep(events: seq<Event>, s: State, e: Event)
    requires MembersOk(events, s) && Authorized(s, e)
    ensures MembersOk(events + [e], Apply(s, e))
  {
    var t := Apply(s, e);
    forall d ensures MemberSaid(events + [e], d) == if d in t.members then Some(t.members[d]) else None {
      MemberSaidSnoc(events, e, d);
      assert MemberSaid(events, d) == if d in s.members then Some(s.members[d]) else None;
    }
  }

  // ---------- the root ----------

  ghost predicate RootOk(events: seq<Event>, s: State) {
    && s.root == (if events == [] then None else Some(events[0].author))
    && (events != [] ==> events[0].body.WorkspaceCreated?)
    && (events == [] ==> s == Empty)
  }

  lemma RootStep(events: seq<Event>, s: State, e: Event)
    requires RootOk(events, s) && Authorized(s, e)
    ensures RootOk(events + [e], Apply(s, e))
  {
  }

  // ---------- invites ----------

  predicate CreatesInvite(e: Event, i: InviteId) {
    (e.body.InviteCapabilityCreated? || e.body.InviteRecorded?) && e.body.inviteId == i
  }

  predicate ClaimsInvite(e: Event, i: InviteId) {
    e.body.InviteClaimed? && e.body.inviteId == i
  }

  /** Applied claims of the invite since its last creation. */
  function ClaimsSince(events: seq<Event>, i: InviteId): nat {
    if events == [] then 0
    else
      var last := events[|events| - 1];
      if CreatesInvite(last, i) then 0
      else ClaimsSince(events[..|events| - 1], i) + if ClaimsInvite(last, i) then 1 else 0
  }

  function Creating(i: InviteId): Event -> bool {
    (e: Event) => CreatesInvite(e, i)
  }

  function Claiming(i: InviteId): Event -> bool {
    (e: Event) => ClaimsInvite(e, i)
  }

  function Revoking(i: InviteId): Event -> bool {
    (e: Event) => e.body == InviteRevoked(i)
  }

  /** Where the invite was created last. */
  function Creation(events: seq<Event>, i: InviteId): Option<nat> {
    FindLast(events, Creating(i))
  }

  ghost predicate RevokedSince(events: seq<Event>, k: nat, i: InviteId) {
    Since(events, k, Revoking(i))
  }

  /** How many claims a capability allows: as many as it says, but at least one. */
  function Limit(m: Option<nat>): nat {
    match m
    case None => 1
    case Some(n) => if n == 0 then 1 else n
  }

  /** What the creating event fixes. */
  predicate CreatedAs(v: Invite, c: Event) {
    && v.createdEvent == c.id && v.createdBy == c.author
    && match c.body
       case InviteRecorded(_, _, r, _) => v.role == r && v.capabilityKey == "" && v.expiresAt == "" && v.maxClaims == 1
       case InviteCapabilityCreated(_, r, x, k, m) =>
         v.role == r && v.capabilityKey == k && k != "" && v.expiresAt == x && v.maxClaims == Limit(m)
       case _ => false
  }

  /** A claim of the invite, or the named device authoring anything but invite events. */
  function Taking(i: InviteId, d: DeviceId): Event -> bool {
    (e: Event) => ClaimsInvite(e, i) || (!LifecycleBody(e.body) && e.author == d)
  }

  /** No claim is left: the limit is reached, or the named device has come. */
  ghost predicate Exhausted(events: seq<Event>, k: nat, i: InviteId)
    requires k < |events|
  {
    match events[k].body
    case InviteRecorded(_, d, _, _) => Since(events, k, Taking(i, d))
    case InviteCapabilityCreated(_, _, _, _, m) => ClaimsSince(events, i) >= Limit(m)
    case _ => false
  }

  /** Whom the invite and which request it is for: as its last claim says, else as created. */
  ghost predicate AddressedAs(v: Invite, events: seq<Event>, k: nat, i: InviteId)
    requires k < |events|
  {
    var j := FindLast(events, Claiming(i));
    if j.Some? && j.value > k && events[j.value].body.InviteClaimed?
    then v.invitee == events[j.value].body.claimant && v.requestId == Some(events[j.value].body.requestId)
    else
      match events[k].body
      case InviteRecorded(_, d, _, q) => v.invitee == d && v.requestId == q
      case _ => v.invitee == "" && v.requestId == None
  }

  ghost predicate StandsAs(v: Invite, events: seq<Event>, k: nat, i: InviteId)
    requires k < |events|
  {
    && v.status == (if RevokedSince(events, k, i) then Revoked else if Exhausted(events, k, i) then Accepted else Invited)
    && (!RevokedSince(events, k, i) ==> (v.claimCount >= v.maxClaims <==> Exhausted(events, k, i)))
    && (events[k].body.InviteCapabilityCreated? ==> v.claimCount == ClaimsSince(events, i))
    && (events[k].body.InviteRecorded? ==> v.claimCount <= 1)
  }

  ghost predicate InviteOk(events: seq<Event>, s: State, i: InviteId) {
    var k := Creation(events, i);
    && (i in s.invites <==> k.Some?)
    && (k.Some? ==>
          var v := s.invites[i];
          CreatedAs(v, events[k.value]) && AddressedAs(v, events, k.value, i) && StandsAs(v, events, k.value, i))
  }

  lemma ClaimsSinceSnoc(events: seq<Event>, e: Event, i: InviteId)
    ensures ClaimsSince(events + [e], i) ==
            if CreatesInvite(e, i) then 0 else ClaimsSince(events, i) + if ClaimsInvite(e, i) then 1 else 0
  {
    assert (events + [e])[..|events|] == events;
  }

  lemma NothingSince(events: seq<Event>, e: Event, p: Event -> bool)
    ensures !Since(events + [e], |events|, p)
  {
  }

  /** A newly created invite. */
  lemma CreationStep(events: seq<Event>, s: State, e: Event, i: InviteId)
    requires CreatesInvite(e, i) && Authorized(s, e)
    ensures InviteOk(events + [e], Apply(s, e), i)
  {
    var all := events + [e];
    FindLastSnoc(events, e, Creating(i));
    FindLastSnoc(events, e, Claiming(i));
    ClaimsSinceSnoc(events, e, i);
    NothingSince(events, e, Revoking(i));
    if e.body.InviteRecorded? {
      NothingSince(events, e, Taking(i, e.body.invitedDevice));
    }
    assert all[|events|] == e;
  }

  lemma AddressedSnoc(v: Invite, w: Invite, events: seq<Event>, e: Event, k: nat, i: InviteId)
    requires k < |events| && AddressedAs(v, events, k, i)
    requires if ClaimsInvite(e, i) then w.invitee == e.body.claimant && w.requestId == Some(e.body.requestId)
             else w.invitee == v.invitee && w.requestId == v.requestId
    ensures AddressedAs(w, events + [e], k, i)
  {
    FindLastSnoc(events, e, Claiming(i));
  }

  /** What one event makes of an invite it does not create. */
  lemma InviteAfter(s: State, e: Event, i: InviteId)
    requires i in s.invites && !CreatesInvite(e, i)
    ensures i in Apply(s, e).invites
    ensures var v, w := s.invites[i], Apply(s, e).invites[i];
            && w.createdEvent == v.createdEvent && w.createdBy == v.createdBy && w.role == v.role && w.maxClaims == v.maxClaims
            && w.capabilityKey == v.capabilityKey && w.expiresAt == v.expiresAt
            && (if ClaimsInvite(e, i) then w.invitee == e.body.claimant && w.requestId == Some(e.body.requestId)
                else w.invitee == v.invitee && w.requestId == v.requestId)
  {
  }

  lemma ExhaustedSnoc(events: seq<Event>, e: Event, k: nat, i: InviteId)
    requires k < |events| && !CreatesInvite(e, i)
    ensures events[k].body.InviteRecorded? ==>
              (Exhausted(events + [e], k, i) <==> Exhausted(events, k, i) || Taking(i, events[k].body.invitedDevice)(e))
    ensures events[k].body.InviteCapabilityCreated? ==>
              (Exhausted(events + [e], k, i) <==>
                 ClaimsSince(events, i) + (if ClaimsInvite(e, i) then 1 else 0) >= Limit(events[k].body.maxClaims))
  {
    assert (events + [e])[k] == events[k];
    ClaimsSinceSnoc(events, e, i);
    if events[k].body.InviteRecorded? {
      SinceSnoc(events, e, k, Taking(i, events[k].body.invitedDevice));
    }
  }

  lemma ClaimExhausts(events: seq<Event>, k: nat, i: InviteId)
    requires k < |events| && events[k].body.InviteRecorded?
    ensures var j := FindLast(events, Claiming(i)); j.Some? && j.value > k ==> Exhausted(events, k, i)
  {
    var j := FindLast(events, Claiming(i));
    if j.Some? && j.value > k {
      assert Taking(i, events[k].body.invitedDevice)(events[j.value]);
    }
  }

  /** The named device of an invite that is still open is the one it was recorded for. */
  lemma NamedUntilClaimed(v: Invite, events: seq<Event>, k: nat, i: InviteId)
    requires k < |events| && events[k].body.InviteRecorded? && AddressedAs(v, events, k, i) && !Exhausted(events, k, i)
    ensures v.invitee == events[k].body.invitedDevice
  {
    ClaimExhausts(events, k, i);
  }

  lemma StatusAfter(s: State, e: Event, i: InviteId)
    requires i in s.invites && s.invites[i].capabilityKey == "" && !CreatesInvite(e, i) && Authorized(s, e)
    ensures i in Apply(s, e).invites
    ensures var v, w := s.invites[i], Apply(s, e).invites[i];
            if ClaimsInvite(e, i) then
              && v.status != Revoked && v.claimCount < v.maxClaims && w.claimCount == v.claimCount + 1
              && w.status == (if w.claimCount >= v.maxClaims then Accepted else v.status)
            else if e.body == InviteRevoked(i) then w.status == Revoked && w.claimCount == v.claimCount
            else if !LifecycleBody(e.body) && v.invitee == e.author && v.status == Invited then
              w.status == Accepted && w.claimCount == v.maxClaims
            else w.status == v.status && w.claimCount == v.claimCount
  {
  }

  lemma RecordedStandsBy(events: seq<Event>, v: Invite, w: Invite, e: Event, k: nat, i: InviteId)
    requires k < |events| && events[k].body.InviteRecorded? && !CreatesInvite(e, i) && v.maxClaims == 1 && w.maxClaims == 1
    requires StandsAs(v, events, k, i) && (!Exhausted(events, k, i) ==> v.invitee == events[k].body.invitedDevice)
    requires if ClaimsInvite(e, i) then
               && v.status != Revoked && v.claimCount < v.maxClaims && w.claimCount == v.claimCount + 1
               && w.status == (if w.claimCount >= v.maxClaims then Accepted else v.status)
             else if e.body == InviteRevoked(i) then w.status == Revoked && w.claimCount == v.claimCount
             else if !LifecycleBody(e.body) && v.invitee == e.author && v.status == Invited then
               w.status == Accepted && w.claimCount == v.maxClaims
             else w.status == v.status && w.claimCount == v.claimCount
    ensures StandsAs(w, events + [e], k, i)
  {
    ExhaustedSnoc(events, e, k, i);
    SinceSnoc(events, e, k, Revoking(i));
    assert (events + [e])[k] == events[k];
  }

  lemma RecordedStands(events: seq<Event>, s: State, e: Event, k: nat, i: InviteId)
    requires k < |events| && events[k].body.InviteRecorded? && i in s.invites && !CreatesInvite(e, i) && Authorized(s, e)
    requires CreatedAs(s.invites[i], events[k]) && AddressedAs(s.invites[i], events, k, i) && StandsAs(s.invites[i], events, k, i)
    ensures i in Apply(s, e).invites && StandsAs(Apply(s, e).invites[i], events + [e], k, i)
  {
    StatusAfter(s, e, i);
    InviteAfter(s, e, i);
    if !Exhausted(events, k, i) {
      NamedUntilClaimed(s.invites[i], events, k, i);
    }
    RecordedStandsBy(events, s.invites[i], Apply(s, e).invites[i], e, k, i);
  }

  lemma CapabilityStands(events: seq<Event>, s: State, e: Event, k: nat, i: InviteId)
    requires k < |events| && events[k].body.InviteCapabilityCreated? && i in s.invites && !CreatesInvite(e, i) && Authorized(s, e)
    requires CreatedAs(s.invites[i], events[k]) && StandsAs(s.invites[i], events, k, i)
    ensures i in Apply(s, e).invites && StandsAs(Apply(s, e).invites[i], events + [e], k, i)
  {
    ExhaustedSnoc(events, e, k, i);
    ClaimsSinceSnoc(events, e, i);
    SinceSnoc(events, e, k, Revoking(i));
    assert (events + [e])[k] == events[k];
  }

  lemma InviteStep(events: seq<Event>, s: State, e: Event, i: InviteId)
    requires InviteOk(events, s, i) && Authorized(s, e)
    ensures InviteOk(events + [e], Apply(s, e), i)
  {
    if CreatesInvite(e, i) {
      CreationStep(events, s, e, i);
    } else {
      FindLastSnoc(events, e, Creating(i));
      if i in s.invites {
        KeptInviteStep(events, s, e, i);
      } else {
        NoInviteFromNothing(s, e, i);
      }
    }
  }

  lemma NoInviteFromNothing(s: State, e: Event, i: InviteId)
    requires i !in s.invites && !CreatesInvite(e, i)
    ensures i !in Apply(s, e).invites
  {
  }

  lemma KeptInviteStep(events: seq<Event>, s: State, e: Event, i: InviteId)
    requires InviteOk(events, s, i) && Authorized(s, e) && i in s.invites && !CreatesInvite(e, i)
    ensures InviteOk(events + [e], Apply(s, e), i)
  {
    var k := Creation(events, i).value;
    var v, w := s.invites[i], Apply(s, e).invites[i];
    FindLastSnoc(events, e, Creating(i));
    assert (events + [e])[k] == events[k];
    InviteAfter(s, e, i);
    AddressedSnoc(v, w, events, e, k, i);
    if events[k].body.InviteRecorded? {
      RecordedStands(events, s, e, k, i);
    } else {
      CapabilityStands(events, s, e, k, i);
    }
  }

  // ---------- join requests ----------

  function Asking(q: RequestId): Event -> bool {
    (e: Event) => e.body.JoinRequestRecorded? && e.body.requestId == q
  }

  function Resolving(q: RequestId): Event -> bool {
    (e: Event) => e.body.JoinRequestResolved? && e.body.requestId == q
  }

  /** An invitation of the requester, or an invite that answers the request. */
  predicate Answers(e: Event, q: RequestId, d: DeviceId) {
    match e.body
    case MemberInvited(x, _) => x == d
    case InviteRecorded(_, x, _, r) => x == d && r == Some(q)
    case InviteClaimed(_, x, r) => x == d && r == q
    case _ => false
  }

  function Answering(q: RequestId, d: DeviceId): Event -> bool {
    (e: Event) => Answers(e, q, d)
  }

  predicate AskedAs(v: Request, c: Event) {
    && c.body.JoinRequestRecorded? && v.requestedEvent == c.id && v.requestedBy == c.author
    && v.requester == c.body.requester && v.displayName == c.body.displayName && v.sourceType == c.body.sourceType
    && v.sourceInviteId == c.body.sourceInviteId && v.approvalPolicy == c.body.approvalPolicy
  }

  /** When it was recorded the requester was a member, or an invite had answered it. */
  ghost predicate AnsweredAtOnce(events: seq<Event>, k: nat, q: RequestId, d: DeviceId)
    requires k <= |events|
  {
    var s := Fold(Empty, events[..k]);
    d in s.members || AnsweredByInvite(s.invites, q, d)
  }

  ghost predicate RequestStands(v: Request, events: seq<Event>, k: nat, q: RequestId)
    requires k < |events| && Asking(q)(events[k])
  {
    var r := FindLast(events, Resolving(q));
    var d := events[k].body.requester;
    if r.Some? && r.value > k && events[r.value].body.JoinRequestResolved?
    then
      && v.status == (if events[r.value].body.approved then Approved else Declined)
      && v.resolvedEvent == Some(events[r.value].id) && v.resolvedBy == Some(events[r.value].author)
    else
      && v.status == (if AnsweredAtOnce(events, k, q, d) || Since(events, k, Answering(q, d)) then Approved else Waiting)
      && ResolvedBy(v, events, k, q, d)
  }

  ghost predicate FirstSince(events: seq<Event>, k: nat, p: Event -> bool, j: nat) {
    k < j < |events| && p(events[j]) && forall i :: k < i < j ==> !p(events[i])
  }

  /** Which event approved a request that nobody resolved by hand: the membership the requester had when
      it was recorded, else the first answer since; an invite that answered before is not named. */
  ghost predicate ResolvedBy(v: Request, events: seq<Event>, k: nat, q: RequestId, d: DeviceId)
    requires k < |events|
  {
    if AnsweredAtOnce(events, k, q, d) then
      v.resolvedBy == None && v.resolvedEvent == MembershipAt(events, k, d)
    else if Since(events, k, Answering(q, d)) then
      exists j: nat :: FirstSince(events, k, Answering(q, d), j)
                  && v.resolvedEvent == Some(events[j].id) && v.resolvedBy == Some(events[j].author)
    else v.resolvedEvent == None && v.resolvedBy == None
  }

  ghost function MembershipAt(events: seq<Event>, k: nat, d: DeviceId): Option<EventId>
    requires k <= |events|
  {
    var s := Fold(Empty, events[..k]);
    if d in s.members then Some(s.members[d].membershipEvent) else None
  }

  lemma ResolvedBySnoc(events: seq<Event>, e: Event, v: Request, w: Request, k: nat, q: RequestId, d: DeviceId)
    requires k < |events| && ResolvedBy(v, events, k, q, d)
    requires v.status == if AnsweredAtOnce(events, k, q, d) || Since(events, k, Answering(q, d)) then Approved else Waiting
    requires if Answers(e, q, d) && v.status == Waiting then w == Approve(v, e) else w == v
    ensures ResolvedBy(w, events + [e], k, q, d)
  {
    var all := events + [e];
    assert all[..k] == events[..k];
    SinceSnoc(events, e, k, Answering(q, d));
    if !AnsweredAtOnce(events, k, q, d) {
      if Since(events, k, Answering(q, d)) {
        var j: nat :| FirstSince(events, k, Answering(q, d), j)
                 && v.resolvedEvent == Some(events[j].id) && v.resolvedBy == Some(events[j].author);
        assert FirstSince(all, k, Answering(q, d), j);
      } else if Answers(e, q, d) {
        assert FirstSince(all, k, Answering(q, d), |events|);
      }
    }
  }

  ghost predicate RequestOk(events: seq<Event>, s: State, q: RequestId) {
    var k := FindLast(events, Asking(q));
    && (q in s.requests <==> k.Some?)
    && (k.Some? ==> AskedAs(s.requests[q], events[k.value]) && RequestStands(s.requests[q], events, k.value, q))
  }

  lemma MarkingKeepsAnswers(invites: map<InviteId, Invite>, e: Event, q: RequestId, d: DeviceId)
    ensures AnsweredByInvite(MarkAccepted(invites, e), q, d) <==> AnsweredByInvite(invites, q, d)
  {
    var marked := MarkAccepted(invites, e);
    assert forall i :: i in invites ==> marked[i].requestId == invites[i].requestId && marked[i].invitee == invites[i].invitee;
    if i :| i in invites && invites[i].requestId == Some(q) && invites[i].invitee == d {
      assert marked[i].requestId == Some(q);
    }
    if i :| i in marked && marked[i].requestId == Some(q) && marked[i].invitee == d {
      assert invites[i].requestId == Some(q);
    }
  }

  lemma AskingStep(events: seq<Event>, e: Event, q: RequestId)
    requires Asking(q)(e)
    ensures RequestOk(events + [e], Apply(Fold(Empty, events), e), q)
  {
    var all := events + [e];
    var s := Fold(Empty, events);
    var d := e.body.requester;
    FindLastSnoc(events, e, Asking(q));
    FindLastSnoc(events, e, Resolving(q));
    NothingSince(events, e, Answering(q, d));
    MarkingKeepsAnswers(s.invites, e, q, d);
    assert all[|events|] == e && all[..|events|] == events;
  }

  /** What one event makes of a request it does not record. */
  lemma RequestAfter(s: State, e: Event, q: RequestId)
    requires q in s.requests && !Asking(q)(e)
    ensures q in Apply(s, e).requests
    ensures var v, w := s.requests[q], Apply(s, e).requests[q];
            if Resolving(q)(e) then w == v.(status := if e.body.approved then Approved else Declined, resolvedEvent := Some(e.id), resolvedBy := Some(e.author))
            else if Answering(q, v.requester)(e) && v.status == Waiting then w == Approve(v, e)
            else w == v
  {
  }

  lemma RequestStandsSnoc(events: seq<Event>, e: Event, v: Request, w: Request, k: nat, q: RequestId)
    requires k < |events| && Asking(q)(events[k]) && AskedAs(v, events[k]) && RequestStands(v, events, k, q) && !Asking(q)(e)
    requires if Resolving(q)(e) then w == v.(status := if e.body.approved then Approved else Declined, resolvedEvent := Some(e.id), resolvedBy := Some(e.author))
             else if Answering(q, v.requester)(e) && v.status == Waiting then w == Approve(v, e)
             else w == v
    ensures Asking(q)((events + [e])[k]) && RequestStands(w, events + [e], k, q)
  {
    var all, d := events + [e], events[k].body.requester;
    assert all[k] == events[k] && all[..k] == events[..k];
    FindLastSnoc(events, e, Resolving(q));
    SinceSnoc(events, e, k, Answering(q, d));
    var r := FindLast(events, Resolving(q));
    if !Resolving(q)(e) && !(r.Some? && r.value > k) {
      ResolvedBySnoc(events, e, v, w, k, q, d);
    }
  }

  lemma RequestStep(events: seq<Event>, e: Event, q: RequestId)
    requires RequestOk(events, Fold(Empty, events), q)
    ensures RequestOk(events + [e], Apply(Fold(Empty, events), e), q)
  {
    var s := Fold(Empty, events);
    if Asking(q)(e) {
      AskingStep(events, e, q);
    } else {
      FindLastSnoc(events, e, Asking(q));
      if q in s.requests {
        RequestAfter(s, e, q);
        var k := FindLast(events, Asking(q)).value;
        assert (events + [e])[k] == events[k];
        RequestStandsSnoc(events, e, s.requests[q], Apply(s, e).requests[q], k, q);
      } else {
        NoRequestFromNothing(s, e, q);
      }
    }
  }

  lemma NoRequestFromNothing(s: State, e: Event, q: RequestId)
    requires q !in s.requests && !Asking(q)(e)
    ensures q !in Apply(s, e).requests
  {
  }

  // ---------- profiles, links and persons ----------

  function Profiling(d: DeviceId): Event -> bool {
    (e: Event) => e.body.DeviceProfileUpdated? && e.author == d
  }

  function ProfileSaid(events: seq<Event>, d: DeviceId): Option<string> {
    var k := FindLast(events, Profiling(d));
    if k.Some? && events[k.value].body.DeviceProfileUpdated? then Some(events[k.value].body.displayName) else None
  }

  /** A link of the device, or its removal. */
  function Linking(d: DeviceId): Event -> bool {
    (e: Event) => (e.body.PersonDeviceLinked? && e.body.device == d) || e.body == MemberRemoved(d)
  }

  function LinkSaid(events: seq<Event>, d: DeviceId): Option<PersonId> {
    var k := FindLast(events, Linking(d));
    if k.Some? && events[k.value].body.PersonDeviceLinked? then Some(events[k.value].body.person) else None
  }

  function Naming(p: PersonId): Event -> bool {
    (e: Event) => e.body.PersonProfileUpdated? && e.body.person == p
  }

  function PersonSaid(events: seq<Event>, p: PersonId): Option<string> {
    var k := FindLast(events, Naming(p));
    if k.Some? && events[k.value].body.PersonProfileUpdated? then Some(events[k.value].body.displayName) else None
  }

  ghost predicate IdentitiesOk(events: seq<Event>, s: State) {
    && (forall d :: ProfileSaid(events, d) == if d in s.profiles then Some(s.profiles[d]) else None)
    && (forall d :: LinkSaid(events, d) == if d in s.links then Some(s.links[d]) else None)
    && (forall p :: PersonSaid(events, p) == if p in s.persons then Some(s.persons[p]) else None)
  }

  lemma ProfilesStep(events: seq<Event>, s: State, e: Event, d: DeviceId)
    requires ProfileSaid(events, d) == if d in s.profiles then Some(s.profiles[d]) else None
    ensures ProfileSaid(events + [e], d) == if d in Apply(s, e).profiles then Some(Apply(s, e).profiles[d]) else None
  {
    FindLastSnoc(events, e, Profiling(d));
  }

  lemma LinksStep(events: seq<Event>, s: State, e: Event, d: DeviceId)
    requires LinkSaid(events, d) == if d in s.links then Some(s.links[d]) else None
    ensures LinkSaid(events + [e], d) == if d in Apply(s, e).links then Some(Apply(s, e).links[d]) else None
  {
    FindLastSnoc(events, e, Linking(d));
  }

  lemma PersonsStep(events: seq<Event>, s: State, e: Event, p: PersonId)
    requires PersonSaid(events, p) == if p in s.persons then Some(s.persons[p]) else None
    ensures PersonSaid(events + [e], p) == if p in Apply(s, e).persons then Some(Apply(s, e).persons[p]) else None
  {
    FindLastSnoc(events, e, Naming(p));
  }

  lemma IdentitiesStep(events: seq<Event>, s: State, e: Event)
    requires IdentitiesOk(events, s)
    ensures IdentitiesOk(events + [e], Apply(s, e))
  {
    var t := Apply(s, e);
    forall d ensures ProfileSaid(events + [e], d) == if d in t.profiles then Some(t.profiles[d]) else None {
      ProfilesStep(events, s, e, d);
    }
    forall d ensures LinkSaid(events + [e], d) == if d in t.links then Some(t.links[d]) else None {
      LinksStep(events, s, e, d);
    }
    forall p ensures PersonSaid(events + [e], p) == if p in t.persons then Some(t.persons[p]) else None {
      PersonsStep(events, s, e, p);
    }
  }

  // ---------- the whole state ----------

  ghost predicate Says(events: seq<Event>, s: State) {
    && MembersOk(events, s) && RootOk(events, s) && IdentitiesOk(events, s)
    && (forall i :: InviteOk(events, s, i)) && (forall q :: RequestOk(events, s, q))
  }

  lemma NothingSays()
    ensures Says([], Empty)
  {
  }

  lemma SaysStep(events: seq<Event>, e: Event)
    requires Says(events, Fold(Empty, events)) && Authorized(Fold(Empty, events), e)
    ensures Says(events + [e], Apply(Fold(Empty, events), e))
  {
    var s := Fold(Empty, events);
    MembersStep(events, s, e);
    RootStep(events, s, e);
    IdentitiesStep(events, s, e);
    forall i ensures InviteOk(events + [e], Apply(s, e), i) {
      InviteStep(events, s, e, i);
    }
    forall q ensures RequestOk(events + [e], Apply(s, e), q) {
      RequestStep(events, e, q);
    }
  }

  lemma TakeOneMore(events: seq<Event>, k: nat)
    requires k < |events|
    ensures events[..k + 1] == events[..k] + [events[k]]
    ensures Fold(Empty, events[..k + 1]) == Apply(Fold(Empty, events[..k]), events[k])
  {
    assert events[..k + 1] == events[..k] + [events[k]];
    FoldSnoc(Empty, events[..k], events[k]);
  }

  lemma LinearUpTo(events: seq<Event>, k: nat)
    requires Linear(events) && k < |events|
    ensures Authorized(Fold(Empty, events[..k]), events[k])
  {
    assert Applicable(Folded(events[..k]), events[k]);
  }

  lemma {:induction false} SaysUpTo(events: seq<Event>, n: nat)
    requires Linear(events) && n <= |events|
    ensures Says(events[..n], Fold(Empty, events[..n]))
  {
    if n == 0 {
      NothingSays();
    } else {
      SaysUpTo(events, n - 1);
      LinearUpTo(events, n - 1);
      TakeOneMore(events, n - 1);
      SaysStep(events[..n - 1], events[n - 1]);
    }
  }

  /** On any stored history, every component of the materialized state is what the last applied event
      about it said. */
  lemma StateMeans(log: seq<Event>)
    ensures Says(Materialize(log).events, Materialize(log).state)
  {
    Materialized(log);
    var events := Materialize(log).events;
    SaysUpTo(events, |events|);
    assert events[..|events|] == events;
  }

  // ---------- authorization by the events before ----------

  predicate AdminSaid(events: seq<Event>, d: DeviceId) {
    var r := RoleSaid(events, d);
    r == Some(Owner) || r == Some(Admin)
  }

  /** Admins hand out ordinary roles, owners all. */
  predicate MayHandOut(events: seq<Event>, d: DeviceId, r: Role) {
    AdminSaid(events, d) && (r == Owner || r == Admin ==> RoleSaid(events, d) == Some(Owner))
  }

  /** Somebody else than the founder, of a role the author may decide on. */
  predicate MayDecideOn(events: seq<Event>, author: DeviceId, d: DeviceId) {
    && RoleSaid(events, d).Some? && events != [] && events[0].author != d
    && MayHandOut(events, author, RoleSaid(events, d).value)
  }

  /** Is the event allowed after these? */
  ghost predicate Allowed(events: seq<Event>, e: Event) {
    match e.body
    case WorkspaceCreated => events == []
    case MemberInvited(_, r) => MayHandOut(events, e.author, r)
    case MemberRoleUpdated(d, r) => MayDecideOn(events, e.author, d) && MayHandOut(events, e.author, r)
    case MemberRemoved(d) => MayDecideOn(events, e.author, d)
    case InviteRecorded(_, _, r, _) => MayHandOut(events, e.author, r)
    case InviteCapabilityCreated(_, r, _, k, _) => MayHandOut(events, e.author, r) && k != ""
    case InviteClaimed(i, _, _) =>
      var k := Creation(events, i);
      AdminSaid(events, e.author) && k.Some? && !RevokedSince(events, k.value, i) && !Exhausted(events, k.value, i)
    case InviteRevoked(i) => AdminSaid(events, e.author) && Creation(events, i).Some?
    case JoinRequestRecorded(_, _, _, _, _, _) => AdminSaid(events, e.author)
    case JoinRequestResolved(q, _) => AdminSaid(events, e.author) && FindLast(events, Asking(q)).Some?
    case PersonDeviceLinked(p, d) =>
      && RoleSaid(events, e.author).Some? && d == e.author
      && (LinkSaid(events, d) == Some(p) || (LinkSaid(events, d) == None && forall x :: LinkSaid(events, x) != Some(p)))
    case PersonProfileUpdated(p, _) => RoleSaid(events, e.author).Some? && LinkSaid(events, e.author) == Some(p)
    case _ => RoleSaid(events, e.author).Some?
  }

  lemma RolesMean(events: seq<Event>, s: State, d: DeviceId)
    requires MembersOk(events, s) && RootOk(events, s)
    ensures IsMember(s, d) <==> RoleSaid(events, d).Some?
    ensures d in s.members ==> RoleSaid(events, d) == Some(s.members[d].role)
    ensures IsAdmin(s, d) <==> AdminSaid(events, d)
    ensures forall r :: MayGrant(s, d, r) <==> MayHandOut(events, d, r)
  {
    assert MemberSaid(events, d) == if d in s.members then Some(s.members[d]) else None;
  }

  lemma MembershipEventsMean(events: seq<Event>, s: State, e: Event)
    requires MembersOk(events, s) && RootOk(events, s)
    requires e.body.WorkspaceCreated? || e.body.MemberInvited? || e.body.MemberRoleUpdated? || e.body.MemberRemoved?
    ensures Authorized(s, e) <==> Allowed(events, e)
  {
    RolesMean(events, s, e.author);
    if e.body.MemberRoleUpdated? {
      RolesMean(events, s, e.body.member);
    }
    if e.body.MemberRemoved? {
      RolesMean(events, s, e.body.removed);
    }
  }

  lemma ClaimEventsMean(events: seq<Event>, s: State, e: Event)
    requires MembersOk(events, s) && RootOk(events, s) && e.body.InviteClaimed? && InviteOk(events, s, e.body.inviteId)
    ensures Authorized(s, e) <==> Allowed(events, e)
  {
    RolesMean(events, s, e.author);
  }

  lemma InviteEventsMean(events: seq<Event>, s: State, e: Event)
    requires MembersOk(events, s) && RootOk(events, s)
    requires e.body.InviteRecorded? || e.body.InviteCapabilityCreated? || (e.body.InviteRevoked? && InviteOk(events, s, e.body.inviteId))
    ensures Authorized(s, e) <==> Allowed(events, e)
  {
    RolesMean(events, s, e.author);
  }

  lemma RequestEventsMean(events: seq<Event>, s: State, e: Event)
    requires MembersOk(events, s) && RootOk(events, s)
    requires e.body.JoinRequestRecorded? || (e.body.JoinRequestResolved? && RequestOk(events, s, e.body.requestId))
    ensures Authorized(s, e) <==> Allowed(events, e)
  {
    RolesMean(events, s, e.author);
  }

  lemma LinkSaidIs(events: seq<Event>, s: State, d: DeviceId)
    requires IdentitiesOk(events, s)
    ensures LinkSaid(events, d) == if d in s.links then Some(s.links[d]) else None
  {
  }

  lemma LinkAllowed(events: seq<Event>, s: State, e: Event)
    requires e.body.PersonDeviceLinked? && (IsMember(s, e.author) <==> RoleSaid(events, e.author).Some?)
    requires LinkSaid(events, e.author) == if e.author in s.links then Some(s.links[e.author]) else None
    requires e.body.person !in s.links.Values <==> forall x :: LinkSaid(events, x) != Some(e.body.person)
    ensures Authorized(s, e) <==> Allowed(events, e)
  {
  }

  lemma NameAllowed(events: seq<Event>, s: State, e: Event)
    requires e.body.PersonProfileUpdated? && (IsMember(s, e.author) <==> RoleSaid(events, e.author).Some?)
    requires LinkSaid(events, e.author) == if e.author in s.links then Some(s.links[e.author]) else None
    ensures Authorized(s, e) <==> Allowed(events, e)
  {
  }

  lemma LinkEventsMean(events: seq<Event>, s: State, e: Event)
    requires MembersOk(events, s) && RootOk(events, s) && IdentitiesOk(events, s)
    requires e.body.PersonDeviceLinked? || e.body.PersonProfileUpdated?
    ensures Authorized(s, e) <==> Allowed(events, e)
  {
    RolesMean(events, s, e.author);
    LinkSaidIs(events, s, e.author);
    if e.body.PersonDeviceLinked? {
      LinkedPersons(events, s, e.body.person);
      LinkAllowed(events, s, e);
    } else {
      NameAllowed(events, s, e);
    }
  }

  lemma LinkedPersons(events: seq<Event>, s: State, p: PersonId)
    requires IdentitiesOk(events, s)
    ensures p !in s.links.Values <==> forall x :: LinkSaid(events, x) != Some(p)
  {
    if p in s.links.Values {
      var x :| x in s.links && s.links[x] == p;
      assert LinkSaid(events, x) == Some(p);
    } else {
      forall x ensures LinkSaid(events, x) != Some(p) {
        assert LinkSaid(events, x) == if x in s.links then Some(s.links[x]) else None;
      }
    }
  }

  lemma SaidAuthorizes(events: seq<Event>, s: State, e: Event)
    requires Says(events, s)
    ensures Authorized(s, e) <==> Allowed(events, e)
  {
    match e.body
    case WorkspaceCreated => MembershipEventsMean(events, s, e);
    case MemberInvited(_, _) => MembershipEventsMean(events, s, e);
    case MemberRoleUpdated(_, _) => MembershipEventsMean(events, s, e);
    case MemberRemoved(_) => MembershipEventsMean(events, s, e);
    case InviteRecorded(_, _, _, _) => InviteEventsMean(events, s, e);
    case InviteCapabilityCreated(_, _, _, _, _) => InviteEventsMean(events, s, e);
    case InviteClaimed(i, _, _) => ClaimEventsMean(events, s, e);
    case InviteRevoked(i) => InviteEventsMean(events, s, e);
    case JoinRequestRecorded(_, _, _, _, _, _) => RequestEventsMean(events, s, e);
    case JoinRequestResolved(q, _) => RequestEventsMean(events, s, e);
    case PersonDeviceLinked(_, _) => LinkEventsMean(events, s, e);
    case PersonProfileUpdated(_, _) => LinkEventsMean(events, s, e);
    case _ => RolesMean(events, s, e.author);
  }

  /** An event is authorized on a materialized history exactly when the applied events allow it. */
  lemma AuthorizedExactly(log: seq<Event>, e: Event)
    ensures Authorized(Materialize(log).state, e) <==> Allowed(Materialize(log).events, e)
  {
    StateMeans(log);
    SaidAuthorizes(Materialize(log).events, Materialize(log).state, e);
  }

  /** Every applied event was allowed by the events applied before it. */
  lemma AppliedWasAllowed(log: seq<Event>, k: nat)
    requires k < |Materialize(log).events|
    ensures Allowed(Materialize(log).events[..k], Materialize(log).events[k])
  {
    Materialized(log);
    var events := Materialize(log).events;
    SaysUpTo(events, k);
    LinearUpTo(events, k);
    SaidAuthorizes(events[..k], Fold(Empty, events[..k]), events[k]);
  }

  // ---------- what a revocation, a removal and a demotion end ----------

  /** Nothing behind position `k` is like this. */
  ghost predicate NeverSince(events: seq<Event>, k: nat, p: Event -> bool) {
    forall j :: k < j < |events| ==> !p(events[j])
  }

  lemma {:induction false} LastStays(events: seq<Event>, k: nat, j: nat, p: Event -> bool)
    requires k < j <= |events| && p(events[k]) && NeverSince(events, k, p)
    ensures FindLast(events[..j], p) == Some(k)
  {
    var s := events[..j];
    forall i | k < i < |s| ensures !p(s[i]) {
      assert s[i] == events[i];
    }
    FindLastAt(s, p, k);
  }

  /** After an applied revocation no claim of the invite is applied, unless it is created again. */
  lemma RevocationEndsClaims(log: seq<Event>, k: nat, j: nat, i: InviteId)
    requires var events := Materialize(log).events;
             k < j < |events| && events[k].body == InviteRevoked(i) && NeverSince(events, k, Creating(i))
    ensures !ClaimsInvite(Materialize(log).events[j], i)
  {
    var events := Materialize(log).events;
    AppliedWasAllowed(log, j);
    AppliedWasAllowed(log, k);
    RevocationIsSeen(events, k, j, i);
  }

  lemma RevocationIsSeen(events: seq<Event>, k: nat, j: nat, i: InviteId)
    requires k < j <= |events| && events[k].body == InviteRevoked(i) && NeverSince(events, k, Creating(i))
    ensures var c := Creation(events[..j], i); c.Some? ==> RevokedSince(events[..j], c.value, i)
  {
    var s := events[..j];
    var c := Creation(s, i);
    if c.Some? {
      assert s[c.value] == events[c.value] && c.value <= k;
      assert c.value != k;
      assert Revoking(i)(s[k]);
    }
  }

  /** A removed device authors nothing that is applied, unless it is let in again. */
  lemma RemovalEndsAuthority(log: seq<Event>, k: nat, j: nat, d: DeviceId)
    requires var events := Materialize(log).events;
             k < j < |events| && events[k].body == MemberRemoved(d) && NeverSince(events, k, Touching(d))
    ensures Materialize(log).events[j].author != d
  {
    var events := Materialize(log).events;
    AppliedWasAllowed(log, j);
    LastStays(events, k, j, Touching(d));
    assert RoleSaid(events[..j], d) == None;
  }

  /** What only admins do. */
  predicate Administers(b: Body) {
    || b.MemberInvited? || b.MemberRoleUpdated? || b.MemberRemoved? || b.InviteRecorded? || b.InviteCapabilityCreated?
    || b.InviteClaimed? || b.InviteRevoked? || b.JoinRequestRecorded? || b.JoinRequestResolved?
  }

  /** A device whose last applied membership gives an ordinary role administers nothing. */
  lemma DemotionEndsAuthority(log: seq<Event>, k: nat, j: nat, d: DeviceId, r: Role)
    requires var events := Materialize(log).events;
             k < j < |events| && NeverSince(events, k, Touching(d)) && r != Owner && r != Admin
             && (events[k].body == MemberInvited(d, r) || events[k].body == MemberRoleUpdated(d, r))
    ensures Materialize(log).events[j].author == d ==> !Administers(Materialize(log).events[j].body)
  {
    var events := Materialize(log).events;
    AppliedWasAllowed(log, j);
    LastStays(events, k, j, Touching(d));
    assert RoleSaid(events[..j], d) == Some(r);
  }
}
