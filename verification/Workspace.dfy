/** Materialized workspace state: who may write what, and what each event changes. */
module Workspace {
  import opened Events

  datatype Member = Member(role: Role, membershipEvent: EventId)

  datatype InviteStatus = Invited | Accepted | Revoked

  datatype Invite = Invite(
    role: Role,
    expiresAt: string,
    capabilityKey: string,
    maxClaims: nat,
    claimCount: nat,
    status: InviteStatus,
    createdEvent: EventId,
    createdBy: DeviceId,
    invitee: DeviceId,
    requestId: Option<RequestId>)

  datatype RequestStatus = Waiting | Approved | Declined

  datatype Request = Request(
    requestedEvent: EventId,
    requestedBy: DeviceId,
    requester: DeviceId,
    displayName: string,
    sourceType: string,
    sourceInviteId: InviteId,
    approvalPolicy: string,
    status: RequestStatus,
    resolvedEvent: Option<EventId>,
    resolvedBy: Option<DeviceId>)

  datatype State = State(
    root: Option<DeviceId>,
    members: map<DeviceId, Member>,
    invites: map<InviteId, Invite>,
    requests: map<RequestId, Request>,
    profiles: map<DeviceId, string>,
    links: map<DeviceId, PersonId>,
    persons: map<PersonId, string>)

  const Empty := State(None, map[], map[], map[], map[], map[], map[])

  // ---------- authorization ----------

  predicate IsMember(s: State, d: DeviceId) {
    s.root.Some? && d in s.members
  }

  predicate IsAdmin(s: State, d: DeviceId) {
    IsMember(s, d) && (s.members[d].role == Owner || s.members[d].role == Admin)
  }

  predicate Privileged(r: Role) {
    r == Owner || r == Admin
  }

  /** May `d` hand out `r`? Owners may hand out any role, admins only the ordinary ones. */
  predicate MayGrant(s: State, d: DeviceId, r: Role) {
    IsAdmin(s, d) && (Privileged(r) ==> s.members[d].role == Owner)
  }

  predicate Authorized(s: State, e: Event) {
    match e.body
    case WorkspaceCreated => s.root.None?
    case MemberInvited(_, r) => MayGrant(s, e.author, r)
    case MemberRoleUpdated(m, r) =>
      && IsMember(s, m) && s.root != Some(m) && IsAdmin(s, e.author)
      && (Privileged(r) || Privileged(s.members[m].role) ==> s.members[e.author].role == Owner)
    case MemberRemoved(m) =>
      && IsMember(s, m) && s.root != Some(m) && IsAdmin(s, e.author)
      && (Privileged(s.members[m].role) ==> s.members[e.author].role == Owner)
    case InviteRecorded(_, _, r, _) => MayGrant(s, e.author, r)
    case InviteCapabilityCreated(_, r, _, k, _) => MayGrant(s, e.author, r) && k != ""
    case InviteClaimed(i, _, _) =>
      && IsAdmin(s, e.author) && i in s.invites
      && s.invites[i].status != Revoked && s.invites[i].claimCount < s.invites[i].maxClaims
    case InviteRevoked(i) => IsAdmin(s, e.author) && i in s.invites
    case JoinRequestRecorded(_, _, _, _, _, _) => IsAdmin(s, e.author)
    case JoinRequestResolved(r, _) => IsAdmin(s, e.author) && r in s.requests
    case PersonDeviceLinked(p, d) =>
      && IsMember(s, e.author) && d == e.author
      && (d in s.links ==> s.links[d] == p)
      && (d !in s.links ==> p !in s.links.Values)
    case PersonProfileUpdated(p, _) =>
      IsMember(s, e.author) && e.author in s.links && s.links[e.author] == p
    case _ => IsMember(s, e.author)
  }

  // ---------- application ----------

  function EffectiveMaxClaims(m: Option<nat>): (n: nat)
    ensures n >= 1
  {
    if m.Some? && m.value > 0 then m.value else 1
  }

  predicate LifecycleBody(b: Body) {
    b.InviteRecorded? || b.InviteCapabilityCreated? || b.InviteClaimed? || b.InviteRevoked?
  }

  /** A device invited by name accepts by authoring anything; capability invites are not touched. */
  function MarkAccepted(invites: map<InviteId, Invite>, e: Event): (r: map<InviteId, Invite>)
    ensures r.Keys == invites.Keys
    ensures forall i :: i in invites && invites[i].capabilityKey != "" ==> r[i] == invites[i]
  {
    if LifecycleBody(e.body) then invites
    else
      map i | i in invites ::
        var v := invites[i];
        if v.invitee == e.author && v.status == Invited && v.capabilityKey == ""
        then v.(status := Accepted, claimCount := v.maxClaims) else v
  }

  function Approve(q: Request, cause: Event): Request {
    q.(status := Approved, resolvedEvent := Some(cause.id), resolvedBy := Some(cause.author))
  }

  /** Requests of a device that becomes a member are approved by the membership event. */
  function ApproveWaiting(requests: map<RequestId, Request>, d: DeviceId, cause: Event): map<RequestId, Request> {
    map q | q in requests ::
      if requests[q].requester == d && requests[q].status == Waiting
      then Approve(requests[q], cause) else requests[q]
  }

  function ApproveOne(requests: map<RequestId, Request>, q: RequestId, d: DeviceId, cause: Event)
    : map<RequestId, Request>
  {
    if q in requests && requests[q].requester == d && requests[q].status == Waiting
    then requests[q := Approve(requests[q], cause)] else requests
  }

  /** The invite that already answered request `q` of device `d`, if there is one. */
  predicate AnsweredByInvite(invites: map<InviteId, Invite>, q: RequestId, d: DeviceId) {
    exists i :: i in invites && invites[i].requestId == Some(q) && invites[i].invitee == d
  }

  function ClaimOn(v: Invite, e: Event): Invite
    requires e.body.InviteClaimed?
  {
    var n := v.claimCount + 1;
    v.(claimCount := n, invitee := e.body.claimant, requestId := Some(e.body.requestId),
       status := if n >= v.maxClaims then Accepted else v.status)
  }

  function NextMembers(members: map<DeviceId, Member>, e: Event): map<DeviceId, Member> {
    match e.body
    case WorkspaceCreated => members[e.author := Member(Owner, e.id)]
    case MemberInvited(d, r) => members[d := Member(r, e.id)]
    case MemberRoleUpdated(d, r) => if d in members then members[d := Member(r, e.id)] else members
    case MemberRemoved(d) => members - {d}
    case _ => members
  }

  function NextInvites(before: map<InviteId, Invite>, e: Event): map<InviteId, Invite> {
    var invites := MarkAccepted(before, e);
    match e.body
    case InviteRecorded(i, d, r, q) =>
      invites[i := Invite(r, "", "", 1, 0, Invited, e.id, e.author, d, q)]
    case InviteCapabilityCreated(i, r, x, k, m) =>
      invites[i := Invite(r, x, k, EffectiveMaxClaims(m), 0, Invited, e.id, e.author, "", None)]
    case InviteClaimed(i, _, _) => if i in invites then invites[i := ClaimOn(invites[i], e)] else invites
    case InviteRevoked(i) => if i in invites then invites[i := invites[i].(status := Revoked)] else invites
    case _ => invites
  }

  function NextRequests(s: State, e: Event): map<RequestId, Request> {
    match e.body
    case MemberInvited(d, _) => ApproveWaiting(s.requests, d, e)
    case InviteRecorded(_, d, _, q) => if q.Some? then ApproveOne(s.requests, q.value, d, e) else s.requests
    case InviteClaimed(_, d, q) => ApproveOne(s.requests, q, d, e)
    case JoinRequestRecorded(q, d, name, source, i, policy) =>
      var answered := d in s.members || AnsweredByInvite(s.invites, q, d);
      s.requests[q := Request(e.id, e.author, d, name, source, i, policy,
                             if answered then Approved else Waiting,
                             if d in s.members then Some(s.members[d].membershipEvent) else None,
                             None)]
    case JoinRequestResolved(q, ok) =>
      if q in s.requests
      then s.requests[q := s.requests[q].(status := if ok then Approved else Declined,
                                          resolvedEvent := Some(e.id), resolvedBy := Some(e.author))]
      else s.requests
    case _ => s.requests
  }

  function NextLinks(links: map<DeviceId, PersonId>, e: Event): map<DeviceId, PersonId> {
    match e.body
    case MemberRemoved(d) => links - {d}
    case PersonDeviceLinked(p, d) => links[d := p]
    case _ => links
  }

  function Apply(s: State, e: Event): State {
    State(
      if e.body.WorkspaceCreated? then Some(e.author) else s.root,
      NextMembers(s.members, e),
      NextInvites(s.invites, e),
      NextRequests(s.(invites := MarkAccepted(s.invites, e)), e),
      if e.body.DeviceProfileUpdated? then s.profiles[e.author := e.body.displayName] else s.profiles,
      NextLinks(s.links, e),
      if e.body.PersonProfileUpdated? then s.persons[e.body.person := e.body.displayName] else s.persons)
  }
}
