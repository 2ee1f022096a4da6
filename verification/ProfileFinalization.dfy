/** The joiner's side of an accepted invite: recording the intent to publish a profile, importing
    the workspace key, and publishing the profile once the membership history has arrived.

    Every durable write is one step. A crash may come between any two steps: files and events
    survive, everything else is forgotten. Events of other devices arrive at any time. Marking and
    finalizing exclude each other; importing the key is outside that section.
 */
module ProfileFinalization {
  import opened Events
  import opened Workspace
  import opened Materialization
  import InviteClaims
  import opened InviteReplay
  import opened CanonicalClaim
  import opened ProfileIdentity

  datatype Coordinates = Coordinates(inviteId: InviteId, requestId: RequestId)

  datatype Stored = Stored(receipt: Receipt, pending: bool, finalized: bool)

  // ---------- which claim is active ----------

  function WithId(id: EventId): Event -> bool { (e: Event) => e.id == id }

  /** The claim behind the local device's current membership event, if a claim granted it. */
  function ActiveCoordinates(ctx: Context, local: DeviceId): Option<Coordinates> {
    if local !in ctx.state.members then None
    else
      var m := FindFirst(ctx.events, WithId(ctx.state.members[local].membershipEvent));
      if m.None? then None
      else
        var member := ctx.events[m.value];
        if !member.body.MemberInvited? || member.body.invitee != local || |member.parents| != 1 then None
        else
          var q := FindFirst(ctx.events, WithId(member.parents[0]));
          if q.None? then None
          else
            var request := ctx.events[q.value].body;
            if request.JoinRequestRecorded? && request.requester == local && request.sourceType == "invite_claim"
               && request.sourceInviteId != "" && request.requestId != ""
            then Some(Coordinates(request.sourceInviteId, request.requestId)) else None
  }

  /** The unfinalized claim to publish a profile for, with the name it carries. */
  function ActiveClaim(ctx: Context, local: DeviceId, receipts: map<Coordinates, Stored>)
    : Option<(Coordinates, string)>
  {
    var at := ActiveCoordinates(ctx, local);
    if at.None? || at.value !in receipts || receipts[at.value].finalized then None
    else
      var verdict := CanonicalInviteClaim(local, receipts[at.value].receipt, ctx.events, ctx.state.requests);
      if verdict.Canonical? && verdict.memberEvent == ctx.state.members[local].membershipEvent
      then Some((at.value, verdict.displayName)) else None
  }

  /** The membership of `local` in this context is the one that the claim of `r` was answered with. */
  ghost predicate GrantedBy(ctx: Context, local: DeviceId, r: Receipt) {
    && IsMember(ctx.state, local)
    && var verdict := CanonicalInviteClaim(local, r, ctx.events, ctx.state.requests);
       verdict.Canonical? && verdict.memberEvent == ctx.state.members[local].membershipEvent
  }

  /** The device's current membership was granted by an event naming one parent: a request of the
      device for this very invite under this very request id. */
  ghost predicate LeadsBack(ctx: Context, local: DeviceId, at: Coordinates) {
    && local in ctx.state.members && at.inviteId != "" && at.requestId != ""
    && exists i: nat, j: nat ::
         && i < |ctx.events| && j < |ctx.events|
         && ctx.events[i].id == ctx.state.members[local].membershipEvent
         && ctx.events[i].parents == [ctx.events[j].id]
         && InvitesDevice(ctx.events[i].body, local) && RequestsInvite(ctx.events[j].body, local, at)
  }

  predicate InvitesDevice(b: Body, local: DeviceId) {
    b.MemberInvited? && b.invitee == local
  }

  predicate RequestsInvite(b: Body, local: DeviceId, at: Coordinates) {
    && b.JoinRequestRecorded? && b.requester == local && b.sourceType == "invite_claim"
    && b.sourceInviteId == at.inviteId && b.requestId == at.requestId
  }

  lemma CoordinatesExactly(ctx: Context, local: DeviceId, at: Coordinates)
    requires DistinctIds(ctx.events)
    ensures ActiveCoordinates(ctx, local) == Some(at) <==> LeadsBack(ctx, local, at)
  {
    if LeadsBack(ctx, local, at) {
      var i: nat, j: nat :|
        && i < |ctx.events| && j < |ctx.events|
        && ctx.events[i].id == ctx.state.members[local].membershipEvent
        && ctx.events[i].parents == [ctx.events[j].id]
        && InvitesDevice(ctx.events[i].body, local) && RequestsInvite(ctx.events[j].body, local, at);
      FirstWithId(ctx.events, i);
      FirstWithId(ctx.events, j);
    }
  }

  /** Four sole events confirm the receipt; the member event is the one of the current membership. */
  ghost predicate MembershipConfirmed(ctx: Context, local: DeviceId, r: Receipt, name: string)
    requires local in ctx.state.members
  {
    exists capability: Event, request: Event, member: Event, claim: Event ::
      && member.id == ctx.state.members[local].membershipEvent
      && Confirms(local, r, ctx.events, ctx.state.requests, capability, request, member, claim, name)
  }

  lemma ConfirmedExactly(ctx: Context, local: DeviceId, r: Receipt, name: string)
    requires local in ctx.state.members
    ensures MembershipConfirmed(ctx, local, r, name) <==>
            CanonicalInviteClaim(local, r, ctx.events, ctx.state.requests) == Canonical(name, ctx.state.members[local].membershipEvent)
  {
    CanonicalExactly(local, r, ctx.events, ctx.state.requests, name, ctx.state.members[local].membershipEvent);
  }

  lemma ActiveParts(ctx: Context, local: DeviceId, receipts: map<Coordinates, Stored>, at: Coordinates, name: string)
    ensures ActiveClaim(ctx, local, receipts) == Some((at, name)) <==>
            && ActiveCoordinates(ctx, local) == Some(at) && at in receipts && !receipts[at].finalized
            && CanonicalInviteClaim(local, receipts[at].receipt, ctx.events, ctx.state.requests)
               == Canonical(name, ctx.state.members[local].membershipEvent)
  {
  }

  lemma ActiveInContext(ctx: Context, local: DeviceId, receipts: map<Coordinates, Stored>, at: Coordinates, name: string)
    requires DistinctIds(ctx.events)
    ensures ActiveClaim(ctx, local, receipts) == Some((at, name)) <==>
            && LeadsBack(ctx, local, at) && at in receipts && !receipts[at].finalized
            && MembershipConfirmed(ctx, local, receipts[at].receipt, name)
  {
    ActiveParts(ctx, local, receipts, at, name);
    CoordinatesExactly(ctx, local, at);
    if LeadsBack(ctx, local, at) && at in receipts {
      ConfirmedExactly(ctx, local, receipts[at].receipt, name);
    }
  }

  /** What the claim must be for its receipt to be the one that is finalized, written out: the membership
      leads back to it, its receipt is there and not finalized, and the history confirms the receipt. */
  lemma ActiveExactly(log: seq<Event>, local: DeviceId, receipts: map<Coordinates, Stored>, at: Coordinates, name: string)
    ensures var ctx := Materialize(log);
            ActiveClaim(ctx, local, receipts) == Some((at, name)) <==>
            && LeadsBack(ctx, local, at) && at in receipts && !receipts[at].finalized
            && MembershipConfirmed(ctx, local, receipts[at].receipt, name)
  {
    MaterializedInBrief(log);
    ActiveInContext(Materialize(log), local, receipts, at, name);
  }

  // ---------- an accepted claim in later histories ----------

  lemma FirstWithId(events: seq<Event>, k: nat)
    requires DistinctIds(events) && k < |events|
    ensures FindFirst(events, WithId(events[k].id)) == Some(k)
  {
    FindFirstAt(events, WithId(events[k].id), k);
  }

  /** While the membership is the triple's own, it leads back to the claim. */
  lemma CoordinatesOfTriple(ctx: Context, before: Context, t: seq<Event>, c: InviteClaims.Claim, responder: DeviceId,
                            role: Role, minted: InviteClaims.Minted)
    requires Continues(ctx, before, t) && t == InviteClaims.Triple(before, c, responder, role, minted)
    requires c.inviteId != "" && c.requestId != "" && CurrentIn(ctx.state, c.device, minted.member)
    ensures ActiveCoordinates(ctx, c.device) == Some(Coordinates(c.inviteId, c.requestId))
  {
    var n := |before.events|;
    StateAtTriple(ctx, before, t);
    FirstWithId(ctx.events, n + 1);
    FirstWithId(ctx.events, n);
  }

  /** The claim is the active one exactly while it is current, canonical and not finalized. */
  lemma ActiveMeans(ctx: Context, local: DeviceId, receipts: map<Coordinates, Stored>, at: Coordinates, member: EventId,
                    name: string)
    requires at in receipts && !receipts[at].finalized
    requires CurrentIn(ctx.state, local, member) ==> ActiveCoordinates(ctx, local) == Some(at)
    requires CanonicalInviteClaim(local, receipts[at].receipt, ctx.events, ctx.state.requests) in
               {NotCanonical, Canonical(name, member)}
    ensures var active := ActiveClaim(ctx, local, receipts);
            var yes := CurrentIn(ctx.state, local, member)
                       && CanonicalInviteClaim(local, receipts[at].receipt, ctx.events, ctx.state.requests).Canonical?;
            ((active.Some? && active.value.0 == at) <==> yes) && (yes ==> active == Some((at, name)))
  {
  }

  /** End to end, in every later history. The responder accepted the claim on a history in which no
      row had to wait, and the joiner holds its unfinalized receipt. The claim is the joiner's active
      one, under the name it claimed, if and only if no later applied event is about its membership,
      no invite had answered the request before, and no later applied event repeats a part of the
      claim or resolves its request by hand. */
  lemma AcceptedClaimActiveExactly(log: seq<Event>, c: InviteClaims.Claim, responder: DeviceId, expiry: InviteClaims.Expiry,
                                   role: Role, minted: InviteClaims.Minted, r: Receipt,
                                   receipts: map<Coordinates, Stored>, more: seq<Event>)
    requires InviteClaims.AcceptedOn(log, c, responder, expiry, role, minted) && ReceiptOf(r, c, responder) && InOrder(log)
    requires OneCapability(Materialize(log).events, r) && c.inviteId != "" && c.requestId != ""
    requires Coordinates(c.inviteId, c.requestId) in receipts
    requires receipts[Coordinates(c.inviteId, c.requestId)].receipt == r
    requires !receipts[Coordinates(c.inviteId, c.requestId)].finalized
    ensures var before := Materialize(log);
            var t := InviteClaims.Triple(before, c, responder, role, minted);
            var ctx := Materialize(InviteClaims.WithTriple(log, c, responder, role, minted) + more);
            var n := |before.events| + 3;
            var active := ActiveClaim(ctx, c.device, receipts);
            && n <= |ctx.events|
            && var yes := && Untouched(ctx.events, n, |ctx.events|, c.device) && !WasAnswered(before, c, t)
                          && Undisturbed(ctx.events[n..], c.device, r, minted.request);
               && ((active.Some? && active.value.0 == Coordinates(c.inviteId, c.requestId)) <==> yes)
               && (yes ==> active == Some((Coordinates(c.inviteId, c.requestId), c.displayName)))
  {
    var before := Materialize(log);
    var t := InviteClaims.Triple(before, c, responder, role, minted);
    var ctx := Materialize(InviteClaims.WithTriple(log, c, responder, role, minted) + more);
    AcceptedContinues(log, c, responder, expiry, role, minted, more);
    LaterMembership(ctx, log, c, responder, expiry, role, minted);
    AcceptedClaimIsCanonical(log, c, responder, expiry, role, minted, r, more);
    if CurrentIn(ctx.state, c.device, minted.member) {
      CoordinatesOfTriple(ctx, before, t, c, responder, role, minted);
    }
    ActiveMeans(ctx, c.device, receipts, Coordinates(c.inviteId, c.requestId), minted.member, c.displayName);
  }

  /** Once the role of the new member was changed, an unpublished profile stays unpublished. */
  lemma RoleChangeBlocksFinalization(log: seq<Event>, c: InviteClaims.Claim, responder: DeviceId, expiry: InviteClaims.Expiry,
                                     role: Role, minted: InviteClaims.Minted, r: Receipt,
                                     receipts: map<Coordinates, Stored>, more: seq<Event>, k: nat, newRole: Role)
    requires InviteClaims.AcceptedOn(log, c, responder, expiry, role, minted) && ReceiptOf(r, c, responder) && InOrder(log)
    requires OneCapability(Materialize(log).events, r) && c.inviteId != "" && c.requestId != ""
    requires Coordinates(c.inviteId, c.requestId) in receipts
    requires receipts[Coordinates(c.inviteId, c.requestId)].receipt == r
    requires !receipts[Coordinates(c.inviteId, c.requestId)].finalized
    requires var ctx := Materialize(InviteClaims.WithTriple(log, c, responder, role, minted) + more);
             |Materialize(log).events| + 3 <= k < |ctx.events| && ctx.events[k].body == MemberRoleUpdated(c.device, newRole)
    ensures var active := ActiveClaim(Materialize(InviteClaims.WithTriple(log, c, responder, role, minted) + more), c.device, receipts);
            active.None? || active.value.0 != Coordinates(c.inviteId, c.requestId)
  {
    AcceptedClaimActiveExactly(log, c, responder, expiry, role, minted, r, receipts, more);
  }

  // ---------- the system ----------

  datatype Phase =
    | Idle
    | Marking(at: Coordinates, copy: Stored)
    | Marked(at: Coordinates, copy: Stored)
    | Unmarking(at: Coordinates)
    | Naming(at: Coordinates, name: string, missing: bool, from: nat)
    | Linking(at: Coordinates, name: string, from: nat)
    | Unlinked(at: Coordinates, name: string, from: nat, looked: nat)
    | Profiling(at: Coordinates, name: string, person: PersonId, from: nat, looked: nat)
    | Completing(at: Coordinates)
    | Clearing(at: Coordinates)

  /** Event number `index` was published for claim `at`, decided on the first `from` events. */
  datatype Publication = Publication(index: nat, at: Coordinates, from: nat)

  datatype System = System(
    local: DeviceId,
    log: seq<Event>,
    key: bool,
    receipts: map<Coordinates, Stored>,
    markers: set<Coordinates>,
    phase: Phase,
    ready: set<Coordinates>,
    imported: set<Coordinates>,
    published: seq<Publication>)

  datatype Action =
    | Arrive(e: Event)
    | Prepare(at: Coordinates, receipt: Receipt)
    | BeginMark(at: Coordinates)
    | WriteMarker
    | WriteReceipt
    | RemoveMarker
    | ImportKey(at: Coordinates)
    | BeginFinalize
    | PublishProfile(e: Event)
    | KeepProfile
    | Refresh
    | PublishLink(e: Event)
    | PublishPerson(e: Event)
    | WriteFinalized
    | Fail
    | Crash

  function View(s: System): State {
    Materialize(s.log).state
  }

  predicate Enabled(s: System, a: Action) {
    match a
    case Arrive(e) => Foreign(e, s.local)
    case Prepare(at, r) => at !in s.receipts && r.inviteId == at.inviteId && r.requestId == at.requestId
    case BeginMark(at) => s.phase.Idle? && at in s.receipts
    case WriteMarker => s.phase.Marking?
    case WriteReceipt => s.phase.Marked?
    case RemoveMarker => s.phase.Unmarking? || s.phase.Clearing?
    case ImportKey(at) => at in s.ready
    case BeginFinalize => s.phase.Idle?
    case PublishProfile(e) =>
      && s.phase.Naming? && s.phase.missing
      && Own(e, s.local, DeviceProfile) && e.body.displayName == s.phase.name
    case KeepProfile => s.phase.Naming? && !s.phase.missing
    case Refresh => s.phase.Linking?
    case PublishLink(e) =>
      && s.phase.Unlinked? && Own(e, s.local, PersonLink) && e.body.device == s.local
      && UnusedPerson(s.log, e.body.person)
    case PublishPerson(e) =>
      && s.phase.Profiling? && Own(e, s.local, PersonProfile)
      && e.body.person == s.phase.person && e.body.displayName == s.phase.name
    case WriteFinalized => s.phase.Completing? && s.phase.at in s.receipts
    case Fail => true
    case Crash => true
  }

  /** The name to publish: what the profile already says, else the linked person's, else the claim's. */
  function EffectiveName(v: State, local: DeviceId, claimed: string): string {
    if HasProfile(v, local) then v.profiles[local]
    else if HasPerson(v, local) then v.persons[v.links[local]]
    else claimed
  }

  /** Nothing without the key or an active claim; otherwise the claim and name to publish. */
  function Begun(log: seq<Event>, key: bool, receipts: map<Coordinates, Stored>, local: DeviceId): Phase {
    var ctx := Materialize(log);
    var claim := ActiveClaim(ctx, local, receipts);
    if !key || claim.None? then Idle
    else Naming(claim.value.0, EffectiveName(ctx.state, local, claim.value.1), !HasProfile(ctx.state, local), |log|)
  }

  function Publish(s: System, e: Event, next: Phase): System
    requires s.phase.Naming? || s.phase.Unlinked? || s.phase.Profiling?
  {
    s.(log := s.log + [e], phase := next,
       published := s.published + [Publication(|s.log|, s.phase.at, s.phase.from)])
  }

  /** After another look at the history, `looked` events long: what is still missing of the person
      profile? */
  function Refreshed(ph: Phase, v: State, local: DeviceId, looked: nat): Phase
    requires ph.Linking?
  {
    if local !in v.links then Unlinked(ph.at, ph.name, ph.from, looked)
    else if HasPerson(v, local) then Completing(ph.at)
    else Profiling(ph.at, ph.name, v.links[local], ph.from, looked)
  }

  function Perform(s: System, a: Action): System
    requires Enabled(s, a)
  {
    match a
    case Arrive(e) => s.(log := s.log + [e])
    case Prepare(at, r) => s.(receipts := s.receipts[at := Stored(r, false, false)])
    case BeginMark(at) =>
      s.(phase := if s.receipts[at].finalized then Unmarking(at) else Marking(at, s.receipts[at]))
    case WriteMarker => s.(markers := s.markers + {s.phase.at}, phase := Marked(s.phase.at, s.phase.copy))
    case WriteReceipt =>
      s.(receipts := s.receipts[s.phase.at := s.phase.copy.(pending := true)],
         ready := s.ready + {s.phase.at}, phase := Idle)
    case RemoveMarker =>
      s.(markers := s.markers - {s.phase.at},
         ready := if s.phase.Unmarking? then s.ready + {s.phase.at} else s.ready, phase := Idle)
    case ImportKey(at) => s.(key := true, imported := s.imported + {at}, ready := s.ready - {at})
    case BeginFinalize => s.(phase := Begun(s.log, s.key, s.receipts, s.local))
    case PublishProfile(e) => Publish(s, e, Linking(s.phase.at, s.phase.name, s.phase.from))
    case KeepProfile => s.(phase := Linking(s.phase.at, s.phase.name, s.phase.from))
    case Refresh => s.(phase := Refreshed(s.phase, View(s), s.local, |s.log|))
    case PublishLink(e) => Publish(s, e, Profiling(s.phase.at, s.phase.name, e.body.person, s.phase.from, s.phase.looked))
    case PublishPerson(e) => Publish(s, e, Completing(s.phase.at))
    case WriteFinalized =>
      s.(receipts := s.receipts[s.phase.at := s.receipts[s.phase.at].(pending := false, finalized := true)],
         phase := Clearing(s.phase.at))
    case Fail => s.(phase := Idle)
    case Crash => s.(phase := Idle, ready := {})
  }

  // ---------- what every step keeps ----------

  /** The claim has its marker, or nothing is left to do for it. */
  predicate Recoverable(s: System, at: Coordinates) {
    at in s.markers || (at in s.receipts && s.receipts[at].finalized)
  }

  ghost predicate DecidedOn(s: System, at: Coordinates, from: nat) {
    && at in s.receipts && from <= |s.log|
    && GrantedBy(Materialize(s.log[..from]), s.local, s.receipts[at].receipt)
  }

  predicate Publishing(ph: Phase) {
    ph.Naming? || ph.Linking? || ph.Unlinked? || ph.Profiling?
  }

  /** What the current phase knows of the files. */
  ghost predicate FilesOk(s: System) {
    match s.phase
    case Idle => true
    case Marking(at, copy) => at in s.receipts && s.receipts[at] == copy && !copy.finalized
    case Marked(at, copy) => at in s.receipts && s.receipts[at] == copy && !copy.finalized && at in s.markers
    case Unmarking(at) => at in s.receipts && s.receipts[at].finalized
    case Completing(at) => at in s.receipts
    case Clearing(at) => at in s.receipts && s.receipts[at].finalized
    case _ => s.key && s.phase.name != ""
  }

  ghost predicate DecisionOk(s: System) {
    Publishing(s.phase) ==> s.key && DecidedOn(s, s.phase.at, s.phase.from)
  }

  ghost predicate IntentOk(s: System) {
    forall at :: at in s.ready || at in s.imported ==> Recoverable(s, at)
  }

  /** Every profile event of the local device was published for a claim that granted its membership,
      with the key present. */
  ghost predicate PublishedOk(s: System) {
    && (forall i, kind :: 0 <= i < |s.log| && Own(s.log[i], s.local, kind) ==> Listed(s, i))
    && (forall k :: 0 <= k < |s.published| ==> DecidedOn(s, s.published[k].at, s.published[k].from))
    && (s.published != [] ==> s.key)
  }

  ghost predicate Listed(s: System, i: nat) {
    exists k :: 0 <= k < |s.published| && s.published[k].index == i && s.published[k].from <= i
  }

  ghost predicate Inv(s: System) {
    PublishedOk(s) && FilesOk(s) && IntentOk(s) && DecisionOk(s)
  }

  lemma MembersNeedRoot(log: seq<Event>)
    ensures var s := Materialize(log).state; s.members != map[] ==> s.root.Some?
  {
    Materialized(log);
    RootIsMember(Materialize(log).events);
  }

  /** A decision stays what it was when events are added and receipts change their flags. */
  lemma DecisionStays(s: System, t: System, at: Coordinates, from: nat)
    requires DecidedOn(s, at, from) && s.local == t.local && s.log <= t.log
    requires at in t.receipts && t.receipts[at].receipt == s.receipts[at].receipt
    ensures DecidedOn(t, at, from)
  {
    assert t.log[..from] == s.log[..from];
  }

  ghost predicate KeepsReceipts(s: System, t: System) {
    forall at :: at in s.receipts ==> at in t.receipts && t.receipts[at].receipt == s.receipts[at].receipt
  }

  /** The durable part only grows. */
  ghost predicate OnlyGrows(s: System, t: System) {
    s.local == t.local && s.log <= t.log && KeepsReceipts(s, t) && (s.key ==> t.key)
  }

  lemma StaysListed(s: System, t: System, i: nat)
    requires Listed(s, i) && s.published <= t.published
    ensures Listed(t, i)
  {
    var k :| 0 <= k < |s.published| && s.published[k].index == i && s.published[k].from <= i;
    assert t.published[k] == s.published[k];
  }

  lemma PublicationsStay(s: System, t: System)
    requires OnlyGrows(s, t) && s.published <= t.published
    requires forall k :: 0 <= k < |s.published| ==> DecidedOn(s, s.published[k].at, s.published[k].from)
    ensures forall k :: 0 <= k < |s.published| ==> DecidedOn(t, t.published[k].at, t.published[k].from)
  {
    forall k | 0 <= k < |s.published| ensures DecidedOn(t, t.published[k].at, t.published[k].from) {
      assert t.published[k] == s.published[k];
      DecisionStays(s, t, s.published[k].at, s.published[k].from);
    }
  }

  /** Publications stay sound when no profile event of the local device is added. */
  lemma PublishedStays(s: System, t: System)
    requires PublishedOk(s) && OnlyGrows(s, t) && t.published == s.published
    requires forall i :: |s.log| <= i < |t.log| ==> Foreign(t.log[i], s.local)
    ensures PublishedOk(t)
  {
    PublicationsStay(s, t);
    assert forall i, kind :: |s.log| <= i < |t.log| ==> !Own(t.log[i], s.local, kind);
    forall i, kind | 0 <= i < |t.log| && Own(t.log[i], t.local, kind)
      ensures Listed(t, i)
    {
      assert i < |s.log|;
      assert s.log[i] == t.log[i] && Listed(s, i);
    }
  }

  /** A new event published for the claim of the current phase is accounted for. */
  lemma PublishedExtends(s: System, e: Event, next: Phase)
    requires PublishedOk(s) && DecisionOk(s) && (s.phase.Naming? || s.phase.Unlinked? || s.phase.Profiling?)
    ensures PublishedOk(Publish(s, e, next)) && OnlyGrows(s, Publish(s, e, next))
  {
    PublishGrows(s, e, next);
    PublicationsExtend(s, e, next);
    OwnRowsAreListed(s, e, next);
  }

  lemma PublishGrows(s: System, e: Event, next: Phase)
    requires s.phase.Naming? || s.phase.Unlinked? || s.phase.Profiling?
    ensures OnlyGrows(s, Publish(s, e, next)) && s.published <= Publish(s, e, next).published
  {
  }

  lemma PublicationsExtend(s: System, e: Event, next: Phase)
    requires (s.phase.Naming? || s.phase.Unlinked? || s.phase.Profiling?) && DecisionOk(s)
    requires forall k :: 0 <= k < |s.published| ==> DecidedOn(s, s.published[k].at, s.published[k].from)
    ensures var t := Publish(s, e, next);
            forall k :: 0 <= k < |t.published| ==> DecidedOn(t, t.published[k].at, t.published[k].from)
  {
    var t := Publish(s, e, next);
    PublishGrows(s, e, next);
    PublicationsStay(s, t);
    DecisionStays(s, t, s.phase.at, s.phase.from);
  }

  lemma OwnRowsAreListed(s: System, e: Event, next: Phase)
    requires (s.phase.Naming? || s.phase.Unlinked? || s.phase.Profiling?) && DecisionOk(s)
    requires forall i, kind :: 0 <= i < |s.log| && Own(s.log[i], s.local, kind) ==> Listed(s, i)
    ensures var t := Publish(s, e, next);
            forall i, kind :: 0 <= i < |t.log| && Own(t.log[i], t.local, kind) ==> Listed(t, i)
  {
    var t := Publish(s, e, next);
    forall i, kind | 0 <= i < |t.log| && Own(t.log[i], t.local, kind)
      ensures Listed(t, i)
    {
      if i < |s.log| {
        assert Own(s.log[i], s.local, kind);
      }
      PublicationIsListed(s, e, next, i);
    }
  }

  lemma PublicationIsListed(s: System, e: Event, next: Phase, i: nat)
    requires DecisionOk(s) && (s.phase.Naming? || s.phase.Unlinked? || s.phase.Profiling?)
    requires i <= |s.log| && (i < |s.log| ==> Listed(s, i))
    ensures Listed(Publish(s, e, next), i)
  {
    var t := Publish(s, e, next);
    if i < |s.log| {
      StaysListed(s, t, i);
    } else {
      assert t.published[|s.published|].index == i;
    }
  }

  lemma DecisionKept(s: System, t: System)
    requires DecisionOk(s) && OnlyGrows(s, t)
    requires Publishing(t.phase) ==> Publishing(s.phase) && t.phase.at == s.phase.at && t.phase.from == s.phase.from
    ensures DecisionOk(t)
  {
    if Publishing(t.phase) {
      DecisionStays(s, t, s.phase.at, s.phase.from);
    }
  }

  predicate FileStep(a: Action) {
    || a.Prepare? || a.BeginMark? || a.WriteMarker? || a.WriteReceipt? || a.RemoveMarker? || a.ImportKey?
    || a.Fail? || a.Crash? || a.WriteFinalized? || a.KeepProfile? || a.Refresh?
  }

  /** Steps that append nothing: what they leave alone. */
  lemma FileStepGrows(s: System, a: Action)
    requires FilesOk(s) && Enabled(s, a) && FileStep(a)
    ensures var t := Perform(s, a); OnlyGrows(s, t) && t.log == s.log && t.published == s.published
  {
  }

  lemma FileStepPhase(s: System, a: Action)
    requires Enabled(s, a) && FileStep(a)
    ensures var t := Perform(s, a);
            Publishing(t.phase) ==> Publishing(s.phase) && t.phase.at == s.phase.at && t.phase.from == s.phase.from
  {
  }

  /** Marking and unmarking. */
  lemma MarkStepKeeps(s: System, a: Action)
    requires FilesOk(s) && IntentOk(s) && Enabled(s, a)
    requires a.BeginMark? || a.WriteMarker? || a.WriteReceipt? || a.RemoveMarker?
    ensures FilesOk(Perform(s, a)) && IntentOk(Perform(s, a))
  {
  }

  /** Everything else that appends nothing; a claim in hand names a receipt. */
  lemma OtherFileStepKeeps(s: System, a: Action)
    requires FilesOk(s) && IntentOk(s) && Enabled(s, a) && FileStep(a)
    requires !(a.BeginMark? || a.WriteMarker? || a.WriteReceipt? || a.RemoveMarker?)
    requires Publishing(s.phase) ==> s.phase.at in s.receipts
    ensures FilesOk(Perform(s, a)) && IntentOk(Perform(s, a))
  {
  }

  lemma FileStepKeeps(s: System, a: Action)
    requires Inv(s) && Enabled(s, a) && FileStep(a)
    ensures Inv(Perform(s, a))
  {
    FileStepGrows(s, a);
    FileStepPhase(s, a);
    if a.BeginMark? || a.WriteMarker? || a.WriteReceipt? || a.RemoveMarker? {
      MarkStepKeeps(s, a);
    } else {
      OtherFileStepKeeps(s, a);
    }
    PublishedStays(s, Perform(s, a));
    DecisionKept(s, Perform(s, a));
  }

  lemma ArriveKeeps(s: System, e: Event)
    requires Inv(s) && Foreign(e, s.local)
    ensures Inv(s.(log := s.log + [e]))
  {
    var t := s.(log := s.log + [e]);
    PublishedStays(s, t);
    DecisionKept(s, t);
  }

  lemma ActiveClaimIsGranted(ctx: Context, local: DeviceId, receipts: map<Coordinates, Stored>)
    requires ActiveClaim(ctx, local, receipts).Some?
    ensures var claim := ActiveClaim(ctx, local, receipts).value;
            && local in ctx.state.members && claim.0 in receipts && !receipts[claim.0].finalized && claim.1 != ""
            && (ctx.state.root.Some? ==> GrantedBy(ctx, local, receipts[claim.0].receipt))
  {
  }

  lemma BegunIsGranted(log: seq<Event>, key: bool, receipts: map<Coordinates, Stored>, local: DeviceId)
    requires Begun(log, key, receipts, local).Naming?
    ensures var next := Begun(log, key, receipts, local);
            && key && next.name != "" && next.from == |log|
            && next.at in receipts && GrantedBy(Materialize(log), local, receipts[next.at].receipt)
            && (next.missing <==> !HasProfile(Materialize(log).state, local))
  {
    ActiveClaimIsGranted(Materialize(log), local, receipts);
    MembersNeedRoot(log);
  }

  lemma NamingIsDecided(s: System, next: Phase)
    requires next.Naming? && s.key && next.from == |s.log| && next.at in s.receipts
    requires GrantedBy(Materialize(s.log), s.local, s.receipts[next.at].receipt)
    ensures DecisionOk(s.(phase := next))
  {
    assert s.log[..|s.log|] == s.log;
  }

  /** Starting a finalization settles which claim it is for, on the history as it is now. */
  lemma BeginFinalizeKeeps(s: System)
    requires Inv(s) && Enabled(s, BeginFinalize)
    ensures Inv(Perform(s, BeginFinalize))
  {
    var next := Begun(s.log, s.key, s.receipts, s.local);
    PublishedStays(s, s.(phase := next));
    if next.Naming? {
      BegunIsGranted(s.log, s.key, s.receipts, s.local);
      NamingIsDecided(s, next);
    }
  }

  lemma PublishKeeps(s: System, e: Event, next: Phase)
    requires Inv(s) && (s.phase.Naming? || s.phase.Unlinked? || s.phase.Profiling?)
    requires next.Linking? || next.Profiling? || next.Completing?
    requires next.at == s.phase.at && (Publishing(next) ==> next.name == s.phase.name && next.from == s.phase.from)
    ensures Inv(Publish(s, e, next))
  {
    PublishedExtends(s, e, next);
    DecisionKept(s, Publish(s, e, next));
    PublishKeepsFiles(s, e, next);
  }

  lemma PublishKeepsFiles(s: System, e: Event, next: Phase)
    requires FilesOk(s) && IntentOk(s) && (s.phase.Naming? || s.phase.Unlinked? || s.phase.Profiling?)
    requires s.phase.at in s.receipts && (next.Linking? || next.Profiling? || next.Completing?)
    requires next.at == s.phase.at && (Publishing(next) ==> next.name == s.phase.name)
    ensures FilesOk(Publish(s, e, next)) && IntentOk(Publish(s, e, next))
  {
  }

  /** Every durable step, arrival, failure and crash keeps the invariant. */
  lemma StepKeeps(s: System, a: Action)
    requires Inv(s) && Enabled(s, a)
    ensures Inv(Perform(s, a))
  {
    match a
    case Arrive(e) => ArriveKeeps(s, e);
    case BeginFinalize => BeginFinalizeKeeps(s);
    case PublishProfile(e) => PublishStepKeeps(s, a);
    case PublishLink(e) => PublishStepKeeps(s, a);
    case PublishPerson(e) => PublishStepKeeps(s, a);
    case _ => FileStepKeeps(s, a);
  }

  lemma PublishStepKeeps(s: System, a: Action)
    requires Inv(s) && Enabled(s, a) && (a.PublishProfile? || a.PublishLink? || a.PublishPerson?)
    ensures Inv(Perform(s, a))
  {
    PublishKeeps(s, a.e, Perform(s, a).phase);
  }

  // ---------- whole runs ----------

  function Initial(local: DeviceId): System {
    System(local, [], false, map[], {}, Idle, {}, {}, [])
  }

  ghost predicate IsRun(run: seq<Action>, s: System) {
    run == [] || (Enabled(s, run[0]) && IsRun(run[1..], Perform(s, run[0])))
  }

  ghost function After(run: seq<Action>, s: System): System
    requires IsRun(run, s)
  {
    if run == [] then s else After(run[1..], Perform(s, run[0]))
  }

  lemma RunCons(a: Action, rest: seq<Action>, s: System)
    requires Enabled(s, a) && IsRun(rest, Perform(s, a))
    ensures IsRun([a] + rest, s) && After([a] + rest, s) == After(rest, Perform(s, a))
  {
    assert ([a] + rest)[1..] == rest;
  }

  lemma RunTail(run: seq<Action>, s: System)
    requires IsRun(run, s) && run != []
    ensures Enabled(s, run[0]) && IsRun(run[1..], Perform(s, run[0])) && After(run, s) == After(run[1..], Perform(s, run[0]))
  {
  }

  lemma {:induction false} RunConcat(a: seq<Action>, b: seq<Action>, s: System)
    requires IsRun(a, s) && IsRun(b, After(a, s))
    ensures IsRun(a + b, s) && After(a + b, s) == After(b, After(a, s))
    decreases |a|
  {
    if a == [] {
      assert a + b == b;
    } else {
      var rest, next := a[1..], Perform(s, a[0]);
      RunTail(a, s);
      RunConcat(rest, b, next);
      RunCons(a[0], rest + b, s);
      assert [a[0]] + (rest + b) == a + b;
    }
  }

  function Arrivals(rows: seq<Event>): seq<Action> {
    seq(|rows|, i requires 0 <= i < |rows| => Arrive(rows[i]))
  }

  lemma {:induction false} RowsArrive(rows: seq<Event>, s: System)
    requires forall e :: e in rows ==> Foreign(e, s.local)
    ensures IsRun(Arrivals(rows), s) && After(Arrivals(rows), s) == s.(log := s.log + rows)
    decreases |rows|
  {
    if rows == [] {
      assert s.log + rows == s.log;
    } else {
      var t := s.(log := s.log + [rows[0]]);
      assert Perform(s, Arrive(rows[0])) == t;
      RowsArrive(rows[1..], t);
      RunCons(Arrive(rows[0]), Arrivals(rows[1..]), s);
      assert [Arrive(rows[0])] + Arrivals(rows[1..]) == Arrivals(rows);
      assert s.log + [rows[0]] + rows[1..] == s.log + rows;
    }
  }

  lemma LocalStays(s: System, a: Action)
    requires Enabled(s, a)
    ensures Perform(s, a).local == s.local
  {
  }

  lemma {:induction false} RunKeeps(run: seq<Action>, s: System)
    requires Inv(s) && IsRun(run, s)
    ensures Inv(After(run, s)) && After(run, s).local == s.local
  {
    if run != [] {
      StepKeeps(s, run[0]);
      LocalStays(s, run[0]);
      RunKeeps(run[1..], Perform(s, run[0]));
    }
  }

  /** After any run of one process, with crashes anywhere and the device removed and invited again
      at will: a claim whose key was imported has its marker or is finalized. */
  lemma ImportedKeyIsRecoverable(run: seq<Action>, local: DeviceId, at: Coordinates)
    requires IsRun(run, Initial(local)) && at in After(run, Initial(local)).imported
    ensures Recoverable(After(run, Initial(local)), at)
  {
    RunKeeps(run, Initial(local));
  }

  // ---------- the published identity ----------

  /** The first pass over the stored rows. */
  function Slots(s: System): Context {
    Pass(Start, s.log)
  }

  /** What the current phase knows of the identity in the materialized state `v`. */
  ghost predicate IdentityOk(ph: Phase, v: State, local: DeviceId) {
    && (ph.Naming? ==> (ph.missing <==> !HasProfile(v, local)))
    && (ph.Linking? || ph.Unlinked? || ph.Profiling? ==> HasProfile(v, local))
    && (ph.Unlinked? ==> local !in v.links)
    && (ph.Profiling? ==> local in v.links && v.links[local] == ph.person && !HasPerson(v, local))
    && (ph.Completing? ==> CompleteIdentity(v, local))
  }

  ghost predicate SomeFinalized(s: System) {
    exists at :: at in s.receipts && s.receipts[at].finalized
  }

  /** Every profile event of the device was applied at its own place in the store. */
  ghost predicate RowsOk(s: System) {
    && Coherent(Slots(s), s.local) && OwnApplied(Slots(s), s.log, s.local) && Stays(s.log, s.local)
    && forall kind :: Tally(s.log, s.local, kind) == Tally(Slots(s).events, s.local, kind)
  }

  ghost predicate IdentityInv(s: System) {
    && RowsOk(s)
    && IdentityOk(s.phase, View(s), s.local)
    && (SomeFinalized(s) ==> CompleteIdentity(View(s), s.local))
  }

  /** What is materialized shows the identity of the first pass. */
  lemma ViewShowsSlots(s: System)
    requires RowsOk(s)
    ensures SameIdentity(Slots(s).state, View(s), s.local)
  {
    RoundsResume(Start, s.log);
    RoundsKeepIdentity(Slots(s), s.log, s.local);
  }

  lemma SameIdentityKeeps(ph: Phase, p: State, v: State, q: State, w: State, local: DeviceId)
    requires SameIdentity(p, v, local) && SameIdentity(p, q, local) && SameIdentity(q, w, local) && IdentityOk(ph, v, local)
    ensures IdentityOk(ph, w, local) && (CompleteIdentity(v, local) ==> CompleteIdentity(w, local))
  {
  }

  lemma ArrivalRows(s: System, e: Event)
    requires RowsOk(s) && Foreign(e, s.local) && !Removes(e, s.local)
    ensures var t := s.(log := s.log + [e]);
            RowsOk(t) && SameIdentity(Slots(s).state, Slots(t).state, s.local)
  {
    var t := s.(log := s.log + [e]);
    PassSnoc(Start, s.log, e);
    ForeignKeepsCoherent(Slots(s), e, s.local);
    ForeignTally(s.log, e, s.local);
    ForeignTally(Slots(s).events, e, s.local);
    IdsGrow(Slots(s).events, Slots(t).events);
  }

  lemma ArrivalKeepsIdentity(s: System, e: Event)
    requires IdentityInv(s) && Foreign(e, s.local) && !Removes(e, s.local)
    ensures IdentityInv(s.(log := s.log + [e]))
  {
    var t := s.(log := s.log + [e]);
    ArrivalRows(s, e);
    ViewShowsSlots(s);
    ViewShowsSlots(t);
    SameIdentityKeeps(s.phase, Slots(s).state, View(s), Slots(t).state, View(t), s.local);
  }

  /** The new event is applied at its own place: its parents were, and it is authorized there. */
  ghost predicate Settles(s: System, e: Event) {
    Applicable(Slots(s), e)
  }

  /** An event written on a history in which no row had to wait always settles. */
  lemma OrderlyEventsSettle(s: System, e: Event)
    requires InOrder(s.log) && Applicable(Materialize(s.log), e)
    ensures Settles(s, e)
  {
  }

  lemma OwnRow(s: System, e: Event, next: Phase, kind: Kind)
    requires s.phase.Naming? || s.phase.Unlinked? || s.phase.Profiling?
    requires RowsOk(s) && Settles(s, e) && Own(e, s.local, kind)
    requires Coherent(Applied(Slots(s), e), s.local)
    ensures RowsOk(Publish(s, e, next)) && Slots(Publish(s, e, next)) == Applied(Slots(s), e)
  {
    PassSnoc(Start, s.log, e);
    OwnRowApplied(Slots(s), s.log, e, s.local);
    OwnRowTallies(Slots(s).events, s.log, e, s.local);
    OwnRowStays(s.log, e, s.local, kind);
  }

  lemma OwnRowApplied(c: Context, rows: seq<Event>, e: Event, local: DeviceId)
    requires OwnApplied(c, rows, local)
    ensures OwnApplied(Applied(c, e), rows + [e], local)
  {
    IdsGrow(c.events, c.events + [e]);
    assert e in c.events + [e];
  }

  lemma OwnRowTallies(events: seq<Event>, rows: seq<Event>, e: Event, local: DeviceId)
    requires forall k :: Tally(rows, local, k) == Tally(events, local, k)
    ensures forall k :: Tally(rows + [e], local, k) == Tally(events + [e], local, k)
  {
    forall k ensures Tally(rows + [e], local, k) == Tally(events + [e], local, k) {
      TallySnoc(rows, e, local, k);
      TallySnoc(events, e, local, k);
    }
  }

  lemma OwnRowStays(rows: seq<Event>, e: Event, local: DeviceId, kind: Kind)
    requires Stays(rows, local) && Own(e, local, kind)
    ensures Stays(rows + [e], local)
  {
  }

  /** The identity shown by `w` is that of `q`. */
  lemma ShownIdentity(next: Phase, q: State, w: State, local: DeviceId)
    requires SameIdentity(q, w, local) && IdentityOk(next, q, local)
    ensures IdentityOk(next, w, local) && (CompleteIdentity(q, local) ==> CompleteIdentity(w, local))
  {
  }

  lemma FinalizedByPublish(s: System, e: Event, next: Phase)
    requires s.phase.Naming? || s.phase.Unlinked? || s.phase.Profiling?
    ensures SomeFinalized(Publish(s, e, next)) <==> SomeFinalized(s)
  {
    var t := Publish(s, e, next);
    assert t.receipts == s.receipts;
  }

  /** A publishing step keeps the identity when the new event completes what the next phase expects. */
  lemma PublishIdentity(s: System, e: Event, next: Phase, kind: Kind)
    requires IdentityInv(s) && (s.phase.Naming? || s.phase.Unlinked? || s.phase.Profiling?)
    requires Settles(s, e) && Own(e, s.local, kind) && Coherent(Applied(Slots(s), e), s.local)
    requires IdentityOk(next, Applied(Slots(s), e).state, s.local) && !CompleteIdentity(View(s), s.local)
    ensures IdentityInv(Publish(s, e, next))
  {
    var t := Publish(s, e, next);
    OwnRow(s, e, next, kind);
    ViewShowsSlots(t);
    ShownIdentity(next, Slots(t).state, View(t), s.local);
    FinalizedByPublish(s, e, next);
  }

  lemma PublishProfileIdentity(s: System, e: Event)
    requires IdentityInv(s) && FilesOk(s) && Enabled(s, PublishProfile(e)) && Settles(s, e)
    ensures IdentityInv(Perform(s, PublishProfile(e)))
  {
    ViewShowsSlots(s);
    ProfileKeepsCoherent(Slots(s), e, s.local);
    PublishIdentity(s, e, Linking(s.phase.at, s.phase.name, s.phase.from), DeviceProfile);
  }

  lemma PersonIsFree(s: System, p: PersonId)
    requires UnusedPerson(s.log, p)
    ensures p !in Slots(s).state.links.Values && p !in Slots(s).state.persons
  {
    PassIsSound(Start, s.log);
    PassExtends(Start, s.log);
    UnusedPersonIsFree(Slots(s).events, p);
  }

  lemma PublishLinkIdentity(s: System, e: Event)
    requires IdentityInv(s) && FilesOk(s) && Enabled(s, PublishLink(e)) && Settles(s, e)
    ensures IdentityInv(Perform(s, PublishLink(e)))
  {
    ViewShowsSlots(s);
    PersonIsFree(s, e.body.person);
    LinkKeepsCoherent(Slots(s), e, s.local);
    PublishIdentity(s, e, Profiling(s.phase.at, s.phase.name, e.body.person, s.phase.from, s.phase.looked), PersonLink);
  }

  lemma PublishPersonIdentity(s: System, e: Event)
    requires IdentityInv(s) && FilesOk(s) && Enabled(s, PublishPerson(e)) && Settles(s, e)
    ensures IdentityInv(Perform(s, PublishPerson(e)))
  {
    ViewShowsSlots(s);
    PersonKeepsCoherent(Slots(s), e, s.local);
    PublishIdentity(s, e, Completing(s.phase.at), PersonProfile);
  }

  lemma RefreshedIsOk(ph: Phase, v: State, local: DeviceId, looked: nat)
    requires IdentityOk(ph, v, local) && ph.Linking?
    ensures IdentityOk(Refreshed(ph, v, local, looked), v, local)
  {
  }

  lemma LookIdentity(s: System, a: Action)
    requires IdentityInv(s) && Enabled(s, a) && (a.BeginFinalize? || a.KeepProfile? || a.Refresh?)
    ensures IdentityInv(Perform(s, a))
  {
    var t := Perform(s, a);
    assert t == s.(phase := t.phase);
    if a.Refresh? {
      RefreshedIsOk(s.phase, View(s), s.local, |s.log|);
    }
    if a.BeginFinalize? && t.phase.Naming? {
      BegunIsGranted(s.log, s.key, s.receipts, s.local);
    }
  }

  lemma FileIdentity(s: System, a: Action)
    requires IdentityInv(s) && FilesOk(s) && Enabled(s, a) && FileStep(a) && !a.KeepProfile? && !a.Refresh?
    ensures IdentityInv(Perform(s, a))
  {
    var t := Perform(s, a);
    assert t.log == s.log && t.local == s.local;
    FinalizedStays(s, a);
  }

  lemma FinalizedStays(s: System, a: Action)
    requires FilesOk(s) && Enabled(s, a) && FileStep(a) && !a.KeepProfile? && !a.Refresh?
    ensures var t := Perform(s, a);
            && (SomeFinalized(t) ==> SomeFinalized(s) || s.phase.Completing?)
            && (t.phase == s.phase || !(Publishing(t.phase) || t.phase.Completing?))
  {
  }

  /** The device is not removed, and a published event is applied at its own place. */
  ghost predicate Calm(s: System, a: Action) {
    && (a.Arrive? ==> !Removes(a.e, s.local))
    && (a.PublishProfile? || a.PublishLink? || a.PublishPerson? ==> Settles(s, a.e))
  }

  lemma StepKeepsIdentity(s: System, a: Action)
    requires IdentityInv(s) && FilesOk(s) && Enabled(s, a) && Calm(s, a)
    ensures IdentityInv(Perform(s, a))
  {
    match a
    case Arrive(e) => ArrivalKeepsIdentity(s, e);
    case PublishProfile(e) => PublishProfileIdentity(s, e);
    case PublishLink(e) => PublishLinkIdentity(s, e);
    case PublishPerson(e) => PublishPersonIdentity(s, e);
    case BeginFinalize => LookIdentity(s, a);
    case KeepProfile => LookIdentity(s, a);
    case Refresh => LookIdentity(s, a);
    case _ => FileIdentity(s, a);
  }

  ghost predicate CalmRun(run: seq<Action>, s: System)
    requires IsRun(run, s)
  {
    run == [] || (Calm(s, run[0]) && CalmRun(run[1..], Perform(s, run[0])))
  }

  lemma {:induction false} CalmRunKeeps(run: seq<Action>, s: System)
    requires Inv(s) && IdentityInv(s) && IsRun(run, s) && CalmRun(run, s)
    ensures IdentityInv(After(run, s)) && After(run, s).local == s.local
  {
    if run != [] {
      StepKeeps(s, run[0]);
      StepKeepsIdentity(s, run[0]);
      LocalStays(s, run[0]);
      CalmRunKeeps(run[1..], Perform(s, run[0]));
    }
  }

  lemma InitialIdentity(local: DeviceId)
    ensures IdentityInv(Initial(local))
  {
    RoundsResume(Start, []);
  }

  lemma TalliesAreSmall(s: System)
    requires RowsOk(s)
    ensures forall kind :: Tally(s.log, s.local, kind) <= 1
  {
    forall kind: Kind ensures Tally(s.log, s.local, kind) <= 1 {
      match kind {
        case DeviceProfile =>
        case PersonLink =>
        case PersonProfile =>
      }
    }
  }

  /** After any run of one process with crashes anywhere, in which the device is not removed and each
      published event is applied at its own place: a finalized claim has a complete identity in the
      history, and each kind of profile event was written at most once. */
  lemma FinalizationIsCrashSafe(run: seq<Action>, local: DeviceId)
    requires IsRun(run, Initial(local)) && CalmRun(run, Initial(local))
    ensures var s := After(run, Initial(local));
            && (forall at :: at in s.imported ==> Recoverable(s, at))
            && (forall at :: at in s.receipts && s.receipts[at].finalized ==> CompleteIdentity(View(s), local))
            && (forall kind :: Tally(s.log, local, kind) <= 1)
  {
    InitialIdentity(local);
    RunKeeps(run, Initial(local));
    CalmRunKeeps(run, Initial(local));
    TalliesAreSmall(After(run, Initial(local)));
  }

  /** After any run at all of one process, every profile event of the local device was published with
      the workspace key present, decided on an earlier history in which its active membership was the
      one granted by a canonical claim it holds the receipt of. */
  lemma ProfilesNeedKeyAndMembership(run: seq<Action>, local: DeviceId, i: nat, kind: Kind) returns (k: nat)
    requires IsRun(run, Initial(local))
    requires var s := After(run, Initial(local)); i < |s.log| && Own(s.log[i], local, kind)
    ensures var s := After(run, Initial(local));
            && s.key
            && k < |s.published| && s.published[k].index == i && s.published[k].from <= i
            && s.published[k].at in s.receipts
            && GrantedBy(Materialize(s.log[..s.published[k].from]), local, s.receipts[s.published[k].at].receipt)
  {
    RunKeeps(run, Initial(local));
    var s := After(run, Initial(local));
    assert Listed(s, i);
    k :| 0 <= k < |s.published| && s.published[k].index == i && s.published[k].from <= i;
    assert DecidedOn(s, s.published[k].at, s.published[k].from);
  }
}
