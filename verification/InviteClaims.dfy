/** Accepting a workspace invite claim, run by any number of processes on one event store.

    A process reads the event ids, then the context, then the ids again; it decides on the context
    and appends three events only while the stored ids are still the ones it first read. A changed
    history starts the next of at most eight attempts. Other writers may append between any two of
    these steps.
 */
module InviteClaims {
  import opened Events
  import opened Workspace
  import opened Materialization
  import opened StateMeaning

  const RetryLimit: nat := 8

  datatype Claim = Claim(inviteId: InviteId, requestId: RequestId, device: DeviceId, displayName: string)

  datatype Expiry = Current | Expired | Malformed

  datatype Refusal =
    | InviteNotFound | NotClaimable | AlreadyClaimed | InviteExpired | InvalidClaim | NameRequired
    | Unauthorized | KeyUnavailable

  datatype Decision =
    | Refuse(reason: Refusal)
    | Replay(memberEvent: EventId, claimEvent: EventId, role: Role)
    | Accept(role: Role)

  // ---------- deciding on a materialized history ----------

  predicate SameClaim(e: Event, c: Claim) {
    e.body == InviteClaimed(c.inviteId, c.device, c.requestId)
  }

  predicate ClaimCollides(e: Event, c: Claim) {
    && e.body.InviteClaimed? && !SameClaim(e, c)
    && ((e.body.inviteId == c.inviteId && e.body.claimant == c.device) || e.body.requestId == c.requestId)
  }

  predicate RequestCollides(e: Event, c: Claim, known: bool) {
    && e.body.JoinRequestRecorded? && e.body.requestId == c.requestId
    && (!known || e.body.requester != c.device
        || e.body.sourceType != "invite_claim" || e.body.sourceInviteId != c.inviteId)
  }

  function Repeats(c: Claim): Event -> bool { e => SameClaim(e, c) }

  function Inviting(d: DeviceId): Event -> bool { e => InvitesDevice(e, d) }

  predicate Collides(events: seq<Event>, c: Claim) {
    var known := FindFirst(events, Repeats(c)).Some?;
    exists e :: e in events && (ClaimCollides(e, c) || RequestCollides(e, c, known))
  }

  predicate InvitesDevice(e: Event, d: DeviceId) {
    e.body.MemberInvited? && e.body.invitee == d
  }

  /** An exact retry of the claim at `at`: answered only while the membership it granted is current. */
  function DecideReplay(ctx: Context, c: Claim, at: nat): Decision
    requires at < |ctx.events| && c.inviteId in ctx.state.invites
  {
    var granting := FindLast(ctx.events[..at], Inviting(c.device));
    if c.device !in ctx.state.members || granting.None? then Refuse(AlreadyClaimed)
    else
      var member := ctx.events[granting.value].id;
      if ctx.state.members[c.device].membershipEvent != member then Refuse(AlreadyClaimed)
      else Replay(member, ctx.events[at].id, ctx.state.invites[c.inviteId].role)
  }

  function Decide(ctx: Context, c: Claim, expiry: Expiry): Decision {
    if c.inviteId !in ctx.state.invites then Refuse(InviteNotFound)
    else
      var invite := ctx.state.invites[c.inviteId];
      var existing := FindFirst(ctx.events, Repeats(c));
      if invite.capabilityKey == "" then Refuse(NotClaimable)
      else if Collides(ctx.events, c) then Refuse(AlreadyClaimed)
      else if existing.Some? then DecideReplay(ctx, c, existing.value)
      else if expiry == Malformed then Refuse(InvalidClaim)
      else if expiry == Expired then Refuse(InviteExpired)
      else if invite.status == Revoked then Refuse(NotClaimable)
      else if invite.claimCount >= invite.maxClaims || invite.status == Accepted || c.device in ctx.state.members
      then Refuse(AlreadyClaimed)
      else if c.displayName == "" then Refuse(NameRequired)
      else Accept(invite.role)
  }

  // ---------- what a decision means ----------

  /** No applied event claims under this request id, or this invite for this device, and none records
      a request under this id. */
  ghost predicate NoTrace(events: seq<Event>, c: Claim) {
    forall e :: e in events ==>
      && !(e.body.InviteClaimed? && (e.body.requestId == c.requestId || (e.body.inviteId == c.inviteId && e.body.claimant == c.device)))
      && !(e.body.JoinRequestRecorded? && e.body.requestId == c.requestId)
  }

  /** A claimable invite that this claim left no trace of. */
  ghost predicate Untraced(ctx: Context, c: Claim) {
    c.inviteId in ctx.state.invites && ctx.state.invites[c.inviteId].capabilityKey != "" && NoTrace(ctx.events, c)
  }

  lemma NoTraceMeans(ctx: Context, c: Claim)
    ensures NoTrace(ctx.events, c) <==> !Collides(ctx.events, c) && FindFirst(ctx.events, Repeats(c)).None?
  {
    var first := FindFirst(ctx.events, Repeats(c));
    if first.Some? {
      assert ctx.events[first.value] in ctx.events && Repeats(c)(ctx.events[first.value]);
    } else {
      forall e | e in ctx.events ensures !SameClaim(e, c) {
        assert !Repeats(c)(e);
      }
      NoTraceWithoutRepeats(ctx.events, c);
    }
  }

  lemma NoTraceWithoutRepeats(events: seq<Event>, c: Claim)
    requires (forall e :: e in events ==> !SameClaim(e, c)) && FindFirst(events, Repeats(c)).None?
    ensures NoTrace(events, c) <==> !Collides(events, c)
  {
    if !Collides(events, c) {
      forall e | e in events
        ensures !(e.body.InviteClaimed? && (e.body.requestId == c.requestId || (e.body.inviteId == c.inviteId && e.body.claimant == c.device)))
        ensures !(e.body.JoinRequestRecorded? && e.body.requestId == c.requestId)
      {
        assert !ClaimCollides(e, c) && !RequestCollides(e, c, false);
      }
    }
    if NoTrace(events, c) {
      forall e | e in events ensures !ClaimCollides(e, c) && !RequestCollides(e, c, false) {
      }
    }
  }

  /** What stands in the way of a claim: another claim of its request, or of its invite by its device; or
      a request under its id that is not its own. Its own request is one only if the very claim was
      made before. */
  lemma CollidesExactly(events: seq<Event>, c: Claim)
    ensures Collides(events, c) <==>
            || (exists e :: e in events && e.body.InviteClaimed? && e.body != InviteClaimed(c.inviteId, c.device, c.requestId)
                            && (e.body.requestId == c.requestId || (e.body.inviteId == c.inviteId && e.body.claimant == c.device)))
            || (exists e :: e in events && e.body.JoinRequestRecorded? && e.body.requestId == c.requestId
                            && !(&& e.body.requester == c.device && e.body.sourceType == "invite_claim" && e.body.sourceInviteId == c.inviteId
                                 && exists x :: x in events && x.body == InviteClaimed(c.inviteId, c.device, c.requestId)))
  {
    var first := FindFirst(events, Repeats(c));
    if first.Some? {
      assert Repeats(c)(events[first.value]) && events[first.value] in events;
    } else {
      forall e | e in events ensures !SameClaim(e, c) {
        assert !Repeats(c)(e);
      }
    }
  }

  /** A new claim is accepted exactly when the invite is claimable, not expired, open and below its
      limit, the device is no member, the claim has a name and no applied event traces it. */
  lemma AcceptsExactly(ctx: Context, c: Claim, expiry: Expiry, role: Role)
    ensures Decide(ctx, c, expiry) == Accept(role) <==>
            && Untraced(ctx, c) && expiry == Current && c.device !in ctx.state.members && c.displayName != ""
            && var v := ctx.state.invites[c.inviteId];
               v.status == Invited && v.claimCount < v.maxClaims && v.role == role
  {
    NoTraceMeans(ctx, c);
  }

  lemma AcceptsOnlyCurrent(ctx: Context, c: Claim, expiry: Expiry)
    ensures Decide(ctx, c, expiry).Accept? ==> expiry == Current
  {
  }

  /** And why it is refused: expiry before revocation, revocation before exhaustion, exhaustion before
      the name. */
  lemma RefusesExactly(ctx: Context, c: Claim, expiry: Expiry)
    ensures Decide(ctx, c, expiry) == Refuse(InviteNotFound) <==> c.inviteId !in ctx.state.invites
    ensures Decide(ctx, c, expiry) == Refuse(InvalidClaim) <==> Untraced(ctx, c) && expiry == Malformed
    ensures Decide(ctx, c, expiry) == Refuse(InviteExpired) <==> Untraced(ctx, c) && expiry == Expired
    ensures Decide(ctx, c, expiry) == Refuse(NotClaimable) <==>
            c.inviteId in ctx.state.invites
            && (ctx.state.invites[c.inviteId].capabilityKey == ""
                || (Untraced(ctx, c) && expiry == Current && ctx.state.invites[c.inviteId].status == Revoked))
    ensures Untraced(ctx, c) && expiry == Current && ctx.state.invites[c.inviteId].status != Revoked ==>
            (Decide(ctx, c, expiry) == Refuse(AlreadyClaimed) <==>
               || ctx.state.invites[c.inviteId].claimCount >= ctx.state.invites[c.inviteId].maxClaims
               || ctx.state.invites[c.inviteId].status == Accepted || c.device in ctx.state.members)
    ensures Decide(ctx, c, expiry) == Refuse(NameRequired) <==>
            && Untraced(ctx, c) && expiry == Current && c.displayName == "" && c.device !in ctx.state.members
            && var v := ctx.state.invites[c.inviteId]; v.status == Invited && v.claimCount < v.maxClaims
  {
    NoTraceMeans(ctx, c);
  }

  /** The claim was made before, under this event, and the device still holds the membership it was
      given then. */
  ghost predicate ClaimedBefore(ctx: Context, c: Claim, memberEvent: EventId, claimEvent: EventId) {
    exists at: nat, k: nat :: k < at < |ctx.events| && FirstRepeat(ctx.events, c, at) && LastInvitation(ctx.events, c.device, k, at)
                             && ctx.events[at].id == claimEvent && ctx.events[k].id == memberEvent
  }

  ghost predicate FirstRepeat(events: seq<Event>, c: Claim, at: nat)
    requires at < |events|
  {
    events[at].body == InviteClaimed(c.inviteId, c.device, c.requestId)
    && forall j :: 0 <= j < at ==> events[j].body != InviteClaimed(c.inviteId, c.device, c.requestId)
  }

  ghost predicate LastInvitation(events: seq<Event>, d: DeviceId, k: nat, at: nat)
    requires k < at < |events|
  {
    events[k].body.MemberInvited? && events[k].body.invitee == d
    && forall j :: k < j < at ==> !(events[j].body.MemberInvited? && events[j].body.invitee == d)
  }

  /** A replay is always truthful. */
  lemma ReplaysTruly(ctx: Context, c: Claim, expiry: Expiry, memberEvent: EventId, claimEvent: EventId, role: Role)
    requires Decide(ctx, c, expiry) == Replay(memberEvent, claimEvent, role)
    ensures ClaimedBefore(ctx, c, memberEvent, claimEvent)
    ensures c.device in ctx.state.members && ctx.state.members[c.device].membershipEvent == memberEvent
    ensures c.inviteId in ctx.state.invites && ctx.state.invites[c.inviteId].role == role
  {
    var at := FindFirst(ctx.events, Repeats(c)).value;
    var k := FindLast(ctx.events[..at], Inviting(c.device)).value;
    assert Repeats(c)(ctx.events[at]) && forall j :: 0 <= j < at ==> !Repeats(c)(ctx.events[j]);
    assert Inviting(c.device)(ctx.events[..at][k]);
    forall j | k < j < at ensures !InvitesDevice(ctx.events[j], c.device) {
      assert !Inviting(c.device)(ctx.events[..at][j]);
    }
    assert FirstRepeat(ctx.events, c, at) && LastInvitation(ctx.events, c.device, k, at);
  }

  datatype Minted = Minted(request: EventId, member: EventId, claim: EventId)

  /** The three events of an accepted claim, each the only parent of the next. */
  function Triple(ctx: Context, c: Claim, local: DeviceId, role: Role, ids: Minted): (t: seq<Event>)
    ensures |t| == 3
  {
    [Event(ids.request, local, Heads(ctx.events),
           JoinRequestRecorded(c.requestId, c.device, c.displayName, "invite_claim", c.inviteId, "preapproved")),
     Event(ids.member, local, [ids.request], MemberInvited(c.device, role)),
     Event(ids.claim, local, [ids.member], InviteClaimed(c.inviteId, c.device, c.requestId))]
  }

  predicate TripleAuthorized(s: State, t: seq<Event>)
    requires |t| == 3
  {
    && Authorized(s, t[0])
    && Authorized(Apply(s, t[0]), t[1])
    && Authorized(Apply(Apply(s, t[0]), t[1]), t[2])
  }

  /** Event ids are digests of their content: they never repeat an id the history already mentions. */
  predicate FreshFor(ids: Minted, log: seq<Event>) {
    && ids.request != ids.member && ids.member != ids.claim && ids.request != ids.claim
    && forall e :: e in log ==> e.id !in {ids.request, ids.member, ids.claim}
                                && forall p :: p in e.parents ==> p !in {ids.request, ids.member, ids.claim}
  }

  // ---------- the processes ----------

  /** One lost attempt: the history length at the first read and when the change was noticed. */
  datatype Span = Span(start: nat, end: nat)

  datatype Outcome =
    | Granted(memberEvent: EventId, claimEvent: EventId)
    | Replayed(memberEvent: EventId, claimEvent: EventId)
    | Refused(reason: Refusal)
    | HistoryChanged

  datatype Phase =
    | Begun
    | HaveIds(ids: seq<EventId>)
    | HaveContext(ids: seq<EventId>, seen: seq<Event>)
    | Checked(ids: seq<EventId>, seen: seq<Event>)
    | Ready(ids: seq<EventId>, seen: seq<Event>, role: Role, minted: Minted)
    | Done(outcome: Outcome)

  datatype Process = Process(claim: Claim, phase: Phase, lost: seq<Span>)

  /** A claim appended by one of these processes: its triple starts at position `at`. */
  datatype Grant = Grant(at: nat, claim: Claim, role: Role, minted: Minted)

  datatype System = System(local: DeviceId, log: seq<Event>, procs: map<nat, Process>, grants: seq<Grant>)

  datatype Action =
    | Begin(p: nat, claim: Claim)
    | ReadIds(p: nat)
    | ReadContext(p: nat)
    | Recheck(p: nat)
    | Validate(p: nat, expiry: Expiry, sealed: bool, minted: Minted)
    | Append(p: nat)
    | OtherAppend(e: Event)

  function Lose(q: Process, start: nat, end: nat): Process {
    var lost := q.lost + [Span(start, end)];
    q.(lost := lost, phase := if |lost| == RetryLimit then Done(HistoryChanged) else Begun)
  }

  /** Any other writer: any event under an id that is not stored yet. */
  predicate OtherMayAppend(log: seq<Event>, e: Event) {
    forall x :: x in log ==> x.id != e.id
  }

  predicate Enabled(s: System, a: Action) {
    match a
    case Begin(p, _) => p !in s.procs
    case ReadIds(p) => p in s.procs && s.procs[p].phase.Begun?
    case ReadContext(p) => p in s.procs && s.procs[p].phase.HaveIds?
    case Recheck(p) => p in s.procs && s.procs[p].phase.HaveContext?
    case Validate(p, _, _, minted) =>
      p in s.procs && s.procs[p].phase.Checked? && FreshFor(minted, s.procs[p].phase.seen)
    case Append(p) => p in s.procs && s.procs[p].phase.Ready?
    case OtherAppend(e) => OtherMayAppend(s.log, e)
  }

  function Batch(local: DeviceId, q: Process): (t: seq<Event>)
    requires q.phase.Ready?
    ensures |t| == 3
  {
    Triple(Materialize(q.phase.seen), q.claim, local, q.phase.role, q.phase.minted)
  }

  function Validated(local: DeviceId, q: Process, expiry: Expiry, sealed: bool, minted: Minted): Phase
    requires q.phase.Checked?
  {
    var ctx := Materialize(q.phase.seen);
    match Decide(ctx, q.claim, expiry)
    case Refuse(reason) => Done(Refused(reason))
    case Replay(m, c, _) => Done(Replayed(m, c))
    case Accept(role) =>
      if !sealed then Done(Refused(KeyUnavailable))
      else if !TripleAuthorized(ctx.state, Triple(ctx, q.claim, local, role, minted)) then Done(Refused(Unauthorized))
      else Ready(q.phase.ids, q.phase.seen, role, minted)
  }

  /** A batch is prepared exactly when the claim is accepted, the response could be sealed and all three
      events are authorized in turn. */
  lemma PreparedExactly(local: DeviceId, q: Process, expiry: Expiry, sealed: bool, minted: Minted)
    requires q.phase.Checked?
    ensures var ctx := Materialize(q.phase.seen); var d := Decide(ctx, q.claim, expiry);
            Validated(local, q, expiry, sealed, minted).Ready? <==>
            d.Accept? && sealed && TripleAuthorized(ctx.state, Triple(ctx, q.claim, local, d.role, minted))
  {
    var ctx := Materialize(q.phase.seen);
    var d := Decide(ctx, q.claim, expiry);
    PreparedFrom(local, q, expiry, sealed, minted, ctx, d);
  }

  lemma PreparedFrom(local: DeviceId, q: Process, expiry: Expiry, sealed: bool, minted: Minted, ctx: Context, d: Decision)
    requires q.phase.Checked? && ctx == Materialize(q.phase.seen) && d == Decide(ctx, q.claim, expiry)
    ensures Validated(local, q, expiry, sealed, minted) ==
            match d
            case Refuse(reason) => Done(Refused(reason))
            case Replay(m, e, _) => Done(Replayed(m, e))
            case Accept(role) =>
              if !sealed then Done(Refused(KeyUnavailable))
              else if !TripleAuthorized(ctx.state, Triple(ctx, q.claim, local, role, minted)) then Done(Refused(Unauthorized))
              else Phase.Ready(q.phase.ids, q.phase.seen, role, minted)
  {
  }

  function Granting(s: System, p: nat): System
    requires p in s.procs && s.procs[p].phase.Ready?
  {
    var q := s.procs[p];
    s.(log := s.log + Batch(s.local, q),
       procs := s.procs[p := q.(phase := Done(Granted(q.phase.minted.member, q.phase.minted.claim)))],
       grants := s.grants + [Grant(|s.log|, q.claim, q.phase.role, q.phase.minted)])
  }

  function Perform(s: System, a: Action): System
    requires Enabled(s, a)
  {
    match a
    case Begin(p, c) => s.(procs := s.procs[p := Process(c, Begun, [])])
    case ReadIds(p) => s.(procs := s.procs[p := s.procs[p].(phase := HaveIds(Ids(s.log)))])
    case ReadContext(p) =>
      s.(procs := s.procs[p := s.procs[p].(phase := HaveContext(s.procs[p].phase.ids, s.log))])
    case Recheck(p) =>
      var q := s.procs[p];
      if Ids(s.log) == q.phase.ids
      then s.(procs := s.procs[p := q.(phase := Checked(q.phase.ids, q.phase.seen))])
      else s.(procs := s.procs[p := Lose(q, |q.phase.ids|, |s.log|)])
    case Validate(p, expiry, sealed, minted) =>
      var q := s.procs[p];
      s.(procs := s.procs[p := q.(phase := Validated(s.local, q, expiry, sealed, minted))])
    case Append(p) =>
      var q := s.procs[p];
      if Ids(s.log) == q.phase.ids then Granting(s, p)
      else s.(procs := s.procs[p := Lose(q, |q.phase.ids|, |s.log|)])
    case OtherAppend(e) => s.(log := s.log + [e])
  }

  /** Every action of the run is enabled where it happens. */
  ghost predicate IsRun(s: System, run: seq<Action>)
    decreases |run|
  {
    run == [] || (Enabled(s, run[0]) && IsRun(Perform(s, run[0]), run[1..]))
  }

  ghost function After(s: System, run: seq<Action>): System
    requires IsRun(s, run)
    decreases |run|
  {
    if run == [] then s else After(Perform(s, run[0]), run[1..])
  }

  // ---------- an accepted claim on a history ----------

  /** The claim is accepted on `log`, and its three events are authorized under the ids `minted`. */
  ghost predicate AcceptedOn(log: seq<Event>, c: Claim, local: DeviceId, expiry: Expiry, role: Role, minted: Minted) {
    && FreshFor(minted, log)
    && Decide(Materialize(log), c, expiry) == Accept(role)
    && TripleAuthorized(Materialize(log).state, Triple(Materialize(log), c, local, role, minted))
  }

  ghost function WithTriple(log: seq<Event>, c: Claim, local: DeviceId, role: Role, minted: Minted): seq<Event> {
    log + Triple(Materialize(log), c, local, role, minted)
  }

  function AfterThree(s: State, t: seq<Event>): State
    requires |t| == 3
  {
    Apply(Apply(Apply(s, t[0]), t[1]), t[2])
  }

  lemma ThreeSnocs<T>(s: seq<T>, t: seq<T>)
    requires |t| == 3
    ensures s + [t[0]] + [t[1]] + [t[2]] == s + t
  {
  }

  lemma PassThree(c: Context, t: seq<Event>)
    requires |t| == 3
    ensures Pass(c, t) == Advance(Advance(Advance(c, t[0]), t[1]), t[2])
  {
    ThreeSnocs([], t);
    assert [] + t == t;
    PassSnoc(c, [], t[0]);
    PassSnoc(c, [] + [t[0]], t[1]);
    PassSnoc(c, [] + [t[0]] + [t[1]], t[2]);
  }

  /** Three new events, each the only parent of the next, the first on applied parents. */
  ghost predicate NewChain(c: Context, t: seq<Event>) {
    && |t| == 3
    && t[0].id != t[1].id && t[1].id != t[2].id && t[0].id != t[2].id
    && (forall k :: 0 <= k < 3 ==> t[k].id !in IdSet(c.events))
    && (forall p :: p in t[0].parents ==> p in IdSet(c.events))
    && t[1].parents == [t[0].id] && t[2].parents == [t[1].id]
  }

  /** An authorized chain is applied in one pass. */
  lemma PassOfChain(c: Context, t: seq<Event>)
    requires NewChain(c, t) && TripleAuthorized(c.state, t)
    ensures Pass(c, t) == Context(AfterThree(c.state, t), c.events + t)
  {
    PassThree(c, t);
    IdsAfter(c.events, t[0]);
    IdsAfter(c.events + [t[0]], t[1]);
    assert Advance(c, t[0]) == Applied(c, t[0]);
    assert Advance(Applied(c, t[0]), t[1]) == Applied(Applied(c, t[0]), t[1]);
    ThreeSnocs(c.events, t);
  }

  lemma ChainOnHeadsIsLate(c: Context, t: seq<Event>)
    requires Sound(c) && NewChain(c, t) && t[0].parents == Heads(c.events)
    ensures Late(c, t)
  {
    HeadsFacts(c.events);
    forall k, e | 0 <= k < |t| && e in c.events ensures t[k].id != e.id {
      assert e.id in IdSet(c.events);
    }
    ChainIsLate(c, t);
  }

  lemma MintedAreNew(log: seq<Event>, minted: Minted)
    requires FreshFor(minted, log)
    ensures var ids := IdSet(Materialize(log).events);
            minted.request !in ids && minted.member !in ids && minted.claim !in ids
  {
    Materialized(log);
  }

  lemma TripleIsChain(before: Context, c: Claim, local: DeviceId, role: Role, minted: Minted)
    requires minted.request != minted.member && minted.member != minted.claim && minted.request != minted.claim
    requires var ids := IdSet(before.events); minted.request !in ids && minted.member !in ids && minted.claim !in ids
    requires forall p :: p in Heads(before.events) ==> p in IdSet(before.events)
    ensures NewChain(before, Triple(before, c, local, role, minted))
  {
    var t := Triple(before, c, local, role, minted);
    assert t[0].id == minted.request && t[1].id == minted.member && t[2].id == minted.claim;
  }

  lemma TripleIsNewChain(log: seq<Event>, c: Claim, local: DeviceId, role: Role, minted: Minted)
    requires FreshFor(minted, log)
    ensures Sound(Materialize(log)) && NewChain(Materialize(log), Triple(Materialize(log), c, local, role, minted))
  {
    Materialized(log);
    MintedAreNew(log, minted);
    HeadsFacts(Materialize(log).events);
    TripleIsChain(Materialize(log), c, local, role, minted);
  }

  /** The triple is written on the heads, so it is applied after everything it was decided on. */
  lemma TripleIsLate(log: seq<Event>, c: Claim, local: DeviceId, role: Role, minted: Minted)
    requires FreshFor(minted, log)
    requires TripleAuthorized(Materialize(log).state, Triple(Materialize(log), c, local, role, minted))
    ensures var before := Materialize(log); var t := Triple(before, c, local, role, minted);
            Late(before, t) && Pass(before, t) == Context(AfterThree(before.state, t), before.events + t)
  {
    TripleIsNewChain(log, c, local, role, minted);
    ChainOnHeadsIsLate(Materialize(log), Triple(Materialize(log), c, local, role, minted));
    PassOfChain(Materialize(log), Triple(Materialize(log), c, local, role, minted));
  }

  /** Whatever the history looked like, an accepted triple is applied, right behind everything the
      decision saw. */
  lemma AcceptedIsApplied(log: seq<Event>, c: Claim, local: DeviceId, expiry: Expiry, role: Role, minted: Minted)
    requires AcceptedOn(log, c, local, expiry, role, minted)
    ensures var before := Materialize(log);
            before.events + Triple(before, c, local, role, minted)
            <= Materialize(WithTriple(log, c, local, role, minted)).events
  {
    TripleIsLate(log, c, local, role, minted);
    LateRows(log, Triple(Materialize(log), c, local, role, minted));
  }

  /** If no row of that history had to wait, the triple stays in its place in every later history. */
  lemma AcceptedStays(log: seq<Event>, c: Claim, local: DeviceId, expiry: Expiry, role: Role, minted: Minted, more: seq<Event>)
    requires AcceptedOn(log, c, local, expiry, role, minted) && InOrder(log)
    ensures var before := Materialize(log);
            before.events + Triple(before, c, local, role, minted)
            <= Materialize(WithTriple(log, c, local, role, minted) + more).events
  {
    var t := Triple(Materialize(log), c, local, role, minted);
    TripleIsLate(log, c, local, role, minted);
    PassConcat(Start, log, t);
    FirstPassStays(log + t, more);
  }

  /** An accepted claim meets no applied claim on its request or on its (invite, device). */
  lemma AcceptMeetsNoClaim(ctx: Context, c: Claim, expiry: Expiry, x: Event)
    requires Decide(ctx, c, expiry).Accept? && x in ctx.events
    ensures !IsClaimOf(x, c) && !RequestCollides(x, c, false)
  {
    assert FindFirst(ctx.events, Repeats(c)).None?;
    assert !Repeats(c)(x);
    assert !ClaimCollides(x, c);
  }

  /** A claim of the same request, or of the same invite for the same device. */
  predicate IsClaimOf(e: Event, c: Claim) {
    && e.body.InviteClaimed?
    && (e.body.requestId == c.requestId || (e.body.inviteId == c.inviteId && e.body.claimant == c.device))
  }

  // ---------- applied claims and the limit ----------

  ghost predicate CountCovers(events: seq<Event>, s: State, i: InviteId) {
    if i in s.invites then ClaimsSince(events, i) <= s.invites[i].claimCount <= s.invites[i].maxClaims
    else ClaimsSince(events, i) == 0
  }

  lemma CountStep(events: seq<Event>, s: State, e: Event, i: InviteId)
    requires Authorized(s, e) && CountCovers(events, s, i)
    ensures CountCovers(events + [e], Apply(s, e), i)
  {
    assert (events + [e])[..|events|] == events;
  }

  lemma {:induction false} CountsCover(events: seq<Event>, i: InviteId)
    requires Linear(events)
    ensures CountCovers(events, Fold(Empty, events), i)
  {
    if events != [] {
      var n := |events| - 1;
      LinearPrefix(events, n);
      CountsCover(events[..n], i);
      assert Applicable(Folded(events[..n]), events[n]);
      CountStep(events[..n], Fold(Empty, events[..n]), events[n], i);
      assert events == events[..n] + [events[n]];
    }
  }

  /** On any history at all, whoever wrote it: the claims of an invite applied since its last
      creation are within its limit. */
  lemma AppliedClaimsStayWithinLimit(log: seq<Event>, i: InviteId)
    ensures var ctx := Materialize(log);
            if i in ctx.state.invites
            then ClaimsSince(ctx.events, i) <= ctx.state.invites[i].claimCount <= ctx.state.invites[i].maxClaims
            else ClaimsSince(ctx.events, i) == 0
  {
    Materialized(log);
    CountsCover(Materialize(log).events, i);
  }

  // ---------- what every run keeps ----------

  ghost predicate GrantOk(local: DeviceId, log: seq<Event>, g: Grant) {
    && g.at + 3 <= |log|
    && AcceptedOn(log[..g.at], g.claim, local, Current, g.role, g.minted)
    && log[..g.at + 3] == WithTriple(log[..g.at], g.claim, local, g.role, g.minted)
  }

  ghost predicate GrantsOk(local: DeviceId, log: seq<Event>, grants: seq<Grant>) {
    && (forall k :: 0 <= k < |grants| ==> GrantOk(local, log, grants[k]))
    && InSequence(grants)
  }

  ghost predicate InSequence(grants: seq<Grant>) {
    forall k, l :: 0 <= k < l < |grants| ==> grants[k].at + 3 <= grants[l].at
  }

  lemma GrantStays(local: DeviceId, log: seq<Event>, more: seq<Event>, g: Grant)
    requires GrantOk(local, log, g)
    ensures GrantOk(local, log + more, g)
  {
    assert (log + more)[..g.at] == log[..g.at] && (log + more)[..g.at + 3] == log[..g.at + 3];
  }

  lemma GrantsStay(local: DeviceId, log: seq<Event>, more: seq<Event>, grants: seq<Grant>)
    requires GrantsOk(local, log, grants)
    ensures GrantsOk(local, log + more, grants)
  {
    forall k | 0 <= k < |grants| ensures GrantOk(local, log + more, grants[k]) {
      GrantStays(local, log, more, grants[k]);
    }
  }

  lemma NewGrantOk(local: DeviceId, log: seq<Event>, c: Claim, expiry: Expiry, role: Role, minted: Minted)
    requires AcceptedOn(log, c, local, expiry, role, minted)
    ensures GrantOk(local, WithTriple(log, c, local, role, minted), Grant(|log|, c, role, minted))
  {
    var all := WithTriple(log, c, local, role, minted);
    assert all[..|log|] == log && all[..|log| + 3] == all;
  }

  // ---------- the processes stay in step with the store ----------

  ghost predicate SpansOk(lost: seq<Span>, len: nat) {
    && (forall k :: 0 <= k < |lost| ==> lost[k].start < lost[k].end <= len)
    && (forall k :: 0 <= k < |lost| - 1 ==> lost[k].end <= lost[k + 1].start)
  }

  function Reached(lost: seq<Span>): nat {
    if lost == [] then 0 else lost[|lost| - 1].end
  }

  /** What the process read is what the store held then, and the ids it read again are those of the
      context it decides on. */
  ghost predicate ReadsOk(log: seq<Event>, q: Process) {
    match q.phase
    case HaveIds(ids) => Reached(q.lost) <= |ids| <= |log| && ids == Ids(log[..|ids|])
    case HaveContext(ids, seen) =>
      Reached(q.lost) <= |ids| <= |seen| <= |log| && ids == Ids(log[..|ids|]) && seen == log[..|seen|]
    case Checked(ids, seen) => Reached(q.lost) <= |seen| <= |log| && ids == Ids(seen) && seen == log[..|seen|]
    case Ready(ids, seen, _, _) => Reached(q.lost) <= |seen| <= |log| && ids == Ids(seen) && seen == log[..|seen|]
    case _ => true
  }

  /** A prepared batch was decided on the context the process read. */
  ghost predicate ReadyOk(local: DeviceId, q: Process) {
    q.phase.Ready? ==>
      AcceptedOn(q.phase.seen, q.claim, local, Current, q.phase.role, q.phase.minted)
  }

  ghost predicate ProcessOk(s: System, q: Process) {
    && SpansOk(q.lost, |s.log|)
    && |q.lost| <= RetryLimit
    && (q.phase == Done(HistoryChanged) <==> |q.lost| == RetryLimit)
    && ReadsOk(s.log, q)
    && ReadyOk(s.local, q)
  }

  ghost predicate Inv(s: System) {
    GrantsOk(s.local, s.log, s.grants) && forall p :: p in s.procs ==> ProcessOk(s, s.procs[p])
  }

  lemma InitOk(local: DeviceId)
    ensures Inv(System(local, [], map[], []))
  {
  }

  /** The store only grows, so equal ids at both ends mean an unchanged history in between. */
  lemma UnchangedIdsMeanUnchangedLog(log: seq<Event>, q: Process)
    requires q.phase.Ready? && ReadsOk(log, q) && Ids(log) == q.phase.ids
    ensures q.phase.seen == log
  {
    assert |log| == |q.phase.ids|;
  }

  lemma PrefixesStay(log: seq<Event>, more: seq<Event>, n: nat)
    requires n <= |log|
    ensures (log + more)[..n] == log[..n]
  {
  }

  lemma ReadsKept(log: seq<Event>, more: seq<Event>, q: Process)
    requires ReadsOk(log, q)
    ensures ReadsOk(log + more, q)
  {
    if q.phase.HaveIds? || q.phase.HaveContext? || q.phase.Checked? || q.phase.Ready? {
      PrefixesStay(log, more, |q.phase.ids|);
    }
    if q.phase.HaveContext? || q.phase.Checked? || q.phase.Ready? {
      PrefixesStay(log, more, |q.phase.seen|);
    }
  }

  lemma SpansKept(lost: seq<Span>, len: nat, more: nat)
    requires SpansOk(lost, len)
    ensures SpansOk(lost, len + more)
  {
  }

  /** Growth of the log leaves every process in step. */
  lemma ProcessKept(s: System, q: Process, more: seq<Event>)
    requires ProcessOk(s, q)
    ensures ProcessOk(s.(log := s.log + more), q)
  {
    ReadsKept(s.log, more, q);
    SpansKept(q.lost, |s.log|, |more|);
  }

  // ---------- every step, every run ----------

  lemma LoseKeeps(s: System, q: Process, start: nat)
    requires SpansOk(q.lost, |s.log|) && |q.lost| < RetryLimit
    requires Reached(q.lost) <= start < |s.log|
    ensures ProcessOk(s, Lose(q, start, |s.log|))
  {
  }

  lemma ChangedIdsMeanGrowth(log: seq<Event>, q: Process)
    requires (q.phase.HaveContext? || q.phase.Ready?) && ReadsOk(log, q) && Ids(log) != q.phase.ids
    ensures |q.phase.ids| < |log|
  {
    assert log[..|log|] == log;
  }

  lemma LostAttemptKeeps(s: System, q: Process)
    requires ProcessOk(s, q) && (q.phase.HaveContext? || q.phase.Ready?) && Ids(s.log) != q.phase.ids
    ensures ProcessOk(s, Lose(q, |q.phase.ids|, |s.log|))
  {
    ChangedIdsMeanGrowth(s.log, q);
    LoseKeeps(s, q, |q.phase.ids|);
  }

  /** A process `p` that moved on while the log stayed as it was. */
  lemma MoveKeeps(s: System, p: nat, q: Process)
    requires Inv(s) && ProcessOk(s, q)
    ensures Inv(s.(procs := s.procs[p := q]))
  {
  }

  lemma BeginKeeps(s: System, p: nat, c: Claim)
    requires Inv(s) && Enabled(s, Begin(p, c))
    ensures Inv(Perform(s, Begin(p, c)))
  {
    MoveKeeps(s, p, Process(c, Begun, []));
  }

  lemma ReachedByNow(s: System, q: Process)
    requires SpansOk(q.lost, |s.log|)
    ensures Reached(q.lost) <= |s.log| && s.log[..|s.log|] == s.log
  {
  }

  lemma ReadIdsKeeps(s: System, p: nat)
    requires Inv(s) && Enabled(s, ReadIds(p))
    ensures Inv(Perform(s, ReadIds(p)))
  {
    ReachedByNow(s, s.procs[p]);
    MoveKeeps(s, p, s.procs[p].(phase := HaveIds(Ids(s.log))));
  }

  lemma ReadContextKeeps(s: System, p: nat)
    requires Inv(s) && Enabled(s, ReadContext(p))
    ensures Inv(Perform(s, ReadContext(p)))
  {
    assert ProcessOk(s, s.procs[p]);
    ReachedByNow(s, s.procs[p]);
    MoveKeeps(s, p, s.procs[p].(phase := HaveContext(s.procs[p].phase.ids, s.log)));
  }

  lemma UnchangedIdsAreSeen(log: seq<Event>, q: Process)
    requires q.phase.HaveContext? && ReadsOk(log, q) && Ids(log) == q.phase.ids
    ensures q.phase.seen == log
  {
    assert |log| == |q.phase.ids| && log[..|log|] == log;
  }

  lemma RecheckKeeps(s: System, p: nat)
    requires Inv(s) && Enabled(s, Recheck(p))
    ensures Inv(Perform(s, Recheck(p)))
  {
    var q := s.procs[p];
    assert ProcessOk(s, q);
    if Ids(s.log) != q.phase.ids {
      LostAttemptKeeps(s, q);
      MoveKeeps(s, p, Lose(q, |q.phase.ids|, |s.log|));
    } else {
      UnchangedIdsAreSeen(s.log, q);
      MoveKeeps(s, p, q.(phase := Checked(q.phase.ids, q.phase.seen)));
    }
  }

  lemma ValidateKeeps(s: System, q: Process, expiry: Expiry, sealed: bool, minted: Minted)
    requires ProcessOk(s, q) && q.phase.Checked? && FreshFor(minted, q.phase.seen)
    ensures ProcessOk(s, q.(phase := Validated(s.local, q, expiry, sealed, minted)))
  {
    var r := q.(phase := Validated(s.local, q, expiry, sealed, minted));
    AcceptsOnlyCurrent(Materialize(q.phase.seen), q.claim, expiry);
    if r.phase.Ready? {
      assert AcceptedOn(r.phase.seen, r.claim, s.local, expiry, r.phase.role, r.phase.minted);
    }
  }

  /** The append happens only on the very history the decision was made on. */
  lemma AppendOnDecidedHistory(s: System, p: nat)
    requires Inv(s) && Enabled(s, Append(p)) && Perform(s, Append(p)).log != s.log
    ensures var q := s.procs[p];
            && q.phase.seen == s.log
            && AcceptedOn(s.log, q.claim, s.local, Current, q.phase.role, q.phase.minted)
            && Perform(s, Append(p)).log ==
               s.log + Triple(Materialize(s.log), q.claim, s.local, q.phase.role, q.phase.minted)
  {
    UnchangedIdsMeanUnchangedLog(s.log, s.procs[p]);
  }

  lemma GrantsSnoc(local: DeviceId, log: seq<Event>, grants: seq<Grant>, g: Grant)
    requires GrantsOk(local, log, grants) && GrantOk(local, log, g)
    requires forall k :: 0 <= k < |grants| ==> grants[k].at + 3 <= g.at
    ensures GrantsOk(local, log, grants + [g])
  {
    InSequenceSnoc(grants, g);
    forall k | 0 <= k < |grants + [g]| ensures GrantOk(local, log, (grants + [g])[k]) {
      assert (grants + [g])[k] == if k < |grants| then grants[k] else g;
    }
  }

  lemma InSequenceSnoc(grants: seq<Grant>, g: Grant)
    requires InSequence(grants) && forall k :: 0 <= k < |grants| ==> grants[k].at + 3 <= g.at
    ensures InSequence(grants + [g])
  {
  }

  lemma GrantsEndBy(local: DeviceId, log: seq<Event>, grants: seq<Grant>)
    requires GrantsOk(local, log, grants)
    ensures forall k :: 0 <= k < |grants| ==> grants[k].at + 3 <= |log|
  {
    forall k | 0 <= k < |grants| ensures grants[k].at + 3 <= |log| {
      assert GrantOk(local, log, grants[k]);
    }
  }

  lemma NewGrant(local: DeviceId, log: seq<Event>, grants: seq<Grant>, c: Claim, expiry: Expiry, role: Role, minted: Minted)
    requires GrantsOk(local, log, grants) && AcceptedOn(log, c, local, expiry, role, minted)
    ensures GrantsOk(local, WithTriple(log, c, local, role, minted), grants + [Grant(|log|, c, role, minted)])
  {
    GrantsEndBy(local, log, grants);
    GrantsStay(local, log, Triple(Materialize(log), c, local, role, minted), grants);
    NewGrantOk(local, log, c, expiry, role, minted);
    GrantsSnoc(local, WithTriple(log, c, local, role, minted), grants, Grant(|log|, c, role, minted));
  }

  lemma AppendGrants(s: System, p: nat)
    requires p in s.procs && s.procs[p].phase.Ready? && Ids(s.log) == s.procs[p].phase.ids
    requires Inv(s)
    ensures GrantsOk(s.local, Granting(s, p).log, Granting(s, p).grants)
  {
    var q := s.procs[p];
    assert ProcessOk(s, q);
    UnchangedIdsMeanUnchangedLog(s.log, q);
    var expiry := Current;
    NewGrant(s.local, s.log, s.grants, q.claim, expiry, q.phase.role, q.phase.minted);
  }

  lemma GrantingIs(s: System, p: nat)
    requires p in s.procs && s.procs[p].phase.Ready?
    ensures var t := Granting(s, p);
            && t.local == s.local && t.log == s.log + Batch(s.local, s.procs[p]) && t.procs.Keys == s.procs.Keys
            && (forall k :: k in s.procs && k != p ==> t.procs[k] == s.procs[k])
            && t.procs[p].phase.Done? && t.procs[p].phase != Done(HistoryChanged) && t.procs[p].lost == s.procs[p].lost
  {
  }

  lemma AppendedKeeps(s: System, p: nat)
    requires p in s.procs && s.procs[p].phase.Ready? && Ids(s.log) == s.procs[p].phase.ids
    requires Inv(s)
    ensures Inv(Granting(s, p))
  {
    AppendGrants(s, p);
    GrantingIs(s, p);
    GrowthKeeps(s, Granting(s, p), p, Batch(s.local, s.procs[p]));
  }

  lemma RejectedAppendIs(s: System, p: nat)
    requires p in s.procs && s.procs[p].phase.Ready? && Ids(s.log) != s.procs[p].phase.ids
    ensures Perform(s, Append(p)) == s.(procs := s.procs[p := Lose(s.procs[p], |s.procs[p].phase.ids|, |s.log|)])
  {
  }

  lemma RejectedAppendKeeps(s: System, p: nat)
    requires p in s.procs && s.procs[p].phase.Ready? && Ids(s.log) != s.procs[p].phase.ids
    requires Inv(s)
    ensures Inv(s.(procs := s.procs[p := Lose(s.procs[p], |s.procs[p].phase.ids|, |s.log|)]))
  {
    LostAttemptKeeps(s, s.procs[p]);
    MoveKeeps(s, p, Lose(s.procs[p], |s.procs[p].phase.ids|, |s.log|));
  }

  lemma ValidateStepKeeps(s: System, p: nat, expiry: Expiry, sealed: bool, minted: Minted)
    requires Inv(s) && Enabled(s, Validate(p, expiry, sealed, minted))
    ensures Inv(Perform(s, Validate(p, expiry, sealed, minted)))
  {
    var q := s.procs[p];
    ValidateKeeps(s, q, expiry, sealed, minted);
    MoveKeeps(s, p, q.(phase := Validated(s.local, q, expiry, sealed, minted)));
  }

  lemma DoneIsOk(t: System, q: Process)
    requires q.phase.Done? && q.phase != Done(HistoryChanged) && SpansOk(q.lost, |t.log|) && |q.lost| < RetryLimit
    ensures ProcessOk(t, q)
  {
  }

  lemma SameStoreIsOk(s: System, t: System, q: Process)
    requires ProcessOk(s, q) && t.log == s.log && t.local == s.local
    ensures ProcessOk(t, q)
  {
  }

  /** The processes other than `p` when the log grows by `more`. */
  lemma GrowthKeeps(s: System, t: System, p: nat, more: seq<Event>)
    requires forall k :: k in s.procs ==> ProcessOk(s, s.procs[k])
    requires t.local == s.local && t.log == s.log + more && GrantsOk(t.local, t.log, t.grants)
    requires t.procs.Keys == s.procs.Keys && p in s.procs
    requires forall k :: k in s.procs && k != p ==> t.procs[k] == s.procs[k]
    requires t.procs[p].phase.Done? && t.procs[p].phase != Done(HistoryChanged) && t.procs[p].lost == s.procs[p].lost
    requires s.procs[p].phase.Ready?
    ensures Inv(t)
  {
    forall k | k in t.procs
      ensures ProcessOk(t, t.procs[k])
    {
      ProcessKept(s, s.procs[k], more);
      if k == p {
        DoneIsOk(t, t.procs[p]);
      } else {
        SameStoreIsOk(s.(log := s.log + more), t, s.procs[k]);
      }
    }
  }

  lemma OtherKeeps(s: System, e: Event)
    requires Inv(s) && OtherMayAppend(s.log, e)
    ensures Inv(s.(log := s.log + [e]))
  {
    GrantsStay(s.local, s.log, [e], s.grants);
    forall k | k in s.procs
      ensures ProcessOk(s.(log := s.log + [e]), s.procs[k])
    {
      ProcessKept(s, s.procs[k], [e]);
    }
  }

  lemma StepKeeps(s: System, a: Action)
    requires Inv(s) && Enabled(s, a)
    ensures Inv(Perform(s, a))
  {
    match a
    case OtherAppend(e) => OtherKeeps(s, e);
    case Append(p) =>
      if Ids(s.log) == s.procs[p].phase.ids {
        AppendedKeeps(s, p);
      } else {
        RejectedAppendKeeps(s, p);
        RejectedAppendIs(s, p);
      }
    case Recheck(p) => RecheckKeeps(s, p);
    case Validate(p, x, sealed, m) => ValidateStepKeeps(s, p, x, sealed, m);
    case Begin(p, c) => BeginKeeps(s, p, c);
    case ReadIds(p) => ReadIdsKeeps(s, p);
    case ReadContext(p) => ReadContextKeeps(s, p);
  }

  lemma {:induction false} RunKeeps(s: System, run: seq<Action>)
    requires Inv(s) && IsRun(s, run)
    ensures Inv(After(s, run))
    decreases |run|
  {
    if run != [] {
      StepKeeps(s, run[0]);
      RunKeeps(Perform(s, run[0]), run[1..]);
    }
  }

  /** The three events stand together, each the only parent of the next. */
  ghost predicate IsChain(log: seq<Event>, g: Grant) {
    && g.at + 3 <= |log|
    && log[g.at].body.JoinRequestRecorded? && log[g.at].body.requestId == g.claim.requestId
    && log[g.at + 1].body == MemberInvited(g.claim.device, g.role) && log[g.at + 1].parents == [log[g.at].id]
    && log[g.at + 2].body == InviteClaimed(g.claim.inviteId, g.claim.device, g.claim.requestId)
    && log[g.at + 2].parents == [log[g.at + 1].id]
  }

  lemma GrantIsChain(local: DeviceId, log: seq<Event>, g: Grant)
    requires GrantOk(local, log, g)
    ensures IsChain(log, g)
  {
    var past := log[..g.at];
    var t := Triple(Materialize(past), g.claim, local, g.role, g.minted);
    var all := past + t;
    assert all[g.at] == t[0] && all[g.at + 1] == t[1] && all[g.at + 2] == t[2];
    assert log[..g.at + 3][g.at] == log[g.at] && log[..g.at + 3][g.at + 1] == log[g.at + 1]
           && log[..g.at + 3][g.at + 2] == log[g.at + 2];
  }

  /** What a grant guarantees on its own: it meets no applied claim, and its claim is applied within
      the limit of the invite. */
  ghost predicate SoundGrant(log: seq<Event>, g: Grant)
    requires g.at + 3 <= |log|
  {
    var before, after := Materialize(log[..g.at]), Materialize(log[..g.at + 3]);
    && (forall x :: x in before.events ==> !IsClaimOf(x, g.claim))
    && before.events + log[g.at..g.at + 3] <= after.events
    && g.claim.inviteId in before.state.invites
    && ClaimsSince(before.events, g.claim.inviteId) < before.state.invites[g.claim.inviteId].maxClaims
  }

  lemma GrantSlice(local: DeviceId, log: seq<Event>, g: Grant)
    requires GrantOk(local, log, g)
    ensures log[g.at..g.at + 3] == Triple(Materialize(log[..g.at]), g.claim, local, g.role, g.minted)
  {
    assert log[g.at..g.at + 3] == log[..g.at + 3][g.at..];
  }

  lemma GrantIsSound(local: DeviceId, log: seq<Event>, g: Grant)
    requires GrantOk(local, log, g)
    ensures SoundGrant(log, g)
  {
    var past := log[..g.at];
    var expiry := Current;
    GrantSlice(local, log, g);
    AcceptedIsApplied(past, g.claim, local, expiry, g.role, g.minted);
    AcceptedMeets(Materialize(past), g.claim, expiry);
    AppliedClaimsStayWithinLimit(past, g.claim.inviteId);
  }

  lemma AcceptedMeets(ctx: Context, c: Claim, expiry: Expiry)
    requires Decide(ctx, c, expiry).Accept?
    ensures forall x :: x in ctx.events ==> !IsClaimOf(x, c)
    ensures c.inviteId in ctx.state.invites && ctx.state.invites[c.inviteId].claimCount < ctx.state.invites[c.inviteId].maxClaims
  {
    forall x | x in ctx.events ensures !IsClaimOf(x, c) {
      AcceptMeetsNoClaim(ctx, c, expiry, x);
    }
  }

  /** In every interleaving with any number of processes and any other appends, each granted claim
      is a complete triple decided on exactly the history before it; it meets no claim applied
      there on its request or its (invite, device), and it is applied within the invite's limit. */
  lemma ClaimsStaySound(local: DeviceId, run: seq<Action>)
    requires IsRun(System(local, [], map[], []), run)
    ensures var s := After(System(local, [], map[], []), run);
            && GrantsOk(local, s.log, s.grants)
            && forall k :: 0 <= k < |s.grants| ==> IsChain(s.log, s.grants[k]) && SoundGrant(s.log, s.grants[k])
  {
    InitOk(local);
    RunKeeps(System(local, [], map[], []), run);
    KeepsLocal(System(local, [], map[], []), run);
    var s := After(System(local, [], map[], []), run);
    forall k | 0 <= k < |s.grants| ensures IsChain(s.log, s.grants[k]) && SoundGrant(s.log, s.grants[k]) {
      GrantIsChain(local, s.log, s.grants[k]);
      GrantIsSound(local, s.log, s.grants[k]);
    }
  }

  lemma {:induction false} KeepsLocal(s: System, run: seq<Action>)
    requires IsRun(s, run)
    ensures After(s, run).local == s.local
    decreases |run|
  {
    if run != [] {
      KeepsLocal(Perform(s, run[0]), run[1..]);
    }
  }

  // ---------- all grants together ----------

  /** A grant decided on a history in which no row had to wait stays applied. */
  lemma OrderlyGrantStays(local: DeviceId, log: seq<Event>, g: Grant, n: nat)
    requires GrantOk(local, log, g) && InOrder(log[..g.at]) && g.at + 3 <= n <= |log|
    ensures log[g.at + 2] in Materialize(log[..n]).events
  {
    var past := log[..g.at];
    var expiry := Current;
    AcceptedStays(past, g.claim, local, expiry, g.role, g.minted, log[g.at + 3..n]);
    SplitAt(log, g.at + 3, n);
    GrantSlice(local, log, g);
    assert log[g.at + 2] == log[g.at..g.at + 3][2];
    InPrefix(Materialize(past).events, log[g.at..g.at + 3], Materialize(log[..n]).events);
  }

  lemma SplitAt<T>(s: seq<T>, k: nat, n: nat)
    requires k <= n <= |s|
    ensures s[..n] == s[..k] + s[k..n]
  {
  }

  lemma InPrefix(a: seq<Event>, t: seq<Event>, events: seq<Event>)
    requires a + t <= events && |t| == 3
    ensures t[2] in events
  {
    assert events[|a| + 2] == (a + t)[|a| + 2] == t[2];
  }

  lemma LaterGrantDiffers(local: DeviceId, log: seq<Event>, g: Grant, h: Grant)
    requires GrantOk(local, log, g) && GrantOk(local, log, h) && g.at + 3 <= h.at && InOrder(log[..g.at])
    ensures Differ(g.claim, h.claim)
  {
    GrantIsChain(local, log, g);
    OrderlyGrantStays(local, log, g, h.at);
    GrantIsSound(local, log, h);
  }

  /** Granted claims of the invite among those applied since its last creation. */
  ghost function GrantedSince(events: seq<Event>, granted: set<EventId>, i: InviteId): nat {
    if events == [] then 0
    else
      var last := events[|events| - 1];
      if CreatesInvite(last, i) then 0
      else GrantedSince(events[..|events| - 1], granted, i) + if ClaimsInvite(last, i) && last.id in granted then 1 else 0
  }

  lemma {:induction false} GrantedAreClaims(events: seq<Event>, granted: set<EventId>, i: InviteId)
    ensures GrantedSince(events, granted, i) <= ClaimsSince(events, i)
  {
    if events != [] {
      GrantedAreClaims(events[..|events| - 1], granted, i);
    }
  }

  ghost function GrantedIds(s: System): set<EventId> {
    set g | g in s.grants :: g.minted.claim
  }

  /** If every grant of the run was decided on such a history, all granted claims stay applied, no
      two share a request or an (invite, device), and together they keep within the limit of each
      invite since its last creation. */
  lemma OrderlyGrantsStayWithinLimits(local: DeviceId, run: seq<Action>)
    requires IsRun(System(local, [], map[], []), run)
    requires var s := After(System(local, [], map[], []), run); OrderlyGrants(s.log, s.grants)
    ensures var s := After(System(local, [], map[], []), run); var ctx := Materialize(s.log);
            && (forall k :: 0 <= k < |s.grants| ==> s.grants[k].at + 3 <= |s.log| && s.log[s.grants[k].at + 2] in ctx.events)
            && (forall k, l :: 0 <= k < l < |s.grants| ==>
                  Differ(s.grants[k].claim, s.grants[l].claim))
            && (forall i :: i in ctx.state.invites ==>
                  GrantedSince(ctx.events, GrantedIds(s), i) <= ctx.state.invites[i].maxClaims)
  {
    ClaimsStaySound(local, run);
    var s := After(System(local, [], map[], []), run);
    AllStayApplied(local, s.log, s.grants);
    AllDiffer(local, s.log, s.grants);
    forall i | i in Materialize(s.log).state.invites
      ensures GrantedSince(Materialize(s.log).events, GrantedIds(s), i) <= Materialize(s.log).state.invites[i].maxClaims
    {
      GrantedAreClaims(Materialize(s.log).events, GrantedIds(s), i);
      AppliedClaimsStayWithinLimit(s.log, i);
    }
  }

  /** Every grant was decided on a history in which no row had to wait. */
  ghost predicate OrderlyGrants(log: seq<Event>, grants: seq<Grant>) {
    forall k :: 0 <= k < |grants| ==> grants[k].at <= |log| && InOrder(log[..grants[k].at])
  }

  lemma AllStayApplied(local: DeviceId, log: seq<Event>, grants: seq<Grant>)
    requires GrantsOk(local, log, grants) && OrderlyGrants(log, grants)
    ensures forall k :: 0 <= k < |grants| ==> grants[k].at + 3 <= |log| && log[grants[k].at + 2] in Materialize(log).events
  {
    assert log[..|log|] == log;
    forall k | 0 <= k < |grants|
      ensures grants[k].at + 3 <= |log| && log[grants[k].at + 2] in Materialize(log).events
    {
      assert GrantOk(local, log, grants[k]);
      OrderlyGrantStays(local, log, grants[k], |log|);
    }
  }

  ghost predicate Differ(c: Claim, d: Claim) {
    c.requestId != d.requestId && (c.inviteId != d.inviteId || c.device != d.device)
  }

  lemma AllDiffer(local: DeviceId, log: seq<Event>, grants: seq<Grant>)
    requires GrantsOk(local, log, grants) && OrderlyGrants(log, grants)
    ensures forall k, l :: 0 <= k < l < |grants| ==> Differ(grants[k].claim, grants[l].claim)
  {
    forall k, l | 0 <= k < l < |grants| ensures Differ(grants[k].claim, grants[l].claim) {
      assert GrantOk(local, log, grants[k]) && GrantOk(local, log, grants[l]);
      LaterGrantDiffers(local, log, grants[k], grants[l]);
    }
  }

  /** A claim step changes the history by nothing or by one whole triple. */
  lemma NoHalfDoneClaim(s: System, a: Action)
    requires Inv(s) && Enabled(s, a) && !a.OtherAppend?
    ensures var t := Perform(s, a);
            || (t.log == s.log && t.grants == s.grants)
            || (|t.log| == |s.log| + 3 && s.log <= t.log && |t.grants| == |s.grants| + 1
                && t.grants[|s.grants|].at == |s.log| && IsChain(t.log, t.grants[|s.grants|]))
  {
    if a.Append? && Ids(s.log) == s.procs[a.p].phase.ids {
      AppendGrants(s, a.p);
      GrantIsChain(s.local, Granting(s, a.p).log, Granting(s, a.p).grants[|s.grants|]);
    }
  }

  lemma {:induction false} SpansAddUp(lost: seq<Span>, len: nat)
    requires SpansOk(lost, len) && lost != []
    ensures lost[0].start + |lost| <= lost[|lost| - 1].end <= len
  {
    if |lost| > 1 {
      SpansAddUp(lost[..|lost| - 1], len);
    }
  }

  /** Giving up means that others changed the history during each of the eight attempts. */
  lemma GivingUpMeansEightChanges(local: DeviceId, run: seq<Action>, p: nat)
    requires IsRun(System(local, [], map[], []), run)
    requires p in After(System(local, [], map[], []), run).procs
    requires After(System(local, [], map[], []), run).procs[p].phase == Done(HistoryChanged)
    ensures var s := After(System(local, [], map[], []), run);
            var lost := s.procs[p].lost;
            && |lost| == RetryLimit && SpansOk(lost, |s.log|)
            && lost[0].start + RetryLimit <= |s.log|
  {
    InitOk(local);
    RunKeeps(System(local, [], map[], []), run);
    var s := After(System(local, [], map[], []), run);
    SpansAddUp(s.procs[p].lost, |s.log|);
  }

  // ---------- an undisturbed claim ----------

  function ClaimSteps(p: nat, c: Claim, expiry: Expiry, minted: Minted): seq<Action> {
    [Begin(p, c), ReadIds(p), ReadContext(p), Recheck(p), Validate(p, expiry, true, minted), Append(p)]
  }

  lemma RunCons(s: System, a: Action, rest: seq<Action>)
    requires Enabled(s, a) && IsRun(Perform(s, a), rest)
    ensures IsRun(s, [a] + rest) && After(s, [a] + rest) == After(Perform(s, a), rest)
  {
    assert ([a] + rest)[1..] == rest;
  }

  lemma {:induction false} RunConcat(s: System, a: seq<Action>, b: seq<Action>)
    requires IsRun(s, a) && IsRun(After(s, a), b)
    ensures IsRun(s, a + b) && After(s, a + b) == After(After(s, a), b)
    decreases |a|
  {
    if a == [] {
      assert a + b == b;
    } else {
      RunConcat(Perform(s, a[0]), a[1..], b);
      RunCons(s, a[0], a[1..] + b);
      assert [a[0]] + (a[1..] + b) == a + b;
    }
  }

  function Placed(s: System, p: nat, c: Claim, phase: Phase): System {
    s.(procs := s.procs[p := Process(c, phase, [])])
  }

  lemma ReadingSteps(s: System, p: nat, c: Claim)
    requires p !in s.procs
    ensures var run := [Begin(p, c), ReadIds(p), ReadContext(p), Recheck(p)];
            IsRun(s, run) && After(s, run) == Placed(s, p, c, Checked(Ids(s.log), s.log))
  {
    var ids := Ids(s.log);
    assert Perform(s, Begin(p, c)) == Placed(s, p, c, Begun);
    assert Perform(Placed(s, p, c, Begun), ReadIds(p)) == Placed(s, p, c, HaveIds(ids));
    assert Perform(Placed(s, p, c, HaveIds(ids)), ReadContext(p)) == Placed(s, p, c, HaveContext(ids, s.log));
    assert Perform(Placed(s, p, c, HaveContext(ids, s.log)), Recheck(p)) == Placed(s, p, c, Checked(ids, s.log));
    RunCons(Placed(s, p, c, HaveContext(ids, s.log)), Recheck(p), []);
    RunCons(Placed(s, p, c, HaveIds(ids)), ReadContext(p), [Recheck(p)] + []);
    RunCons(Placed(s, p, c, Begun), ReadIds(p), [ReadContext(p)] + ([Recheck(p)] + []));
    RunCons(s, Begin(p, c), [ReadIds(p)] + ([ReadContext(p)] + ([Recheck(p)] + [])));
    assert [Begin(p, c)] + ([ReadIds(p)] + ([ReadContext(p)] + ([Recheck(p)] + [])))
           == [Begin(p, c), ReadIds(p), ReadContext(p), Recheck(p)];
  }

  lemma AcceptedIsReady(log: seq<Event>, local: DeviceId, c: Claim, expiry: Expiry, role: Role, minted: Minted)
    requires AcceptedOn(log, c, local, expiry, role, minted)
    ensures Validated(local, Process(c, Checked(Ids(log), log), []), expiry, true, minted) == Phase.Ready(Ids(log), log, role, minted)
  {
  }

  lemma PlacedAgain(s: System, p: nat, c: Claim, before: Phase, after: Phase)
    ensures var t := Placed(s, p, c, before);
            t.(procs := t.procs[p := t.procs[p].(phase := after)]) == Placed(s, p, c, after)
  {
  }

  lemma ValidateStep(s: System, p: nat, c: Claim, expiry: Expiry, ready: Phase, minted: Minted)
    requires FreshFor(minted, s.log)
    requires ready == Validated(s.local, Process(c, Checked(Ids(s.log), s.log), []), expiry, true, minted)
    ensures var checked := Placed(s, p, c, Checked(Ids(s.log), s.log));
            && Enabled(checked, Validate(p, expiry, true, minted))
            && Perform(checked, Validate(p, expiry, true, minted)) == Placed(s, p, c, ready)
  {
    PlacedAgain(s, p, c, Checked(Ids(s.log), s.log), ready);
  }

  lemma DecidingSteps(s: System, p: nat, c: Claim, expiry: Expiry, role: Role, minted: Minted)
    requires AcceptedOn(s.log, c, s.local, expiry, role, minted)
    ensures var checked := Placed(s, p, c, Checked(Ids(s.log), s.log));
            var run := [Validate(p, expiry, true, minted), Append(p)];
            IsRun(checked, run) && After(checked, run) == Granting(Placed(s, p, c, Phase.Ready(Ids(s.log), s.log, role, minted)), p)
  {
    var checked := Placed(s, p, c, Checked(Ids(s.log), s.log));
    var ready := Placed(s, p, c, Phase.Ready(Ids(s.log), s.log, role, minted));
    AcceptedIsReady(s.log, s.local, c, expiry, role, minted);
    ValidateStep(s, p, c, expiry, Phase.Ready(Ids(s.log), s.log, role, minted), minted);
    RunCons(ready, Append(p), []);
    RunCons(checked, Validate(p, expiry, true, minted), [Append(p)] + []);
    assert [Validate(p, expiry, true, minted)] + ([Append(p)] + []) == [Validate(p, expiry, true, minted), Append(p)];
  }

  function Appends(rows: seq<Event>): seq<Action> {
    seq(|rows|, i requires 0 <= i < |rows| => OtherAppend(rows[i]))
  }

  /** Other writers can store any rows under new ids. */
  lemma {:induction false} OthersAppendRows(s: System, rows: seq<Event>)
    requires forall i, j :: 0 <= i < j < |rows| ==> rows[i].id != rows[j].id
    requires forall i, x :: 0 <= i < |rows| && x in s.log ==> rows[i].id != x.id
    ensures IsRun(s, Appends(rows)) && After(s, Appends(rows)) == s.(log := s.log + rows)
    decreases |rows|
  {
    if rows == [] {
      assert s.log + rows == s.log;
    } else {
      var t := s.(log := s.log + [rows[0]]);
      assert Perform(s, OtherAppend(rows[0])) == t;
      OthersAppendRows(t, rows[1..]);
      RunCons(s, OtherAppend(rows[0]), Appends(rows[1..]));
      assert [OtherAppend(rows[0])] + Appends(rows[1..]) == Appends(rows);
      assert s.log + [rows[0]] + rows[1..] == s.log + rows;
    }
  }

  /** Left alone, a process whose claim is acceptable gets it granted in one attempt. */
  lemma UndisturbedClaimIsGranted(s: System, p: nat, c: Claim, expiry: Expiry, role: Role, minted: Minted)
    requires p !in s.procs && AcceptedOn(s.log, c, s.local, expiry, role, minted)
    ensures IsRun(s, ClaimSteps(p, c, expiry, minted))
    ensures var t := After(s, ClaimSteps(p, c, expiry, minted));
            && t.log == WithTriple(s.log, c, s.local, role, minted) && t.local == s.local
            && t.grants == s.grants + [Grant(|s.log|, c, role, minted)]
            && t.procs.Keys == s.procs.Keys + {p}
            && t.procs[p].phase == Done(Granted(minted.member, minted.claim))
  {
    var reading, deciding := [Begin(p, c), ReadIds(p), ReadContext(p), Recheck(p)], [Validate(p, expiry, true, minted), Append(p)];
    ReadingSteps(s, p, c);
    DecidingSteps(s, p, c, expiry, role, minted);
    RunConcat(s, reading, deciding);
    assert reading + deciding == ClaimSteps(p, c, expiry, minted);
    GrantingPlaced(s, p, c, role, minted);
  }

  lemma GrantingPlaced(s: System, p: nat, c: Claim, role: Role, minted: Minted)
    ensures var t := Granting(Placed(s, p, c, Phase.Ready(Ids(s.log), s.log, role, minted)), p);
            && t.log == WithTriple(s.log, c, s.local, role, minted) && t.local == s.local
            && t.grants == s.grants + [Grant(|s.log|, c, role, minted)]
            && t.procs.Keys == s.procs.Keys + {p}
            && t.procs[p].phase == Done(Granted(minted.member, minted.claim))
  {
  }

  ghost predicate NewRows(log: seq<Event>, rows: seq<Event>) {
    && (forall i, j :: 0 <= i < j < |rows| ==> rows[i].id != rows[j].id)
    && (forall i, x :: 0 <= i < |rows| && x in log ==> rows[i].id != x.id)
  }

  /** Rows arrive, then a claim that is acceptable on the history so far is granted. */
  lemma ClaimAfterRows(s: System, rows: seq<Event>, p: nat, c: Claim, expiry: Expiry, role: Role, minted: Minted)
    requires NewRows(s.log, rows) && p !in s.procs && AcceptedOn(s.log + rows, c, s.local, expiry, role, minted)
    ensures IsRun(s, Appends(rows) + ClaimSteps(p, c, expiry, minted))
    ensures var t := After(s, Appends(rows) + ClaimSteps(p, c, expiry, minted));
            && t.log == WithTriple(s.log + rows, c, s.local, role, minted) && t.local == s.local
            && t.grants == s.grants + [Grant(|s.log + rows|, c, role, minted)]
            && t.procs.Keys == s.procs.Keys + {p}
  {
    OthersAppendRows(s, rows);
    UndisturbedClaimIsGranted(s.(log := s.log + rows), p, c, expiry, role, minted);
    RunConcat(s, Appends(rows), ClaimSteps(p, c, expiry, minted));
  }
}
