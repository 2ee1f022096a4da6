/** What the claim processes answer, and what an acceptance means in terms of the applied events. */
module ClaimAnswers {
  import opened Events
  import opened Workspace
  import opened Materialization
  import opened StateMeaning
  import opened InviteClaims

  // ---------- acceptance by the events ----------

  /** The invite was created as a capability of this role, is not revoked and has claims left. */
  ghost predicate OpenFor(events: seq<Event>, i: InviteId, role: Role) {
    var k := Creation(events, i);
    && k.Some? && events[k.value].body.InviteCapabilityCreated? && events[k.value].body.inviteRole == role
    && !RevokedSince(events, k.value, i)
    && ClaimsSince(events, i) < Limit(events[k.value].body.maxClaims)
  }

  /** On any stored history a new claim is accepted exactly when the applied events say so: the invite
      was created as a capability, is not revoked since and has claims left; the last event about the
      device's membership, if any, removed it; nothing traces the claim; it is current and named. */
  lemma AcceptedByEventsExactly(log: seq<Event>, c: Claim, expiry: Expiry, role: Role)
    ensures Decide(Materialize(log), c, expiry) == Accept(role) <==>
            var events := Materialize(log).events;
            && OpenFor(events, c.inviteId, role) && MemberSaid(events, c.device) == None && NoTrace(events, c)
            && expiry == Current && c.displayName != ""
  {
    StateMeans(log);
    AcceptsExactly(Materialize(log), c, expiry, role);
    assert InviteOk(Materialize(log).events, Materialize(log).state, c.inviteId);
    OpenMeans(Materialize(log).events, Materialize(log).state, c.inviteId, role);
  }

  lemma OpenMeans(events: seq<Event>, s: State, i: InviteId, role: Role)
    requires InviteOk(events, s, i)
    ensures OpenFor(events, i, role) <==>
            && i in s.invites && s.invites[i].capabilityKey != "" && s.invites[i].status == Invited
            && s.invites[i].claimCount < s.invites[i].maxClaims && s.invites[i].role == role
  {
  }

  /** No claim of a revoked invite is accepted, unless the invite is created again. */
  lemma RevokedIsRefused(log: seq<Event>, k: nat, c: Claim, expiry: Expiry)
    requires var events := Materialize(log).events;
             k < |events| && events[k].body == InviteRevoked(c.inviteId) && NeverSince(events, k, Creating(c.inviteId))
    ensures !Decide(Materialize(log), c, expiry).Accept?
  {
    var events := Materialize(log).events;
    RevocationIsSeen(events, k, |events|, c.inviteId);
    assert events[..|events|] == events;
    var d := Decide(Materialize(log), c, expiry);
    if d.Accept? {
      AcceptedByEventsExactly(log, c, expiry, d.role);
    }
  }

  // ---------- every answer is true ----------

  /** The answer follows from a decision on some history the store has held. */
  ghost predicate DecidedAs(log: seq<Event>, c: Claim, outcome: Outcome) {
    exists n: nat, expiry :: n <= |log| && DecidesAs(Materialize(log[..n]), c, expiry, outcome)
  }

  ghost predicate DecidesAs(ctx: Context, c: Claim, expiry: Expiry, outcome: Outcome) {
    match outcome
    case Replayed(m, e) => Decide(ctx, c, expiry).Replay? && Decide(ctx, c, expiry).memberEvent == m && Decide(ctx, c, expiry).claimEvent == e
    case Refused(reason) =>
      Decide(ctx, c, expiry) == Refuse(reason) || ((reason == KeyUnavailable || reason == Unauthorized) && Decide(ctx, c, expiry).Accept?)
    case _ => false
  }

  ghost predicate GrantedTo(grants: seq<Grant>, c: Claim, m: EventId, e: EventId) {
    exists k :: 0 <= k < |grants| && grants[k].claim == c && grants[k].minted.member == m && grants[k].minted.claim == e
  }

  ghost predicate AnswerOk(log: seq<Event>, grants: seq<Grant>, q: Process) {
    match q.phase
    case Done(Granted(m, e)) => GrantedTo(grants, q.claim, m, e)
    case Done(HistoryChanged) => true
    case Done(outcome) => DecidedAs(log, q.claim, outcome)
    case _ => true
  }

  ghost predicate AnswersOk(s: System) {
    forall p :: p in s.procs ==> AnswerOk(s.log, s.grants, s.procs[p])
  }

  lemma AnswerStays(log: seq<Event>, more: seq<Event>, grants: seq<Grant>, newer: seq<Grant>, q: Process)
    requires AnswerOk(log, grants, q)
    ensures AnswerOk(log + more, grants + newer, q)
  {
    match q.phase
    case Done(Granted(m, e)) =>
      var k :| 0 <= k < |grants| && grants[k].claim == q.claim && grants[k].minted.member == m && grants[k].minted.claim == e;
      assert (grants + newer)[k] == grants[k];
    case Done(HistoryChanged) =>
    case Done(outcome) =>
      var n: nat, expiry :| n <= |log| && DecidesAs(Materialize(log[..n]), q.claim, expiry, outcome);
      assert (log + more)[..n] == log[..n];
    case _ =>
  }

  lemma ValidatedAnswers(local: DeviceId, log: seq<Event>, grants: seq<Grant>, q: Process, expiry: Expiry, sealed: bool, minted: Minted)
    requires q.phase.Checked? && q.phase.seen <= log
    ensures AnswerOk(log, grants, q.(phase := Validated(local, q, expiry, sealed, minted)))
  {
    var n := |q.phase.seen|;
    assert log[..n] == q.phase.seen;
    var next := Validated(local, q, expiry, sealed, minted);
    if next.Done? {
      assert DecidesAs(Materialize(log[..n]), q.claim, expiry, next.outcome);
    }
  }

  lemma ActorAnswers(s: System, a: Action)
    requires Inv(s) && Enabled(s, a) && !a.OtherAppend?
    requires !a.Begin? ==> AnswerOk(s.log, s.grants, s.procs[a.p])
    ensures var t := Perform(s, a); a.p in t.procs && AnswerOk(t.log, t.grants, t.procs[a.p])
  {
    if a.Validate? {
      assert ProcessOk(s, s.procs[a.p]);
      ValidatedAnswers(s.local, s.log, s.grants, s.procs[a.p], a.expiry, a.sealed, a.minted);
    } else if a.Append? && Ids(s.log) == s.procs[a.p].phase.ids {
      GrantAnswers(s, a.p);
    }
  }

  lemma GrantAnswers(s: System, p: nat)
    requires p in s.procs && s.procs[p].phase.Ready?
    ensures AnswerOk(Granting(s, p).log, Granting(s, p).grants, Granting(s, p).procs[p])
  {
    var t := Granting(s, p);
    assert t.grants[|s.grants|].claim == s.procs[p].claim;
  }

  lemma Grown(s: System, a: Action) returns (more: seq<Event>, newer: seq<Grant>)
    requires Enabled(s, a)
    ensures var t := Perform(s, a);
            && t.log == s.log + more && t.grants == s.grants + newer
            && (forall p :: p in t.procs && (a.OtherAppend? || p != a.p) ==> p in s.procs && t.procs[p] == s.procs[p])
  {
    more, newer := Perform(s, a).log[|s.log|..], Perform(s, a).grants[|s.grants|..];
  }

  lemma StepKeepsAnswers(s: System, a: Action)
    requires Inv(s) && AnswersOk(s) && Enabled(s, a)
    ensures AnswersOk(Perform(s, a))
  {
    var t := Perform(s, a);
    var more, newer := Grown(s, a);
    forall p | p in t.procs ensures AnswerOk(t.log, t.grants, t.procs[p]) {
      if a.OtherAppend? || p != a.p {
        AnswerStays(s.log, more, s.grants, newer, s.procs[p]);
      } else {
        ActorAnswers(s, a);
      }
    }
  }

  lemma {:induction false} RunKeepsAnswers(s: System, run: seq<Action>)
    requires Inv(s) && AnswersOk(s) && IsRun(s, run)
    ensures AnswersOk(After(s, run))
    decreases |run|
  {
    if run != [] {
      StepKeeps(s, run[0]);
      StepKeepsAnswers(s, run[0]);
      RunKeepsAnswers(Perform(s, run[0]), run[1..]);
    }
  }

  /** In every interleaving every answer is true. A claim is answered as granted only if its triple was
      appended, under these very events; as replayed only if on some history of the store it had been
      claimed under these events and the device still held that membership; and refused only for a
      reason that held on some history of the store. */
  lemma EveryAnswerIsTrue(local: DeviceId, run: seq<Action>, p: nat)
    requires IsRun(System(local, [], map[], []), run) && p in After(System(local, [], map[], []), run).procs
    ensures var s := After(System(local, [], map[], []), run); var q := s.procs[p];
            match q.phase
            case Done(Granted(m, e)) => GrantedTo(s.grants, q.claim, m, e)
            case Done(Replayed(m, e)) => exists n: nat :: n <= |s.log| && HeldThen(Materialize(s.log[..n]), q.claim, m, e)
            case Done(Refused(reason)) => DecidedAs(s.log, q.claim, Refused(reason))
            case _ => true
  {
    InitOk(local);
    RunKeepsAnswers(System(local, [], map[], []), run);
    var s := After(System(local, [], map[], []), run);
    var q := s.procs[p];
    assert AnswerOk(s.log, s.grants, q);
    if q.phase.Done? && q.phase.outcome.Replayed? {
      ReplayHeld(s.log, q.claim, q.phase.outcome.memberEvent, q.phase.outcome.claimEvent);
    }
  }

  /** The claim had been made under these events, and the device was a member by the one of them. */
  ghost predicate HeldThen(ctx: Context, c: Claim, m: EventId, e: EventId) {
    ClaimedBefore(ctx, c, m, e) && c.device in ctx.state.members && ctx.state.members[c.device].membershipEvent == m
  }

  lemma ReplayHeld(log: seq<Event>, c: Claim, m: EventId, e: EventId)
    requires DecidedAs(log, c, Replayed(m, e))
    ensures exists n: nat :: n <= |log| && HeldThen(Materialize(log[..n]), c, m, e)
  {
    var n: nat, expiry :| n <= |log| && DecidesAs(Materialize(log[..n]), c, expiry, Replayed(m, e));
    var d := Decide(Materialize(log[..n]), c, expiry);
    ReplaysTruly(Materialize(log[..n]), c, expiry, m, e, d.role);
    assert HeldThen(Materialize(log[..n]), c, m, e);
  }
}
