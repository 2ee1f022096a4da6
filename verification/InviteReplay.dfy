/** Resubmitting an accepted claim: which later histories still answer it, and with what. */
module InviteReplay {
  import opened Events
  import opened Workspace
  import opened Materialization
  import opened StateMeaning
  import opened InviteClaims

  // ---------- the accepted triple in a later history ----------

  /** What a later history materialized: the decided events, the triple, and the rest. */
  ghost predicate Continues(ctx: Context, before: Context, t: seq<Event>) {
    && |t| == 3 && before.events + t <= ctx.events && DistinctIds(ctx.events)
    && before.state == Fold(Empty, before.events) && ctx.state == Fold(Empty, ctx.events)
  }

  /** Later histories of an orderly one continue it. */
  lemma AcceptedContinues(log: seq<Event>, c: Claim, local: DeviceId, expiry: Expiry, role: Role, minted: Minted, more: seq<Event>)
    requires AcceptedOn(log, c, local, expiry, role, minted) && InOrder(log)
    ensures Continues(Materialize(WithTriple(log, c, local, role, minted) + more), Materialize(log),
                      Triple(Materialize(log), c, local, role, minted))
  {
    AcceptedStays(log, c, local, expiry, role, minted, more);
    MaterializedInBrief(WithTriple(log, c, local, role, minted) + more);
    MaterializedInBrief(log);
  }

  /** Right after acceptance every history continues, orderly or not. */
  lemma AcceptedContinuesAtOnce(log: seq<Event>, c: Claim, local: DeviceId, expiry: Expiry, role: Role, minted: Minted)
    requires AcceptedOn(log, c, local, expiry, role, minted)
    ensures Continues(Materialize(WithTriple(log, c, local, role, minted)), Materialize(log),
                      Triple(Materialize(log), c, local, role, minted))
  {
    AcceptedIsApplied(log, c, local, expiry, role, minted);
    MaterializedInBrief(WithTriple(log, c, local, role, minted));
    MaterializedInBrief(log);
  }

  lemma PlacesOf<T>(a: seq<T>, t: seq<T>, all: seq<T>)
    requires |t| == 3 && a + t <= all
    ensures |a| + 3 <= |all| && all[..|a| + 3] == a + t
    ensures all[|a|] == t[0] && all[|a| + 1] == t[1] && all[|a| + 2] == t[2]
    ensures forall i :: 0 <= i < |a| ==> all[i] == a[i]
  {
    var first := a + t;
    assert first[|a|] == t[0] && first[|a| + 1] == t[1] && first[|a| + 2] == t[2];
    assert forall i :: 0 <= i < |first| ==> all[i] == first[i];
  }

  lemma FoldThree(s: State, events: seq<Event>, t: seq<Event>)
    requires |t| == 3
    ensures Fold(s, events + t) == AfterThree(Fold(s, events), t)
  {
    ThreeSnocs(events, t);
    FoldSnoc(s, events, t[0]);
    FoldSnoc(s, events + [t[0]], t[1]);
    FoldSnoc(s, events + [t[0]] + [t[1]], t[2]);
  }

  lemma StateAtTriple(ctx: Context, before: Context, t: seq<Event>)
    requires Continues(ctx, before, t)
    ensures var n := |before.events|; var events := ctx.events;
            && n + 3 <= |events| && events[..n + 3] == before.events + t
            && events[n] == t[0] && events[n + 1] == t[1] && events[n + 2] == t[2]
            && (forall i :: 0 <= i < n ==> events[i] == before.events[i])
            && Fold(Empty, events[..n + 3]) == AfterThree(before.state, t)
  {
    PlacesOf(before.events, t, ctx.events);
    FoldThree(Empty, before.events, t);
  }

  /** The bodies and ids of an accepted triple. */
  ghost predicate TripleShape(t: seq<Event>, c: Claim, role: Role, minted: Minted) {
    && |t| == 3
    && t[0].body.JoinRequestRecorded? && t[0].id == minted.request
    && t[1].body == MemberInvited(c.device, role) && t[1].id == minted.member
    && SameClaim(t[2], c) && t[2].id == minted.claim
  }

  lemma TripleHasShape(ctx: Context, c: Claim, local: DeviceId, role: Role, minted: Minted)
    ensures TripleShape(Triple(ctx, c, local, role, minted), c, role, minted)
  {
  }

  // ---------- how long a membership is current ----------

  lemma MemberAfter(members: map<DeviceId, Member>, e: Event, d: DeviceId)
    ensures !TouchesMembership(e, d) ==>
              (d in NextMembers(members, e) <==> d in members)
              && (d in members ==> NextMembers(members, e)[d] == members[d])
    ensures TouchesMembership(e, d) && d in NextMembers(members, e) ==>
              NextMembers(members, e)[d].membershipEvent == e.id || !(d in members)
  {
  }

  ghost predicate CurrentIn(s: State, d: DeviceId, granted: EventId) {
    d in s.members && s.members[d].membershipEvent == granted
  }

  lemma CurrentStep(s: State, e: Event, d: DeviceId, granted: EventId)
    requires e.id != granted
    ensures CurrentIn(s, d, granted) ==> (CurrentIn(Apply(s, e), d, granted) <==> !TouchesMembership(e, d))
    ensures !CurrentIn(s, d, granted) ==> !CurrentIn(Apply(s, e), d, granted)
  {
    MemberAfter(s.members, e, d);
  }

  ghost predicate Untouched(events: seq<Event>, from: nat, to: nat, d: DeviceId)
    requires from <= to <= |events|
  {
    forall k :: from <= k < to ==> !TouchesMembership(events[k], d)
  }

  /** A membership is current exactly until the next applied event about it: a removal, a new invite
      or a mere change of role. */
  lemma {:induction false} CurrentUntilTouched(events: seq<Event>, n: nat, d: DeviceId, granted: EventId)
    requires DistinctIds(events) && n <= |events|
    requires CurrentIn(Fold(Empty, events[..n]), d, granted) && granted in IdSet(events[..n])
    ensures CurrentIn(Fold(Empty, events), d, granted) <==> Untouched(events, n, |events|, d)
  {
    if |events| == n {
      assert events[..n] == events;
    } else {
      var last := |events| - 1;
      var before := events[..last];
      assert before[..n] == events[..n];
      CurrentUntilTouched(before, n, d, granted);
      GrantedIsEarlier(events, n, granted);
      CurrentStep(Fold(Empty, before), events[last], d, granted);
      UntouchedSnoc(events, n, d);
    }
  }

  lemma UntouchedSnoc(events: seq<Event>, n: nat, d: DeviceId)
    requires n < |events|
    ensures var last := |events| - 1;
            Untouched(events, n, |events|, d) <==> Untouched(events[..last], n, last, d) && !TouchesMembership(events[last], d)
  {
    var last := |events| - 1;
    assert forall k :: n <= k < last ==> events[..last][k] == events[k];
  }

  lemma GrantedIsEarlier(events: seq<Event>, n: nat, granted: EventId)
    requires DistinctIds(events) && n < |events| && granted in IdSet(events[..n])
    ensures events[|events| - 1].id != granted
  {
    var x :| x in events[..n] && x.id == granted;
    var k :| 0 <= k < n && events[..n][k] == x;
    assert events[k].id == granted;
  }

  /** Right after acceptance the device is a member by the triple's own membership event. */
  lemma AcceptedMembership(log: seq<Event>, c: Claim, local: DeviceId, expiry: Expiry, role: Role, minted: Minted)
    requires AcceptedOn(log, c, local, expiry, role, minted)
    ensures var s := AfterThree(Materialize(log).state, Triple(Materialize(log), c, local, role, minted));
            && s.root.Some?
            && c.device in s.members && s.members[c.device] == Member(role, minted.member)
  {
  }

  // ---------- finding the claim again ----------

  /** The first exact claim is the accepted one and the membership before it is its own. */
  lemma FindsOwnTriple(events: seq<Event>, n: nat, t: seq<Event>, c: Claim)
    requires |t| == 3 && n + 2 < |events| && events[n] == t[0] && events[n + 1] == t[1] && events[n + 2] == t[2]
    requires SameClaim(t[2], c) && InvitesDevice(t[1], c.device) && t[0].body.JoinRequestRecorded?
    requires forall i :: 0 <= i < n ==> !SameClaim(events[i], c)
    ensures FindFirst(events, Repeats(c)) == Some(n + 2)
    ensures FindLast(events[..n + 2], Inviting(c.device)) == Some(n + 1)
  {
    FirstClaimAt(events, n, t, c);
    LastInviteAt(events[..n + 2], n + 1, c.device);
  }

  lemma FirstClaimAt(events: seq<Event>, n: nat, t: seq<Event>, c: Claim)
    requires |t| == 3 && n + 2 < |events| && events[n] == t[0] && events[n + 1] == t[1] && events[n + 2] == t[2]
    requires SameClaim(t[2], c) && !SameClaim(t[0], c) && !SameClaim(t[1], c)
    requires forall i :: 0 <= i < n ==> !SameClaim(events[i], c)
    ensures FindFirst(events, Repeats(c)) == Some(n + 2)
  {
    forall j | 0 <= j < n + 2 ensures !Repeats(c)(events[j]) {
      assert j < n || j == n || j == n + 1;
    }
    FindFirstAt(events, Repeats(c), n + 2);
  }

  lemma LastInviteAt(events: seq<Event>, k: nat, d: DeviceId)
    requires k == |events| - 1 && InvitesDevice(events[k], d)
    ensures FindLast(events, Inviting(d)) == Some(k)
  {
    FindLastAt(events, Inviting(d), k);
  }

  /** The decision on a history in which the claim's triple starts at position `n`. */
  lemma DecideOnTriple(ctx: Context, c: Claim, later: Expiry, n: nat, minted: Minted)
    requires c.inviteId in ctx.state.invites
    requires n + 2 < |ctx.events| && ctx.events[n + 1].id == minted.member && ctx.events[n + 2].id == minted.claim
    requires FindFirst(ctx.events, Repeats(c)) == Some(n + 2)
    requires FindLast(ctx.events[..n + 2], Inviting(c.device)) == Some(n + 1)
    ensures Decide(ctx, c, later) ==
            if ctx.state.invites[c.inviteId].capabilityKey == "" then Refuse(NotClaimable)
            else if Collides(ctx.events, c) || !CurrentIn(ctx.state, c.device, minted.member) then Refuse(AlreadyClaimed)
            else Replay(minted.member, minted.claim, ctx.state.invites[c.inviteId].role)
  {
  }

  // ---------- the invite in a later history ----------

  lemma InviteFieldsAfter(invites: map<InviteId, Invite>, e: Event, i: InviteId)
    requires i in invites
    ensures i in NextInvites(invites, e)
    ensures invites[i].capabilityKey != "" && !CreatesInvite(e, i) ==>
              NextInvites(invites, e)[i].capabilityKey == invites[i].capabilityKey
              && NextInvites(invites, e)[i].role == invites[i].role
  {
  }

  /** An invite never disappears, and keeps its key and role until it is created again. */
  lemma {:induction false} InviteKept(s: State, events: seq<Event>, i: InviteId)
    requires i in s.invites
    ensures i in Fold(s, events).invites
    ensures s.invites[i].capabilityKey != "" && (forall e :: e in events ==> !CreatesInvite(e, i)) ==>
              Fold(s, events).invites[i].capabilityKey == s.invites[i].capabilityKey
              && Fold(s, events).invites[i].role == s.invites[i].role
  {
    if events != [] {
      var last := |events| - 1;
      InviteKept(s, events[..last], i);
      InviteFieldsAfter(Fold(s, events[..last]).invites, events[last], i);
    }
  }

  lemma AcceptedInvite(ctx: Context, c: Claim, expiry: Expiry, role: Role)
    requires Decide(ctx, c, expiry) == Accept(role)
    ensures c.inviteId in ctx.state.invites
    ensures ctx.state.invites[c.inviteId].capabilityKey != "" && ctx.state.invites[c.inviteId].role == role
  {
  }

  lemma TripleKeepsInvite(ctx: Context, c: Claim, local: DeviceId, expiry: Expiry, role: Role, minted: Minted)
    requires Decide(ctx, c, expiry) == Accept(role)
    ensures var s := AfterThree(ctx.state, Triple(ctx, c, local, role, minted));
            c.inviteId in s.invites && s.invites[c.inviteId].capabilityKey != "" && s.invites[c.inviteId].role == role
  {
    AcceptedInvite(ctx, c, expiry, role);
    TripleHasShape(ctx, c, local, role, minted);
    ShapeKeepsInvite(ctx.state, Triple(ctx, c, local, role, minted), c, role, minted);
  }

  lemma ShapeKeepsInvite(s: State, t: seq<Event>, c: Claim, role: Role, minted: Minted)
    requires TripleShape(t, c, role, minted) && c.inviteId in s.invites && s.invites[c.inviteId].capabilityKey != ""
    ensures c.inviteId in AfterThree(s, t).invites
    ensures AfterThree(s, t).invites[c.inviteId].capabilityKey != ""
    ensures AfterThree(s, t).invites[c.inviteId].role == s.invites[c.inviteId].role
  {
    var one, two := Apply(s, t[0]), Apply(Apply(s, t[0]), t[1]);
    InviteFieldsAfter(s.invites, t[0], c.inviteId);
    InviteFieldsAfter(one.invites, t[1], c.inviteId);
    InviteFieldsAfter(two.invites, t[2], c.inviteId);
  }

  lemma LaterInvite(ctx: Context, before: Context, c: Claim, local: DeviceId, expiry: Expiry, role: Role, minted: Minted)
    requires Decide(before, c, expiry) == Accept(role)
    requires Continues(ctx, before, Triple(before, c, local, role, minted))
    ensures c.inviteId in ctx.state.invites
    ensures |before.events| + 3 <= |ctx.events|
    ensures (forall e :: e in ctx.events[|before.events| + 3..] ==> !CreatesInvite(e, c.inviteId)) ==>
              ctx.state.invites[c.inviteId].capabilityKey != "" && ctx.state.invites[c.inviteId].role == role
  {
    var t := Triple(before, c, local, role, minted);
    TripleKeepsInvite(before, c, local, expiry, role, minted);
    StateAfterTriple(ctx, before, t);
    InviteKept(AfterThree(before.state, t), ctx.events[|before.events| + 3..], c.inviteId);
  }

  lemma StateAfterTriple(ctx: Context, before: Context, t: seq<Event>)
    requires Continues(ctx, before, t)
    ensures |before.events| + 3 <= |ctx.events|
    ensures ctx.state == Fold(AfterThree(before.state, t), ctx.events[|before.events| + 3..])
  {
    var n := |before.events| + 3;
    StateAtTriple(ctx, before, t);
    assert ctx.events == ctx.events[..n] + ctx.events[n..];
    FoldConcat(Empty, ctx.events[..n], ctx.events[n..]);
  }

  // ---------- the replay theorem ----------

  lemma NoEarlierClaim(ctx: Context, c: Claim, expiry: Expiry)
    requires Decide(ctx, c, expiry).Accept?
    ensures forall i :: 0 <= i < |ctx.events| ==> !SameClaim(ctx.events[i], c)
  {
    assert FindFirst(ctx.events, Repeats(c)).None?;
    assert forall i :: 0 <= i < |ctx.events| ==> !Repeats(c)(ctx.events[i]);
  }

  lemma LaterPlaces(ctx: Context, before: Context, t: seq<Event>, c: Claim, role: Role, minted: Minted)
    requires Continues(ctx, before, t) && TripleShape(t, c, role, minted)
    requires forall i :: 0 <= i < |before.events| ==> !SameClaim(before.events[i], c)
    ensures var n := |before.events|;
            && n + 2 < |ctx.events| && ctx.events[n + 1].id == minted.member && ctx.events[n + 2].id == minted.claim
            && FindFirst(ctx.events, Repeats(c)) == Some(n + 2)
            && FindLast(ctx.events[..n + 2], Inviting(c.device)) == Some(n + 1)
  {
    StateAtTriple(ctx, before, t);
    ShapeIsFound(ctx.events, |before.events|, t, c, role, minted);
  }

  lemma ShapeIsFound(events: seq<Event>, n: nat, t: seq<Event>, c: Claim, role: Role, minted: Minted)
    requires TripleShape(t, c, role, minted)
    requires n + 2 < |events| && events[n] == t[0] && events[n + 1] == t[1] && events[n + 2] == t[2]
    requires forall i :: 0 <= i < n ==> !SameClaim(events[i], c)
    ensures events[n + 1].id == minted.member && events[n + 2].id == minted.claim
    ensures FindFirst(events, Repeats(c)) == Some(n + 2)
    ensures FindLast(events[..n + 2], Inviting(c.device)) == Some(n + 1)
  {
    FindsOwnTriple(events, n, t, c);
  }

  lemma LaterMembership(ctx: Context, log: seq<Event>, c: Claim, local: DeviceId, expiry: Expiry, role: Role, minted: Minted)
    requires AcceptedOn(log, c, local, expiry, role, minted)
    requires Continues(ctx, Materialize(log), Triple(Materialize(log), c, local, role, minted))
    ensures var n := |Materialize(log).events| + 3;
            n <= |ctx.events| && (CurrentIn(ctx.state, c.device, minted.member) <==> Untouched(ctx.events, n, |ctx.events|, c.device))
  {
    var before := Materialize(log);
    StateAtTriple(ctx, before, Triple(before, c, local, role, minted));
    AcceptedMembership(log, c, local, expiry, role, minted);
    MemberIdIsIn(ctx.events[..|before.events| + 3], |before.events| + 1);
    CurrentUntilTouched(ctx.events, |before.events| + 3, c.device, minted.member);
  }

  lemma MemberIdIsIn(events: seq<Event>, k: nat)
    requires k < |events|
    ensures events[k].id in IdSet(events)
  {
    assert events[k] in events;
  }

  /** Replay, exactly. The claim was accepted on a history in which no row had to wait; whatever is
      stored later, resubmitting it is answered with its own events if and only if no later applied
      event is about the device's membership, nobody else used its request id or claimed the invite
      for the device, and the invite was not replaced by one addressed to a device. Revocation,
      expiry and exhaustion play no part. */
  lemma ReplayExactlyWhileMember(log: seq<Event>, c: Claim, local: DeviceId, expiry: Expiry, role: Role, minted: Minted,
                                 more: seq<Event>, later: Expiry)
    requires AcceptedOn(log, c, local, expiry, role, minted) && InOrder(log)
    ensures var n := |Materialize(log).events| + 3;
            var ctx := Materialize(WithTriple(log, c, local, role, minted) + more);
            && n <= |ctx.events| && c.inviteId in ctx.state.invites
            && Decide(ctx, c, later) ==
               (if ctx.state.invites[c.inviteId].capabilityKey == "" then Refuse(NotClaimable)
                else if Collides(ctx.events, c) || !Untouched(ctx.events, n, |ctx.events|, c.device) then Refuse(AlreadyClaimed)
                else Replay(minted.member, minted.claim, ctx.state.invites[c.inviteId].role))
            && ((forall e :: e in ctx.events[n..] ==> !CreatesInvite(e, c.inviteId)) ==>
                  ctx.state.invites[c.inviteId].capabilityKey != "" && ctx.state.invites[c.inviteId].role == role)
  {
    var before := Materialize(log);
    var ctx := Materialize(WithTriple(log, c, local, role, minted) + more);
    AcceptedContinues(log, c, local, expiry, role, minted, more);
    LaterInvite(ctx, before, c, local, expiry, role, minted);
    NoEarlierClaim(before, c, expiry);
    TripleHasShape(before, c, local, role, minted);
    LaterPlaces(ctx, before, Triple(before, c, local, role, minted), c, role, minted);
    LaterMembership(ctx, log, c, local, expiry, role, minted);
    DecideOnTriple(ctx, c, later, |before.events|, minted);
  }

  /** The case the membership check does not intend: promoting the new member ends the replay. */
  lemma RoleChangeEndsReplay(log: seq<Event>, c: Claim, local: DeviceId, expiry: Expiry, role: Role, minted: Minted,
                             more: seq<Event>, k: nat, newRole: Role, later: Expiry)
    requires AcceptedOn(log, c, local, expiry, role, minted) && InOrder(log)
    requires var ctx := Materialize(WithTriple(log, c, local, role, minted) + more);
             |Materialize(log).events| + 3 <= k < |ctx.events| && ctx.events[k].body == MemberRoleUpdated(c.device, newRole)
    ensures Decide(Materialize(WithTriple(log, c, local, role, minted) + more), c, later).Refuse?
  {
    ReplayExactlyWhileMember(log, c, local, expiry, role, minted, more, later);
  }
}
