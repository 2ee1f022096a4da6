/** The joiner's check that a pulled history really contains its own accepted claim. */
module CanonicalClaim {
  import opened Events
  import opened Workspace
  import opened Materialization
  import opened InviteClaims
  import opened InviteReplay

  const DisplayNameMax: nat := 128

  /** What the joiner stored when it prepared its claim. */
  datatype Receipt = Receipt(inviteId: InviteId, requestId: RequestId, responder: DeviceId,
                             capabilityKey: string, displayName: string)

  datatype Verdict = NameTooLarge | NotCanonical | Canonical(displayName: string, memberEvent: EventId)

  predicate IsRequest(e: Event, r: Receipt) {
    e.body.JoinRequestRecorded? && e.body.requestId == r.requestId
  }

  predicate IsCapability(e: Event, r: Receipt) {
    e.body.InviteCapabilityCreated? && e.body.inviteId == r.inviteId
  }

  predicate IsMembership(e: Event, local: DeviceId, request: EventId) {
    e.body.MemberInvited? && e.body.invitee == local && e.parents == [request]
  }

  predicate IsClaim(e: Event, r: Receipt) {
    e.body.InviteClaimed? && e.body.requestId == r.requestId
  }

  function Requesting(r: Receipt): Event -> bool { e => IsRequest(e, r) }

  function Capability(r: Receipt): Event -> bool { e => IsCapability(e, r) }

  function Membership(local: DeviceId, request: EventId): Event -> bool { e => IsMembership(e, local, request) }

  function Claiming(r: Receipt): Event -> bool { e => IsClaim(e, r) }

  /** The only event satisfying `p`, if exactly one does. */
  function Only(events: seq<Event>, p: Event -> bool): (r: Option<Event>)
    ensures r.Some? ==> p(r.value)
  {
    var hits := Filter(events, p);
    if |hits| == 1 then OnlyOne(events, p); Some(hits[0]) else None
  }

  lemma OnlyOne(events: seq<Event>, p: Event -> bool)
    requires |Filter(events, p)| == 1
    ensures p(Filter(events, p)[0])
  {
    assert Filter(events, p)[0] in Filter(events, p);
  }

  lemma OnlyIsSole(events: seq<Event>, p: Event -> bool)
    requires Only(events, p).Some?
    ensures Sole(events, p, Only(events, p).value)
  {
    var hits := Filter(events, p);
    assert hits == [hits[0]] && hits[0] in hits;
    FilterCounts(events, p, hits[0]);
    forall e | e in events && p(e)
      ensures e == hits[0]
    {
      assert e in hits;
    }
  }

  predicate RequestFits(local: DeviceId, r: Receipt, e: Event)
    requires e.body.JoinRequestRecorded?
  {
    && e.body.requester == local && e.author == r.responder
    && e.body.sourceType == "invite_claim" && e.body.sourceInviteId == r.inviteId
    && e.body.approvalPolicy == "preapproved" && e.body.displayName != ""
  }

  predicate ViewFits(local: DeviceId, r: Receipt, q: Request, request: Event, member: Event)
    requires request.body.JoinRequestRecorded?
  {
    && q.requestedEvent == request.id && q.requester == local && q.requestedBy == r.responder
    && q.displayName == request.body.displayName && q.sourceType == "invite_claim"
    && q.sourceInviteId == r.inviteId && q.approvalPolicy == "preapproved"
    && q.status == Approved && q.resolvedEvent == Some(member.id) && q.resolvedBy == Some(r.responder)
  }

  function CanonicalInviteClaim(local: DeviceId, r: Receipt, events: seq<Event>, requests: map<RequestId, Request>): Verdict {
    var request := Only(events, Requesting(r));
    if request.None? || !RequestFits(local, r, request.value) then NotCanonical
    else
      var name := request.value.body.displayName;
      if |name| > DisplayNameMax then NameTooLarge
      else if r.displayName != "" && r.displayName != name then NotCanonical
      else
        var capability := Only(events, Capability(r));
        if capability.None? || capability.value.author != r.responder
           || capability.value.body.capabilityKey != r.capabilityKey then NotCanonical
        else
          var member := Only(events, Membership(local, request.value.id));
          if member.None? || member.value.author != r.responder then NotCanonical
          else
            var claim := Only(events, Claiming(r));
            if claim.None? || claim.value.body != InviteClaimed(r.inviteId, local, r.requestId)
               || claim.value.author != r.responder || claim.value.parents != [member.value.id] then NotCanonical
            else if r.requestId !in requests
                    || !ViewFits(local, r, requests[r.requestId], request.value, member.value) then NotCanonical
            else Canonical(name, member.value.id)
  }

  lemma OnlyPermutes(s: seq<Event>, t: seq<Event>, p: Event -> bool)
    requires multiset(s) == multiset(t)
    ensures Only(s, p) == Only(t, p)
  {
    FilterPermutes(s, t, p);
    var a, b := Filter(s, p), Filter(t, p);
    assert |a| == |multiset(a)| == |multiset(b)| == |b|;
    if |a| == 1 {
      assert a[0] in multiset(b) && b == [b[0]];
    }
  }

  /** The verdict does not depend on the order in which the events arrived. */
  lemma OrderDoesNotMatter(local: DeviceId, r: Receipt, s: seq<Event>, t: seq<Event>, requests: map<RequestId, Request>)
    requires multiset(s) == multiset(t)
    ensures CanonicalInviteClaim(local, r, s, requests) == CanonicalInviteClaim(local, r, t, requests)
  {
    OnlyPermutes(s, t, Requesting(r));
    var request := Only(s, Requesting(r));
    OnlyPermutes(s, t, Capability(r));
    OnlyPermutes(s, t, Claiming(r));
    if request.Some? {
      OnlyPermutes(s, t, Membership(local, request.value.id));
    }
  }

  /** Exactly one stored event satisfies `p`, and it is `e`. */
  ghost predicate Sole(events: seq<Event>, p: Event -> bool, e: Event) {
    e in events && p(e) && multiset(events)[e] == 1 && forall x :: x in events && p(x) ==> x == e
  }

  ghost predicate OneChain(local: DeviceId, r: Receipt, events: seq<Event>,
                           capability: Event, request: Event, member: Event, claim: Event)
  {
    && Sole(events, Capability(r), capability) && Sole(events, Requesting(r), request)
    && Sole(events, Membership(local, request.id), member) && Sole(events, Claiming(r), claim)
    && capability.author == request.author == member.author == claim.author == r.responder
    && member.parents == [request.id] && claim.parents == [member.id]
    && capability.body.capabilityKey == r.capabilityKey
  }

  /** A canonical claim is one capability, one request, one membership and one claim event, all by
      the expected responder, the last three chained by single parents. */
  lemma CanonicalMeansOneChain(local: DeviceId, r: Receipt, events: seq<Event>, requests: map<RequestId, Request>)
    returns (capability: Event, request: Event, member: Event, claim: Event)
    requires CanonicalInviteClaim(local, r, events, requests).Canonical?
    ensures OneChain(local, r, events, capability, request, member, claim)
    ensures request.body.JoinRequestRecorded?
    ensures CanonicalInviteClaim(local, r, events, requests) == Canonical(request.body.displayName, member.id)
  {
    request := Only(events, Requesting(r)).value;
    capability := Only(events, Capability(r)).value;
    member := Only(events, Membership(local, request.id)).value;
    claim := Only(events, Claiming(r)).value;
    OnlyIsSole(events, Requesting(r));
    OnlyIsSole(events, Capability(r));
    OnlyIsSole(events, Membership(local, request.id));
    OnlyIsSole(events, Claiming(r));
  }

  /** Everything the joiner asks of a pulled history, event by event and field by field. */
  ghost predicate Confirms(local: DeviceId, r: Receipt, events: seq<Event>, requests: map<RequestId, Request>,
                           capability: Event, request: Event, member: Event, claim: Event, name: string)
  {
    && OneChain(local, r, events, capability, request, member, claim)
    && request.body == JoinRequestRecorded(r.requestId, local, name, "invite_claim", r.inviteId, "preapproved")
    && claim.body == InviteClaimed(r.inviteId, local, r.requestId)
    && 0 < |name| <= DisplayNameMax && (r.displayName == "" || r.displayName == name)
    && r.requestId in requests
    && requests[r.requestId] == Request(request.id, r.responder, local, name, "invite_claim", r.inviteId, "preapproved",
                                        Approved, Some(member.id), Some(r.responder))
  }

  lemma SoleIsOnly(events: seq<Event>, p: Event -> bool, e: Event)
    requires Sole(events, p, e)
    ensures Only(events, p) == Some(e)
  {
    var hits := Filter(events, p);
    FilterCounts(events, p, e);
    assert multiset(hits)[e] == 1;
    assert e in hits && forall x :: x in hits ==> x == e;
    forall i | 0 <= i < |hits| ensures hits[i] == e {
      assert hits[i] in hits;
    }
    AllTheSame(hits, e);
  }

  lemma {:induction false} AllTheSame(hits: seq<Event>, e: Event)
    requires forall i :: 0 <= i < |hits| ==> hits[i] == e
    ensures multiset(hits)[e] == |hits|
  {
    if hits != [] {
      assert hits == [hits[0]] + hits[1..];
      AllTheSame(hits[1..], e);
    }
  }

  lemma ConfirmedIsCanonical(local: DeviceId, r: Receipt, events: seq<Event>, requests: map<RequestId, Request>,
                             capability: Event, request: Event, member: Event, claim: Event, name: string)
    requires Confirms(local, r, events, requests, capability, request, member, claim, name)
    ensures CanonicalInviteClaim(local, r, events, requests) == Canonical(name, member.id)
  {
    SoleIsOnly(events, Requesting(r), request);
    SoleIsOnly(events, Capability(r), capability);
    SoleIsOnly(events, Membership(local, request.id), member);
    SoleIsOnly(events, Claiming(r), claim);
  }

  lemma CanonicalIsConfirmed(local: DeviceId, r: Receipt, events: seq<Event>, requests: map<RequestId, Request>)
    returns (capability: Event, request: Event, member: Event, claim: Event)
    requires CanonicalInviteClaim(local, r, events, requests).Canonical?
    ensures var v := CanonicalInviteClaim(local, r, events, requests);
            member.id == v.memberEvent && Confirms(local, r, events, requests, capability, request, member, claim, v.displayName)
  {
    capability, request, member, claim := CanonicalMeansOneChain(local, r, events, requests);
  }

  /** The verdict is canonical exactly when four sole events and the materialized request confirm every
      field of the claim. */
  lemma CanonicalExactly(local: DeviceId, r: Receipt, events: seq<Event>, requests: map<RequestId, Request>, name: string, id: EventId)
    ensures CanonicalInviteClaim(local, r, events, requests) == Canonical(name, id) <==>
            exists capability: Event, request: Event, member: Event, claim: Event ::
              member.id == id && Confirms(local, r, events, requests, capability, request, member, claim, name)
  {
    if CanonicalInviteClaim(local, r, events, requests) == Canonical(name, id) {
      var capability, request, member, claim := CanonicalIsConfirmed(local, r, events, requests);
    }
    if capability: Event, request: Event, member: Event, claim: Event :|
         member.id == id && Confirms(local, r, events, requests, capability, request, member, claim, name)
    {
      ConfirmedIsCanonical(local, r, events, requests, capability, request, member, claim, name);
    }
  }

  // ---------- responder and joiner agree ----------

  lemma {:induction false} FilterNone(events: seq<Event>, p: Event -> bool)
    requires forall e :: e in events ==> !p(e)
    ensures Filter(events, p) == []
  {
    if events != [] {
      FilterNone(events[1..], p);
    }
  }

  lemma {:induction false} FilterConcat(a: seq<Event>, b: seq<Event>, p: Event -> bool)
    ensures Filter(a + b, p) == Filter(a, p) + Filter(b, p)
  {
    if a == [] {
      assert a + b == b;
    } else {
      assert (a + b)[1..] == a[1..] + b;
      FilterConcat(a[1..], b, p);
    }
  }

  lemma FilterThree(t: seq<Event>, p: Event -> bool, k: nat)
    requires |t| == 3 && k < 3 && p(t[k]) && forall j :: 0 <= j < 3 && j != k ==> !p(t[j])
    ensures Filter(t, p) == [t[k]]
  {
    assert t == [t[0]] + ([t[1]] + [t[2]]);
    FilterConcat([t[0]], [t[1]] + [t[2]], p);
    FilterConcat([t[1]], [t[2]], p);
    FilterOne(t[0], p);
    FilterOne(t[1], p);
    FilterOne(t[2], p);
  }

  lemma FilterOne(e: Event, p: Event -> bool)
    ensures Filter([e], p) == if p(e) then [e] else []
  {
    assert [e][1..] == [];
    assert Filter([], p) == [];
  }

  predicate Any(events: seq<Event>, p: Event -> bool) {
    exists e :: e in events && p(e)
  }

  lemma FilterEmptyExactly(events: seq<Event>, p: Event -> bool)
    ensures Filter(events, p) == [] <==> !Any(events, p)
  {
    if !Any(events, p) {
      FilterNone(events, p);
    } else {
      var e :| e in events && p(e);
      assert e in Filter(events, p);
    }
  }

  /** An event of the triple is the only one of its kind until a later one of that kind is applied. */
  lemma OnlyInTriple(before: seq<Event>, t: seq<Event>, rest: seq<Event>, p: Event -> bool, k: nat)
    requires |t| == 3 && k < 3 && p(t[k]) && (forall j :: 0 <= j < 3 && j != k ==> !p(t[j])) && !Any(before, p)
    ensures Only(before + t + rest, p) == if Any(rest, p) then None else Some(t[k])
  {
    FilterConcat(before + t, rest, p);
    FilterConcat(before, t, p);
    FilterThree(t, p, k);
    FilterEmptyExactly(before, p);
    FilterEmptyExactly(rest, p);
  }

  /** The same for an event that stood before the triple. */
  lemma OnlyBeforeTriple(before: seq<Event>, t: seq<Event>, rest: seq<Event>, p: Event -> bool)
    requires Only(before, p).Some? && !Any(t, p)
    ensures Only(before + t + rest, p) == if Any(rest, p) then None else Only(before, p)
  {
    FilterConcat(before + t, rest, p);
    FilterConcat(before, t, p);
    FilterEmptyExactly(t, p);
    FilterEmptyExactly(rest, p);
  }

  ghost predicate ReceiptOf(r: Receipt, c: Claim, responder: DeviceId) {
    && r.inviteId == c.inviteId && r.requestId == c.requestId && r.responder == responder
    && r.displayName == c.displayName && |c.displayName| <= DisplayNameMax
  }

  /** The history the joiner pulls names exactly one capability for the invite, the one it was handed. */
  ghost predicate OneCapability(events: seq<Event>, r: Receipt) {
    var capability := Only(events, Capability(r));
    capability.Some? && capability.value.author == r.responder && capability.value.body.capabilityKey == r.capabilityKey
  }

  // ---------- the materialized request ----------

  /** The request of an accepted claim, once its membership event resolved it or when an invite
      addressed to the device had answered it before. */
  function RequestSeen(c: Claim, responder: DeviceId, minted: Minted, member: Event, answered: bool): Request {
    var q := Request(minted.request, responder, c.device, c.displayName, "invite_claim", c.inviteId, "preapproved",
                     Waiting, None, None);
    if answered then q.(status := Approved) else Approve(q, member)
  }

  ghost predicate WasAnswered(before: Context, c: Claim, t: seq<Event>)
    requires |t| == 3
  {
    AnsweredByInvite(MarkAccepted(before.state.invites, t[0]), c.requestId, c.device)
  }

  /** The materialized request after the three events of an accepted claim. */
  lemma RequestView(ctx: Context, c: Claim, responder: DeviceId, role: Role, minted: Minted)
    requires c.device !in ctx.state.members
    ensures var t := Triple(ctx, c, responder, role, minted);
            var requests := AfterThree(ctx.state, t).requests;
            c.requestId in requests && requests[c.requestId] == RequestSeen(c, responder, minted, t[1], WasAnswered(ctx, c, t))
  {
    var t := Triple(ctx, c, responder, role, minted);
    var one := Apply(ctx.state, t[0]);
    var two := Apply(one, t[1]);
    assert one.requests[c.requestId].requester == c.device;
    assert two.requests == ApproveWaiting(one.requests, c.device, t[1]);
    assert Apply(two, t[2]).requests == ApproveOne(two.requests, c.requestId, c.device, t[2]);
  }

  predicate Resolves(e: Event, q: RequestId) {
    e.body.JoinRequestResolved? && e.body.requestId == q
  }

  lemma RequestStep(s: State, e: Event, q: RequestId)
    requires q in s.requests && s.requests[q].status != Waiting
    requires !(e.body.JoinRequestRecorded? && e.body.requestId == q)
    ensures q in Apply(s, e).requests && Apply(s, e).requests[q].status != Waiting
    ensures !Resolves(e, q) ==> Apply(s, e).requests[q] == s.requests[q]
    ensures Resolves(e, q) ==> Apply(s, e).requests[q].resolvedEvent == Some(e.id)
  {
  }

  /** A settled request changes only when it is recorded again or resolved by hand. */
  lemma {:induction false} RequestKept(s: State, rest: seq<Event>, q: RequestId)
    requires q in s.requests && s.requests[q].status != Waiting
    requires forall e :: e in rest ==> !(e.body.JoinRequestRecorded? && e.body.requestId == q)
    ensures q in Fold(s, rest).requests && Fold(s, rest).requests[q].status != Waiting
    ensures (forall e :: e in rest ==> !Resolves(e, q)) ==> Fold(s, rest).requests[q] == s.requests[q]
    ensures (exists e :: e in rest && Resolves(e, q)) ==>
              exists e :: e in rest && Resolves(e, q) && Fold(s, rest).requests[q].resolvedEvent == Some(e.id)
  {
    if rest != [] {
      var n := |rest| - 1;
      RequestKept(s, rest[..n], q);
      RequestStep(Fold(s, rest[..n]), rest[n], q);
      assert rest == rest[..n] + [rest[n]];
    }
  }

  // ---------- the verdict on a later history ----------

  /** A later event that makes the claim ambiguous or resolves its request by hand. */
  predicate Disturbs(e: Event, local: DeviceId, r: Receipt, request: EventId) {
    || IsRequest(e, r) || IsCapability(e, r) || IsMembership(e, local, request) || IsClaim(e, r)
    || Resolves(e, r.requestId)
  }

  /** What the joiner looks up, as long as the request is the only one. */
  lemma VerdictFrom(events: seq<Event>, requests: map<RequestId, Request>, t: seq<Event>, ctx: Context, c: Claim,
                    responder: DeviceId, role: Role, minted: Minted, r: Receipt)
    requires t == Triple(ctx, c, responder, role, minted) && ReceiptOf(r, c, responder) && c.displayName != ""
    requires Only(events, Requesting(r)) == Some(t[0])
    requires OneCapability(events, r) || Only(events, Capability(r)) == None
    requires Only(events, Membership(c.device, minted.request)) in {None, Some(t[1])}
    requires Only(events, Claiming(r)) in {None, Some(t[2])}
    requires c.requestId in requests
    ensures CanonicalInviteClaim(c.device, r, events, requests) ==
            if && Only(events, Capability(r)).Some? && Only(events, Membership(c.device, minted.request)).Some?
               && Only(events, Claiming(r)).Some? && ViewFits(c.device, r, requests[c.requestId], t[0], t[1])
            then Canonical(c.displayName, minted.member) else NotCanonical
  {
  }

  lemma SeenFits(c: Claim, responder: DeviceId, minted: Minted, ctx: Context, role: Role, r: Receipt, answered: bool)
    requires ReceiptOf(r, c, responder)
    ensures var t := Triple(ctx, c, responder, role, minted);
            ViewFits(c.device, r, RequestSeen(c, responder, minted, t[1], answered), t[0], t[1]) <==> !answered
  {
  }

  lemma AcceptFacts(ctx: Context, c: Claim, expiry: Expiry)
    requires Decide(ctx, c, expiry).Accept?
    ensures c.device !in ctx.state.members && c.displayName != ""
  {
  }

  /** Accepting a claim means that no applied event uses its request id. */
  lemma NothingOfThisClaimYet(log: seq<Event>, c: Claim, responder: DeviceId, expiry: Expiry, role: Role, minted: Minted, r: Receipt)
    requires AcceptedOn(log, c, responder, expiry, role, minted) && ReceiptOf(r, c, responder)
    ensures var before := Materialize(log).events;
            !Any(before, Requesting(r)) && !Any(before, Membership(c.device, minted.request)) && !Any(before, Claiming(r))
  {
    var before := Materialize(log);
    MaterializedInBrief(log);
    forall e | e in before.events
      ensures !IsRequest(e, r) && !IsClaim(e, r) && !IsMembership(e, c.device, minted.request)
    {
      AcceptMeetsNoClaim(before, c, expiry, e);
      assert e in log;
      assert e.parents == [minted.request] ==> minted.request in e.parents;
    }
  }

  /** Which event of a triple is which. */
  lemma KindsOfTriple(t: seq<Event>, ctx: Context, c: Claim, responder: DeviceId, role: Role, minted: Minted, r: Receipt)
    requires t == Triple(ctx, c, responder, role, minted) && ReceiptOf(r, c, responder)
    ensures Requesting(r)(t[0]) && !Requesting(r)(t[1]) && !Requesting(r)(t[2])
    ensures var p := Membership(c.device, minted.request); !p(t[0]) && p(t[1]) && !p(t[2])
    ensures !Claiming(r)(t[0]) && !Claiming(r)(t[1]) && Claiming(r)(t[2])
    ensures !Any(t, Capability(r))
  {
  }

  ghost predicate LookupIs(events: seq<Event>, p: Event -> bool, rest: seq<Event>, e: Event) {
    Only(events, p) == if Any(rest, p) then None else Some(e)
  }

  /** The lookups of the joiner in a history that goes on after the triple. */
  lemma LookupsAfterTriple(before: seq<Event>, t: seq<Event>, rest: seq<Event>, ctx: Context, c: Claim, responder: DeviceId,
                           role: Role, minted: Minted, r: Receipt)
    requires t == Triple(ctx, c, responder, role, minted) && ReceiptOf(r, c, responder)
    requires !Any(before, Requesting(r)) && !Any(before, Membership(c.device, minted.request)) && !Any(before, Claiming(r))
    ensures LookupIs(before + t + rest, Requesting(r), rest, t[0])
    ensures LookupIs(before + t + rest, Membership(c.device, minted.request), rest, t[1])
    ensures LookupIs(before + t + rest, Claiming(r), rest, t[2])
  {
    KindsOfTriple(t, ctx, c, responder, role, minted, r);
    OnlyInTriple(before, t, rest, Requesting(r), 0);
    OnlyInTriple(before, t, rest, Membership(c.device, minted.request), 1);
    OnlyInTriple(before, t, rest, Claiming(r), 2);
  }

  lemma CapabilityAfterTriple(before: seq<Event>, t: seq<Event>, rest: seq<Event>, ctx: Context, c: Claim, responder: DeviceId,
                              role: Role, minted: Minted, r: Receipt)
    requires t == Triple(ctx, c, responder, role, minted) && ReceiptOf(r, c, responder) && OneCapability(before, r)
    ensures if Any(rest, Capability(r)) then Only(before + t + rest, Capability(r)) == None
            else OneCapability(before + t + rest, r)
  {
    KindsOfTriple(t, ctx, c, responder, role, minted, r);
    OnlyBeforeTriple(before, t, rest, Capability(r));
  }

  ghost predicate Undisturbed(rest: seq<Event>, local: DeviceId, r: Receipt, request: EventId) {
    forall e :: e in rest ==> !Disturbs(e, local, r, request)
  }

  lemma UndisturbedMeans(rest: seq<Event>, local: DeviceId, r: Receipt, request: EventId)
    ensures Undisturbed(rest, local, r, request) <==>
            && !Any(rest, Requesting(r)) && !Any(rest, Capability(r)) && !Any(rest, Membership(local, request))
            && !Any(rest, Claiming(r)) && (forall e :: e in rest ==> !Resolves(e, r.requestId))
  {
    forall e
      ensures Disturbs(e, local, r, request) <==>
              || Requesting(r)(e) || Capability(r)(e) || Membership(local, request)(e) || Claiming(r)(e)
              || Resolves(e, r.requestId)
    {
    }
  }

  /** The joiner's view of the request fits until it is resolved by hand. */
  lemma ViewAfterTriple(before: Context, t: seq<Event>, rest: seq<Event>, c: Claim, responder: DeviceId,
                        role: Role, minted: Minted, r: Receipt)
    requires t == Triple(before, c, responder, role, minted) && ReceiptOf(r, c, responder) && c.device !in before.state.members
    requires !Any(rest, Requesting(r)) && forall e :: e in rest ==> e.id != minted.member
    ensures var requests := Fold(AfterThree(before.state, t), rest).requests;
            && c.requestId in requests
            && (ViewFits(c.device, r, requests[c.requestId], t[0], t[1]) <==>
                !WasAnswered(before, c, t) && forall e :: e in rest ==> !Resolves(e, c.requestId))
  {
    RequestView(before, c, responder, role, minted);
    SeenFits(c, responder, minted, before, role, r, WasAnswered(before, c, t));
    forall e | e in rest ensures !(e.body.JoinRequestRecorded? && e.body.requestId == c.requestId) {
      assert !Requesting(r)(e);
    }
    RequestKept(AfterThree(before.state, t), rest, c.requestId);
    assert t[1].id == minted.member;
  }

  /** The joiner's verdict on a history that goes on after the triple. */
  lemma VerdictAfterTriple(before: Context, t: seq<Event>, rest: seq<Event>, c: Claim, responder: DeviceId,
                           role: Role, minted: Minted, r: Receipt)
    requires t == Triple(before, c, responder, role, minted) && ReceiptOf(r, c, responder) && OneCapability(before.events, r)
    requires c.device !in before.state.members && c.displayName != ""
    requires var b := before.events;
             !Any(b, Requesting(r)) && !Any(b, Membership(c.device, minted.request)) && !Any(b, Claiming(r))
    requires forall e :: e in rest ==> e.id != minted.member
    ensures CanonicalInviteClaim(c.device, r, before.events + t + rest, Fold(AfterThree(before.state, t), rest).requests) ==
            if !WasAnswered(before, c, t) && Undisturbed(rest, c.device, r, minted.request)
            then Canonical(c.displayName, minted.member) else NotCanonical
  {
    var events := before.events + t + rest;
    LookupsAfterTriple(before.events, t, rest, before, c, responder, role, minted, r);
    UndisturbedMeans(rest, c.device, r, minted.request);
    if Any(rest, Requesting(r)) {
      assert Only(events, Requesting(r)) == None;
    } else {
      CapabilityAfterTriple(before.events, t, rest, before, c, responder, role, minted, r);
      ViewAfterTriple(before, t, rest, c, responder, role, minted, r);
      VerdictFrom(events, Fold(AfterThree(before.state, t), rest).requests, t, before, c, responder, role, minted, r);
    }
  }

  /** What follows the triple in a history that continues it. */
  lemma RestAfterTriple(ctx: Context, before: Context, t: seq<Event>)
    requires Continues(ctx, before, t)
    ensures var n := |before.events| + 3;
            && n <= |ctx.events| && ctx.events == before.events + t + ctx.events[n..]
            && ctx.state == Fold(AfterThree(before.state, t), ctx.events[n..])
            && forall e :: e in ctx.events[n..] ==> e.id != t[1].id
  {
    var n := |before.events| + 3;
    StateAtTriple(ctx, before, t);
    StateAfterTriple(ctx, before, t);
    assert ctx.events == ctx.events[..n] + ctx.events[n..];
    forall e | e in ctx.events[n..] ensures e.id != t[1].id {
      var k :| 0 <= k < |ctx.events[n..]| && ctx.events[n..][k] == e;
      assert ctx.events[n + k] == e && ctx.events[n - 2] == t[1];
    }
  }

  /** Round trip between the two sides. The responder accepted a claim on a history in which no row
      had to wait. In every later history the joiner recognizes it as its canonical claim if and only
      if no invite addressed to the device had already answered the request and no later applied
      event repeats a part of the claim or resolves its request by hand. */
  lemma AcceptedClaimIsCanonical(log: seq<Event>, c: Claim, responder: DeviceId, expiry: Expiry, role: Role, minted: Minted,
                                 r: Receipt, more: seq<Event>)
    requires AcceptedOn(log, c, responder, expiry, role, minted) && ReceiptOf(r, c, responder) && InOrder(log)
    requires OneCapability(Materialize(log).events, r)
    ensures var before := Materialize(log);
            var t := Triple(before, c, responder, role, minted);
            var ctx := Materialize(WithTriple(log, c, responder, role, minted) + more);
            var n := |before.events| + 3;
            && n <= |ctx.events|
            && CanonicalInviteClaim(c.device, r, ctx.events, ctx.state.requests) ==
               if !WasAnswered(before, c, t) && Undisturbed(ctx.events[n..], c.device, r, minted.request)
               then Canonical(c.displayName, minted.member) else NotCanonical
  {
    AcceptedContinues(log, c, responder, expiry, role, minted, more);
    CanonicalWhileContinued(Materialize(WithTriple(log, c, responder, role, minted) + more), log, c, responder, expiry, role, minted, r);
  }

  lemma CanonicalWhileContinued(ctx: Context, log: seq<Event>, c: Claim, responder: DeviceId, expiry: Expiry, role: Role,
                                minted: Minted, r: Receipt)
    requires AcceptedOn(log, c, responder, expiry, role, minted) && ReceiptOf(r, c, responder)
    requires OneCapability(Materialize(log).events, r)
    requires Continues(ctx, Materialize(log), Triple(Materialize(log), c, responder, role, minted))
    ensures var before := Materialize(log);
            var t := Triple(before, c, responder, role, minted);
            var n := |before.events| + 3;
            && n <= |ctx.events|
            && CanonicalInviteClaim(c.device, r, ctx.events, ctx.state.requests) ==
               if !WasAnswered(before, c, t) && Undisturbed(ctx.events[n..], c.device, r, minted.request)
               then Canonical(c.displayName, minted.member) else NotCanonical
  {
    var before := Materialize(log);
    var t := Triple(before, c, responder, role, minted);
    RestAfterTriple(ctx, before, t);
    NothingOfThisClaimYet(log, c, responder, expiry, role, minted, r);
    AcceptFacts(before, c, expiry);
    TripleHasShape(before, c, responder, role, minted);
    VerdictAfterTriple(before, t, ctx.events[|before.events| + 3..], c, responder, role, minted, r);
  }
}
