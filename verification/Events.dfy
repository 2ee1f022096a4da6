/** The signed events of a workspace history, as far as the protocols modelled here read them.

    Identifiers are opaque strings. Signatures, timestamps and ciphertexts are left out: an event
    carries its content-derived id, its author, the ids of its causal parents and its body.
 */
module Events {

  type EventId = string
  type DeviceId = string
  type InviteId = string
  type RequestId = string
  type PersonId = string
  type ChannelId = string
  type GroupId = string
  type KeyPackageId = string

  datatype Option<+T> = None | Some(value: T)

  datatype Role = Owner | Admin | Regular | Guest

  /** An OpenMLS group belongs to the workspace or to one private channel. */
  datatype Scope = Workspace | Channel(channel: ChannelId)

  datatype Body =
    | WorkspaceCreated
    | MemberInvited(invitee: DeviceId, role: Role)
    | MemberRoleUpdated(member: DeviceId, newRole: Role)
    | MemberRemoved(removed: DeviceId)
    | InviteRecorded(inviteId: InviteId, invitedDevice: DeviceId, inviteRole: Role, forRequest: Option<RequestId>)
    | InviteCapabilityCreated(inviteId: InviteId, inviteRole: Role, expiresAt: string,
                              capabilityKey: string, maxClaims: Option<nat>)
    | InviteClaimed(inviteId: InviteId, claimant: DeviceId, requestId: RequestId)
    | InviteRevoked(inviteId: InviteId)
    | JoinRequestRecorded(requestId: RequestId, requester: DeviceId, displayName: string,
                          sourceType: string, sourceInviteId: InviteId, approvalPolicy: string)
    | JoinRequestResolved(requestId: RequestId, approved: bool)
    | DeviceProfileUpdated(displayName: string)
    | PersonDeviceLinked(person: PersonId, device: DeviceId)
    | PersonProfileUpdated(person: PersonId, displayName: string)
    | KeyPackagePublished(keyPackage: KeyPackageId, openMls: bool)
    | ContentKeyEpochPublished
    | ChannelMemberAdded(channel: ChannelId, channelMember: DeviceId)
    | ChannelMemberRemoved(channel: ChannelId, channelMember: DeviceId)
    | GroupMemberAdded(scope: Scope, group: GroupId, epoch: nat, added: DeviceId, keyPackage: KeyPackageId)
    | GroupMemberRemoved(scope: Scope, group: GroupId, epoch: nat, dropped: DeviceId)
    | GroupSelfUpdated(scope: Scope, group: GroupId, epoch: nat)
    | Other

  datatype Event = Event(id: EventId, author: DeviceId, parents: seq<EventId>, body: Body)

  function Ids(events: seq<Event>): (ids: seq<EventId>)
    ensures |ids| == |events|
    ensures forall i :: 0 <= i < |events| ==> ids[i] == events[i].id
  {
    seq(|events|, i requires 0 <= i < |events| => events[i].id)
  }

  ghost predicate NoDuplicates<T>(s: seq<T>) {
    forall i, j :: 0 <= i < j < |s| ==> s[i] != s[j]
  }

  /** Index of the first event satisfying `p`. */
  function FindFirst(events: seq<Event>, p: Event -> bool): (r: Option<nat>)
    ensures r.Some? ==> r.value < |events| && p(events[r.value])
                        && forall j :: 0 <= j < r.value ==> !p(events[j])
    ensures r.None? ==> forall j :: 0 <= j < |events| ==> !p(events[j])
  {
    if events == [] then None
    else if p(events[0]) then Some(0)
    else
      var rest := FindFirst(events[1..], p);
      assert forall j :: 1 <= j < |events| ==> events[j] == events[1..][j - 1];
      if rest.Some? then Some(rest.value + 1) else None
  }

  /** Index of the last event satisfying `p`. */
  function FindLast(events: seq<Event>, p: Event -> bool): (r: Option<nat>)
    ensures r.Some? ==> r.value < |events| && p(events[r.value])
                        && forall j :: r.value < j < |events| ==> !p(events[j])
    ensures r.None? ==> forall j :: 0 <= j < |events| ==> !p(events[j])
  {
    if events == [] then None
    else if p(events[|events| - 1]) then Some(|events| - 1)
    else FindLast(events[..|events| - 1], p)
  }

  lemma FindFirstAt(events: seq<Event>, p: Event -> bool, k: nat)
    requires k < |events| && p(events[k]) && forall j :: 0 <= j < k ==> !p(events[j])
    ensures FindFirst(events, p) == Some(k)
  {
  }

  lemma FindLastAt(events: seq<Event>, p: Event -> bool, k: nat)
    requires k < |events| && p(events[k]) && forall j :: k < j < |events| ==> !p(events[j])
    ensures FindLast(events, p) == Some(k)
  {
  }

  function Filter<T(!new)>(s: seq<T>, p: T -> bool): (r: seq<T>)
    ensures forall x :: x in r <==> x in s && p(x)
  {
    if s == [] then [] else (if p(s[0]) then [s[0]] else []) + Filter(s[1..], p)
  }

  /** `ks` are the positions, in order, of the elements that satisfy `p`. */
  ghost predicate Positions<T(!new)>(ks: seq<nat>, s: seq<T>, p: T -> bool) {
    && (forall j :: 0 <= j < |ks| ==> ks[j] < |s| && p(s[ks[j]]))
    && (forall i, j :: 0 <= i < j < |ks| ==> ks[i] < ks[j])
    && (forall k :: 0 <= k < |s| && p(s[k]) ==> exists j :: 0 <= j < |ks| && ks[j] == k)
  }

  lemma PositionsSnoc<T(!new)>(ks: seq<nat>, s: seq<T>, x: T, p: T -> bool)
    requires Positions(ks, s, p)
    ensures Positions(if p(x) then ks + [|s|] else ks, s + [x], p)
  {
    var next: seq<nat> := if p(x) then ks + [|s|] else ks;
    forall k | 0 <= k < |s + [x]| && p((s + [x])[k])
      ensures exists j :: 0 <= j < |next| && next[j] == k
    {
      if k < |s| {
        var j :| 0 <= j < |ks| && ks[j] == k;
        assert next[j] == k;
      } else {
        assert next[|ks|] == k;
      }
    }
  }

  lemma {:induction false} FilterSnocs<T(!new)>(s: seq<T>, x: T, p: T -> bool)
    ensures Filter(s + [x], p) == Filter(s, p) + if p(x) then [x] else []
  {
    if s == [] {
      assert s + [x] == [x] && [x][1..] == [];
    } else {
      var t := s + [x];
      assert t[0] == s[0] && t[1..] == s[1..] + [x];
      FilterSnocs(s[1..], x, p);
      assert Filter(t, p) == (if p(s[0]) then [s[0]] else []) + Filter(t[1..], p);
    }
  }

  /** The elements at these positions. */
  ghost predicate TakenFrom<T(!new)>(r: seq<T>, ks: seq<nat>, s: seq<T>) {
    |ks| == |r| && forall j :: 0 <= j < |ks| ==> ks[j] < |s| && r[j] == s[ks[j]]
  }

  lemma TakenSnoc<T(!new)>(r: seq<T>, ks: seq<nat>, s: seq<T>, x: T, p: T -> bool)
    requires TakenFrom(r, ks, s)
    ensures TakenFrom(r + if p(x) then [x] else [], if p(x) then ks + [|s|] else ks, s + [x])
  {
  }

  /** Filtering keeps exactly the satisfying elements, each at its turn. */
  lemma {:induction false} FilterPositions<T(!new)>(s: seq<T>, p: T -> bool) returns (ks: seq<nat>)
    ensures Positions(ks, s, p) && TakenFrom(Filter(s, p), ks, s)
  {
    if s == [] {
      ks := [];
    } else {
      var before, x := s[..|s| - 1], s[|s| - 1];
      var rest := FilterPositions(before, p);
      assert before + [x] == s;
      FilterSnocs(before, x, p);
      PositionsSnoc(rest, before, x, p);
      TakenSnoc(Filter(before, p), rest, before, x, p);
      ks := if p(x) then rest + [|before|] else rest;
    }
  }

  lemma {:induction false} FilterCounts<T(!new)>(s: seq<T>, p: T -> bool, x: T)
    ensures multiset(Filter(s, p))[x] == if p(x) then multiset(s)[x] else 0
  {
    if s != [] {
      FilterCounts(s[1..], p, x);
      assert s == [s[0]] + s[1..];
    }
  }

  /** Filtering does not look at the order. */
  lemma FilterPermutes<T(!new)>(s: seq<T>, t: seq<T>, p: T -> bool)
    requires multiset(s) == multiset(t)
    ensures multiset(Filter(s, p)) == multiset(Filter(t, p))
  {
    forall x: T
      ensures multiset(Filter(s, p))[x] == multiset(Filter(t, p))[x]
    {
      FilterCounts(s, p, x);
      FilterCounts(t, p, x);
    }
  }

  /** An element at two places is counted twice. */
  lemma CountsTwice<T>(s: seq<T>, i: nat, j: nat)
    requires i < j < |s| && s[i] == s[j]
    ensures multiset(s)[s[i]] >= 2
  {
    assert s == s[..j] + [s[j]] + s[j + 1..];
    assert s[i] in s[..j];
    assert multiset(s[..j])[s[i]] >= 1;
  }
}
