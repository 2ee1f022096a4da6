/** The one-pass index over a history that all OpenMLS provisioning and removal decisions read.

    The workspace tables and the per-channel tables of the index have the same shape; here they are
    one table keyed by scope.
 */
module MlsIndex {
  import opened Events

  // ---------- what the index means, said about the whole history ----------

  predicate AddsTo(e: Event, sc: Scope, g: GroupId, d: DeviceId) {
    e.body.GroupMemberAdded? && e.body.scope == sc && e.body.group == g && (e.author == d || e.body.added == d)
  }

  predicate RemovesFrom(e: Event, sc: Scope, g: GroupId, d: DeviceId) {
    e.body.GroupMemberRemoved? && e.body.scope == sc && e.body.group == g && e.body.dropped == d
  }

  /** Some addition of the device, as author or invitee, has no later removal in that group. */
  ghost predicate InGroup(events: seq<Event>, sc: Scope, g: GroupId, d: DeviceId) {
    exists i :: 0 <= i < |events| && AddsTo(events[i], sc, g, d)
                && forall j :: i < j < |events| ==> !RemovesFrom(events[j], sc, g, d)
  }

  predicate IsCommit(e: Event, sc: Scope, g: GroupId, n: nat) {
    && (e.body.GroupMemberAdded? || e.body.GroupMemberRemoved? || e.body.GroupSelfUpdated?)
    && e.body.scope == sc && e.body.group == g && e.body.epoch == n
  }

  /** Two different commit events claim one epoch of the group. */
  ghost predicate ForkedAt(events: seq<Event>, sc: Scope, g: GroupId, n: nat) {
    exists i, j :: 0 <= i < |events| && 0 <= j < |events|
                   && IsCommit(events[i], sc, g, n) && IsCommit(events[j], sc, g, n) && events[i].id != events[j].id
  }

  ghost predicate Forked(events: seq<Event>, sc: Scope, g: GroupId) {
    exists n: nat :: ForkedAt(events, sc, g, n)
  }

  predicate Revokes(e: Event, sc: Scope, d: DeviceId) {
    e.body.GroupMemberRemoved? && e.body.scope == sc && e.body.dropped == d
  }

  predicate Regrants(e: Event, sc: Scope, d: DeviceId) {
    match sc
    case Workspace => e.body.MemberInvited? && e.body.invitee == d
    case Channel(c) => e.body.ChannelMemberAdded? && e.body.channel == c && e.body.channelMember == d
  }

  /** Some OpenMLS removal of the device has no later re-invite. */
  ghost predicate RevokedIn(events: seq<Event>, sc: Scope, d: DeviceId) {
    exists i :: 0 <= i < |events| && Revokes(events[i], sc, d)
                && forall j :: i < j < |events| ==> !Regrants(events[j], sc, d)
  }

  ghost predicate PackageUsed(events: seq<Event>, k: KeyPackageId) {
    exists i :: 0 <= i < |events| && events[i].body.GroupMemberAdded? && events[i].body.keyPackage == k
  }

  predicate Publishes(e: Event, d: DeviceId) {
    e.body.KeyPackagePublished? && e.body.openMls && e.author == d
  }

  function Published(events: seq<Event>, d: DeviceId): seq<KeyPackageId> {
    if events == [] then []
    else
      var e := events[|events| - 1];
      Published(events[..|events| - 1], d) + if Publishes(e, d) then [e.body.keyPackage] else []
  }

  // ---------- the meaning after one more event ----------

  lemma InGroupSnoc(events: seq<Event>, e: Event, sc: Scope, g: GroupId, d: DeviceId)
    ensures InGroup(events + [e], sc, g, d) <==>
            AddsTo(e, sc, g, d) || (InGroup(events, sc, g, d) && !RemovesFrom(e, sc, g, d))
  {
    var all := events + [e];
    if AddsTo(e, sc, g, d) {
      assert AddsTo(all[|events|], sc, g, d);
    } else if InGroup(events, sc, g, d) && !RemovesFrom(e, sc, g, d) {
      var i :| 0 <= i < |events| && AddsTo(events[i], sc, g, d)
               && forall j :: i < j < |events| ==> !RemovesFrom(events[j], sc, g, d);
      assert AddsTo(all[i], sc, g, d);
    }
    if InGroup(all, sc, g, d) && !AddsTo(e, sc, g, d) {
      var i :| 0 <= i < |all| && AddsTo(all[i], sc, g, d)
               && forall j :: i < j < |all| ==> !RemovesFrom(all[j], sc, g, d);
      assert AddsTo(events[i], sc, g, d);
      assert forall j :: i < j < |events| ==> events[j] == all[j];
      assert !RemovesFrom(all[|events|], sc, g, d);
    }
  }

  lemma RevokedSnoc(events: seq<Event>, e: Event, sc: Scope, d: DeviceId)
    ensures RevokedIn(events + [e], sc, d) <==>
            Revokes(e, sc, d) || (RevokedIn(events, sc, d) && !Regrants(e, sc, d))
  {
    var all := events + [e];
    if Revokes(e, sc, d) {
      assert Revokes(all[|events|], sc, d);
    } else if RevokedIn(events, sc, d) && !Regrants(e, sc, d) {
      var i :| 0 <= i < |events| && Revokes(events[i], sc, d)
               && forall j :: i < j < |events| ==> !Regrants(events[j], sc, d);
      assert Revokes(all[i], sc, d);
    }
    if RevokedIn(all, sc, d) && !Revokes(e, sc, d) {
      var i :| 0 <= i < |all| && Revokes(all[i], sc, d)
               && forall j :: i < j < |all| ==> !Regrants(all[j], sc, d);
      assert Revokes(events[i], sc, d);
      assert forall j :: i < j < |events| ==> events[j] == all[j];
      assert !Regrants(all[|events|], sc, d);
    }
  }

  /** A new commit forks the epoch when some earlier commit of the epoch is another event. */
  lemma ForkedAtSnoc(events: seq<Event>, e: Event, sc: Scope, g: GroupId, n: nat)
    ensures ForkedAt(events + [e], sc, g, n) <==>
            ForkedAt(events, sc, g, n)
            || (IsCommit(e, sc, g, n) && exists i :: 0 <= i < |events| && IsCommit(events[i], sc, g, n) && events[i].id != e.id)
  {
    var all := events + [e];
    assert all[|events|] == e;
    if ForkedAt(events, sc, g, n) {
      var i, j :| 0 <= i < |events| && 0 <= j < |events|
                  && IsCommit(events[i], sc, g, n) && IsCommit(events[j], sc, g, n) && events[i].id != events[j].id;
      assert IsCommit(all[i], sc, g, n) && IsCommit(all[j], sc, g, n);
    }
    if IsCommit(e, sc, g, n) {
      if i :| 0 <= i < |events| && IsCommit(events[i], sc, g, n) && events[i].id != e.id {
        assert IsCommit(all[i], sc, g, n) && IsCommit(all[|events|], sc, g, n);
      }
    }
    if ForkedAt(all, sc, g, n) {
      var i, j :| 0 <= i < |all| && 0 <= j < |all|
                  && IsCommit(all[i], sc, g, n) && IsCommit(all[j], sc, g, n) && all[i].id != all[j].id;
      if i < |events| && j < |events| {
        assert IsCommit(events[i], sc, g, n) && IsCommit(events[j], sc, g, n);
      } else if i < |events| {
        assert IsCommit(events[i], sc, g, n);
      } else {
        assert IsCommit(events[j], sc, g, n);
      }
    }
  }

  lemma UsedSnoc(events: seq<Event>, e: Event, k: KeyPackageId)
    ensures PackageUsed(events + [e], k) <==>
            PackageUsed(events, k) || (e.body.GroupMemberAdded? && e.body.keyPackage == k)
  {
    var all := events + [e];
    assert all[|events|] == e;
    if PackageUsed(events, k) {
      var i :| 0 <= i < |events| && events[i].body.GroupMemberAdded? && events[i].body.keyPackage == k;
      assert all[i] == events[i];
    }
  }

  lemma PublishedSnoc(events: seq<Event>, e: Event, d: DeviceId)
    ensures Published(events + [e], d) == Published(events, d) + if Publishes(e, d) then [e.body.keyPackage] else []
  {
    assert (events + [e])[..|events|] == events;
  }

  ghost predicate HasCommit(events: seq<Event>, sc: Scope, g: GroupId, n: nat, id: EventId) {
    exists i :: 0 <= i < |events| && IsCommit(events[i], sc, g, n) && events[i].id == id
  }

  lemma HasCommitSnoc(events: seq<Event>, e: Event, sc: Scope, g: GroupId, n: nat, id: EventId)
    ensures HasCommit(events + [e], sc, g, n, id) <==>
            HasCommit(events, sc, g, n, id) || (IsCommit(e, sc, g, n) && e.id == id)
  {
    var all := events + [e];
    assert all[|events|] == e;
    if HasCommit(events, sc, g, n, id) {
      var i :| 0 <= i < |events| && IsCommit(events[i], sc, g, n) && events[i].id == id;
      assert all[i] == events[i];
    }
  }

  /** Comparing with the last recorded commit of the epoch is enough: while the epoch is unforked
      all its commits carry one id. */
  lemma LastCommitDecides(events: seq<Event>, e: Event, sc: Scope, g: GroupId, n: nat, last: EventId)
    requires IsCommit(e, sc, g, n) && HasCommit(events, sc, g, n, last)
    ensures ForkedAt(events + [e], sc, g, n) <==> ForkedAt(events, sc, g, n) || last != e.id
  {
    ForkedAtSnoc(events, e, sc, g, n);
    var k :| 0 <= k < |events| && IsCommit(events[k], sc, g, n) && events[k].id == last;
    if i :| 0 <= i < |events| && IsCommit(events[i], sc, g, n) && events[i].id != e.id {
      if last == e.id {
        assert IsCommit(events[k], sc, g, n) && events[i].id != events[k].id;
      }
    }
  }

  lemma FirstCommitDoesNotFork(events: seq<Event>, e: Event, sc: Scope, g: GroupId, n: nat)
    requires IsCommit(e, sc, g, n) && forall id :: !HasCommit(events, sc, g, n, id)
    ensures !ForkedAt(events + [e], sc, g, n)
  {
    ForkedAtSnoc(events, e, sc, g, n);
    forall i | 0 <= i < |events| && IsCommit(events[i], sc, g, n)
      ensures false
    {
      assert HasCommit(events, sc, g, n, events[i].id);
    }
  }

  predicate CommitBody(b: Body) {
    b.GroupMemberAdded? || b.GroupMemberRemoved? || b.GroupSelfUpdated?
  }

  /** A group is forked after one more event when it was, or when that event forks its own epoch. */
  lemma ForkedSnoc(events: seq<Event>, e: Event, sc: Scope, g: GroupId)
    ensures Forked(events + [e], sc, g) <==>
            Forked(events, sc, g)
            || (CommitBody(e.body) && e.body.scope == sc && e.body.group == g && ForkedAt(events + [e], sc, g, e.body.epoch))
  {
    if n: nat :| ForkedAt(events, sc, g, n) {
      ForkedAtSnoc(events, e, sc, g, n);
      assert ForkedAt(events + [e], sc, g, n);
    }
    if n: nat :| ForkedAt(events + [e], sc, g, n) {
      ForkedAtSnoc(events, e, sc, g, n);
    }
  }

  // ---------- the index ----------

  class ProvisionIndex {
    var used: set<KeyPackageId>
    var packages: map<DeviceId, seq<KeyPackageId>>
    var members: map<(Scope, GroupId), set<DeviceId>>
    var commits: map<(Scope, GroupId, nat), EventId>
    var forked: set<(Scope, GroupId)>
    var revoked: map<Scope, set<DeviceId>>

    ghost predicate PackagesDescribe(events: seq<Event>)
      reads this
    {
      && (forall k :: k in used <==> PackageUsed(events, k))
      && (forall d :: Published(events, d) == if d in packages then packages[d] else [])
    }

    ghost predicate MembersDescribe(events: seq<Event>)
      reads this
    {
      forall sc, g, d :: ((sc, g) in members && d in members[(sc, g)]) <==> InGroup(events, sc, g, d)
    }

    ghost predicate CommitsDescribe(events: seq<Event>)
      reads this
    {
      && (forall sc, g, n :: (sc, g, n) in commits ==> HasCommit(events, sc, g, n, commits[(sc, g, n)]))
      && (forall sc, g, n: nat, id :: HasCommit(events, sc, g, n, id) ==> (sc, g, n) in commits)
      && (forall sc, g :: (sc, g) in forked <==> Forked(events, sc, g))
    }

    ghost predicate RevokedDescribe(events: seq<Event>)
      reads this
    {
      forall sc, d :: (sc in revoked && d in revoked[sc]) <==> RevokedIn(events, sc, d)
    }

    /** The tables say exactly what the history says. */
    ghost predicate Describes(events: seq<Event>)
      reads this
    {
      PackagesDescribe(events) && MembersDescribe(events) && CommitsDescribe(events) && RevokedDescribe(events)
    }

    constructor FromEvents(events: seq<Event>)
      ensures Describes(events)
    {
      used, packages, members, commits, forked, revoked := {}, map[], map[], map[], {}, map[];
      new;
      EmptyDescribes();
      var i := 0;
      assert events[..0] == [];
      while i < |events|
        invariant 0 <= i <= |events|
        invariant Describes(events[..i])
      {
        Record(events[..i], events[i]);
        assert events[..i + 1] == events[..i] + [events[i]];
        i := i + 1;
      }
      assert events[..|events|] == events;
    }

    lemma EmptyDescribes()
      requires used == {} && packages == map[] && members == map[] && commits == map[] && forked == {} && revoked == map[]
      ensures Describes([])
    {
    }

    method Record(ghost before: seq<Event>, e: Event)
      requires Describes(before)
      modifies this
      ensures Describes(before + [e])
    {
      RecordCommit(before, e);
      RecordMembers(before, e);
      RecordRevocation(before, e);
      RecordPackages(before, e);
    }

    method RecordCommit(ghost before: seq<Event>, e: Event)
      requires CommitsDescribe(before)
      modifies this`commits, this`forked
      ensures CommitsDescribe(before + [e])
    {
      forall sc, g, n, id
        ensures HasCommit(before + [e], sc, g, n, id) <==>
                HasCommit(before, sc, g, n, id) || (IsCommit(e, sc, g, n) && e.id == id)
      {
        HasCommitSnoc(before, e, sc, g, n, id);
      }
      forall sc, g { ForkedSnoc(before, e, sc, g); }
      if CommitBody(e.body) {
        var sc, g, n := e.body.scope, e.body.group, e.body.epoch;
        if (sc, g, n) in commits {
          LastCommitDecides(before, e, sc, g, n, commits[(sc, g, n)]);
          if commits[(sc, g, n)] != e.id {
            forked := forked + {(sc, g)};
          }
        } else {
          FirstCommitDoesNotFork(before, e, sc, g, n);
        }
        commits := commits[(sc, g, n) := e.id];
      }
    }

    method RecordMembers(ghost before: seq<Event>, e: Event)
      requires MembersDescribe(before)
      modifies this`members
      ensures MembersDescribe(before + [e])
    {
      forall sc, g, d
        ensures InGroup(before + [e], sc, g, d) <==>
                AddsTo(e, sc, g, d) || (InGroup(before, sc, g, d) && !RemovesFrom(e, sc, g, d))
      {
        InGroupSnoc(before, e, sc, g, d);
      }
      if e.body.GroupMemberAdded? {
        var key := (e.body.scope, e.body.group);
        var entry := if key in members then members[key] else {};
        members := members[key := entry + {e.author, e.body.added}];
      } else if e.body.GroupMemberRemoved? {
        var key := (e.body.scope, e.body.group);
        if key in members {
          members := members[key := members[key] - {e.body.dropped}];
        }
      }
    }

    method RecordRevocation(ghost before: seq<Event>, e: Event)
      requires RevokedDescribe(before)
      modifies this`revoked
      ensures RevokedDescribe(before + [e])
    {
      forall sc, d
        ensures RevokedIn(before + [e], sc, d) <==>
                Revokes(e, sc, d) || (RevokedIn(before, sc, d) && !Regrants(e, sc, d))
      {
        RevokedSnoc(before, e, sc, d);
      }
      match e.body
      case MemberInvited(d, _) =>
        if Workspace in revoked {
          revoked := revoked[Workspace := revoked[Workspace] - {d}];
        }
      case ChannelMemberAdded(c, d) =>
        if Channel(c) in revoked {
          revoked := revoked[Channel(c) := revoked[Channel(c)] - {d}];
        }
      case GroupMemberRemoved(sc, _, _, d) =>
        var entry := if sc in revoked then revoked[sc] else {};
        revoked := revoked[sc := entry + {d}];
      case _ =>
    }

    method RecordPackages(ghost before: seq<Event>, e: Event)
      requires PackagesDescribe(before)
      modifies this`packages, this`used
      ensures PackagesDescribe(before + [e])
    {
      forall k
        ensures PackageUsed(before + [e], k) <==>
                PackageUsed(before, k) || (e.body.GroupMemberAdded? && e.body.keyPackage == k)
      {
        UsedSnoc(before, e, k);
      }
      forall d { PublishedSnoc(before, e, d); }
      if e.body.KeyPackagePublished? && e.body.openMls {
        var entry := if e.author in packages then packages[e.author] else [];
        packages := packages[e.author := entry + [e.body.keyPackage]];
      } else if e.body.GroupMemberAdded? {
        used := used + {e.body.keyPackage};
      }
    }
  
    // ----- queries -----

    predicate HasDevice(sc: Scope, g: GroupId, d: DeviceId)
      reads this
    {
      (sc, g) in members && d in members[(sc, g)]
    }

    predicate IsRevoked(sc: Scope, d: DeviceId)
      reads this
    {
      sc in revoked && d in revoked[sc]
    }

    function GroupsOf(sc: Scope, d: DeviceId): (r: set<GroupId>)
      reads this
      ensures forall g :: g in r <==> HasDevice(sc, g, d)
    {
      set key | key in members && key.0 == sc && d in members[key] :: key.1
    }

    /** `k` is unused, and every package published after it is used. */
    ghost predicate IsNewestUnused(candidates: seq<KeyPackageId>, k: KeyPackageId)
      reads this
    {
      && k !in used
      && exists i :: 0 <= i < |candidates| && candidates[i] == k && forall j :: i < j < |candidates| ==> candidates[j] in used
    }

    /** The newest published package of the device that no recorded or marked addition used. */
    function LatestUnused(d: DeviceId): (r: Option<KeyPackageId>)
      reads this
      ensures r.Some? ==> d in packages && IsNewestUnused(packages[d], r.value)
      ensures r.None? && d in packages ==> forall k :: k in packages[d] ==> k in used
    {
      if d in packages then NewestOutside(packages[d], used) else None
    }

    // ----- provisioning -----

    method MarkAdded(sc: Scope, g: GroupId, d: DeviceId, k: KeyPackageId)
      modifies this`members, this`used
      ensures used == old(used) + {k}
      ensures members == old(members)[(sc, g) := (if (sc, g) in old(members) then old(members)[(sc, g)] else {}) + {d}]
    {
      var entry := if (sc, g) in members then members[(sc, g)] else {};
      members := members[(sc, g) := entry + {d}];
      used := used + {k};
    }

    predicate Eligible(sc: Scope, local: DeviceId, g: GroupId, d: DeviceId)
      reads this
    {
      d != local && !IsRevoked(sc, d) && !HasDevice(sc, g, d)
    }

    /** One provisioning round over the members. Every package handed out is the newest unused one of
        its device at its turn, is accepted, and is handed out once. No eligible device is forgotten: it
        is handed one, or at its turn it had none or its newest one was not accepted. When no two
        devices published the same package, the round hands out exactly what was offered at its start. */
    method Provision(sc: Scope, local: DeviceId, localGroup: GroupId, devices: seq<DeviceId>, accepts: Acceptance)
      returns (handed: seq<(DeviceId, KeyPackageId)>)
      modifies this`members, this`used
      ensures RoundOk(packages, handed, old(used), accepts) && used == old(used) + PackagesOf(handed)
      ensures forall d :: d in DevicesOf(handed) ==> d in devices && old(Eligible(sc, local, localGroup, d))
      ensures forall g, d :: HasDevice(sc, g, d) <==> old(HasDevice(sc, g, d)) || (g == localGroup && d in DevicesOf(handed))
      ensures forall d :: d in devices && old(Eligible(sc, local, localGroup, d)) ==> Considered(packages, d, handed, old(used), accepts)
      ensures PackagesApart(packages) ==>
                forall d, k :: (d, k) in handed <==>
                  d in devices && old(Eligible(sc, local, localGroup, d)) && Offered(packages, d, old(used), k, accepts)
    {
      handed := [];
      ghost var eligible := set d | d in devices && Eligible(sc, local, localGroup, d);
      for n := 0 to |devices|
        invariant packages == old(packages) && revoked == old(revoked)
        invariant RoundOk(packages, handed, old(used), accepts) && used == old(used) + PackagesOf(handed)
        invariant DevicesOf(handed) <= eligible
        invariant forall g, d :: HasDevice(sc, g, d) <==> old(HasDevice(sc, g, d)) || (g == localGroup && d in DevicesOf(handed))
        invariant AllConsidered(packages, devices[..n], eligible, handed, old(used), accepts)
      {
        var d := devices[n];
        assert devices[..n + 1] == devices[..n] + [d];
        ghost var was := handed;
        var given := ProvisionOne(sc, local, localGroup, d, accepts);
        if given.Some? {
          handed := handed + [(d, given.value)];
          HandedOne(packages, was, d, given.value, old(used), accepts);
        }
        if d in eligible {
          TurnTaken(packages, was, handed, d, old(used), accepts);
        }
        NextConsidered(packages, devices[..n], d, eligible, was, handed, old(used), accepts);
      }
      assert devices[..|devices|] == devices;
      RoundEnds(packages, devices, eligible, handed, old(used), accepts);
    }

    /** The turn of one device. */
    method ProvisionOne(sc: Scope, local: DeviceId, localGroup: GroupId, d: DeviceId, accepts: Acceptance)
      returns (given: Option<KeyPackageId>)
      modifies this`members, this`used
      ensures given.Some? <==> old(Eligible(sc, local, localGroup, d)) && !Passed(packages, d, old(used), accepts)
      ensures given.Some? ==> Offered(packages, d, old(used), given.value, accepts)
      ensures used == if given.Some? then old(used) + {given.value} else old(used)
      ensures forall g, e :: HasDevice(sc, g, e) <==> old(HasDevice(sc, g, e)) || (given.Some? && g == localGroup && e == d)
    {
      given := None;
      if d != local && !IsRevoked(sc, d) && !HasDevice(sc, localGroup, d) {
        var k := LatestUnused(d);
        if k.Some? && accepts(d, k.value) {
          assert Offered(packages, d, used, k.value, accepts);
          MarkAdded(sc, localGroup, d, k.value);
          given := k;
        }
      }
    }
  }

  // ---------- provisioning rounds ----------

  /** Does the group accept the package of the device? */
  type Acceptance = (DeviceId, KeyPackageId) -> bool

  function NewestOutside(candidates: seq<KeyPackageId>, used: set<KeyPackageId>): (r: Option<KeyPackageId>)
    ensures r.Some? ==> r.value !in used
    ensures r.Some? ==>
              exists i :: 0 <= i < |candidates| && candidates[i] == r.value && forall j :: i < j < |candidates| ==> candidates[j] in used
    ensures r.None? ==> forall k :: k in candidates ==> k in used
  {
    if candidates == [] then None
    else if candidates[|candidates| - 1] !in used then Some(candidates[|candidates| - 1])
    else NewestOutside(candidates[..|candidates| - 1], used)
  }

  function PackagesOf(handed: seq<(DeviceId, KeyPackageId)>): set<KeyPackageId> {
    set x | x in handed :: x.1
  }

  function DevicesOf(handed: seq<(DeviceId, KeyPackageId)>): set<DeviceId> {
    set x | x in handed :: x.0
  }

  /** With the packages `taken` used, `k` is the device's newest unused package and it is accepted. */
  ghost predicate Offered(packages: map<DeviceId, seq<KeyPackageId>>, d: DeviceId, taken: set<KeyPackageId>, k: KeyPackageId,
                          accepts: Acceptance) {
    d in packages && NewestOutside(packages[d], taken) == Some(k) && accepts(d, k)
  }

  ghost predicate Passed(packages: map<DeviceId, seq<KeyPackageId>>, d: DeviceId, taken: set<KeyPackageId>, accepts: Acceptance) {
    forall k :: !Offered(packages, d, taken, k, accepts)
  }

  /** Each package was offered at its turn, and no device and no package comes twice. */
  ghost predicate RoundOk(packages: map<DeviceId, seq<KeyPackageId>>, handed: seq<(DeviceId, KeyPackageId)>,
                          used: set<KeyPackageId>, accepts: Acceptance) {
    && (forall i :: 0 <= i < |handed| ==> Offered(packages, handed[i].0, used + PackagesOf(handed[..i]), handed[i].1, accepts))
    && (forall i, j :: 0 <= i < j < |handed| ==> handed[i].0 != handed[j].0 && handed[i].1 != handed[j].1)
  }

  /** The device is handed a package, or at some moment of the round it had none to offer. */
  ghost predicate Considered(packages: map<DeviceId, seq<KeyPackageId>>, d: DeviceId, handed: seq<(DeviceId, KeyPackageId)>,
                             used: set<KeyPackageId>, accepts: Acceptance) {
    d in DevicesOf(handed) || exists m :: 0 <= m <= |handed| && Passed(packages, d, used + PackagesOf(handed[..m]), accepts)
  }

  lemma HandedSets(was: seq<(DeviceId, KeyPackageId)>, d: DeviceId, k: KeyPackageId)
    ensures PackagesOf(was + [(d, k)]) == PackagesOf(was) + {k} && DevicesOf(was + [(d, k)]) == DevicesOf(was) + {d}
  {
    var handed := was + [(d, k)];
    assert handed[|was|] == (d, k);
    assert forall x :: x in handed <==> x in was || x == (d, k);
  }

  lemma HandedIsNew(was: seq<(DeviceId, KeyPackageId)>, d: DeviceId, k: KeyPackageId)
    requires d !in DevicesOf(was) && k !in PackagesOf(was)
    ensures forall i :: 0 <= i < |was| ==> was[i].0 != d && was[i].1 != k
  {
    forall i | 0 <= i < |was| ensures was[i].0 != d && was[i].1 != k {
      assert was[i] in was;
    }
  }

  lemma HandedOne(packages: map<DeviceId, seq<KeyPackageId>>, was: seq<(DeviceId, KeyPackageId)>, d: DeviceId, k: KeyPackageId,
                  used: set<KeyPackageId>, accepts: Acceptance)
    requires RoundOk(packages, was, used, accepts) && d !in DevicesOf(was)
    requires Offered(packages, d, used + PackagesOf(was), k, accepts)
    ensures RoundOk(packages, was + [(d, k)], used, accepts)
    ensures PackagesOf(was + [(d, k)]) == PackagesOf(was) + {k} && DevicesOf(was + [(d, k)]) == DevicesOf(was) + {d}
  {
    var handed := was + [(d, k)];
    HandedSets(was, d, k);
    HandedIsNew(was, d, k);
    forall i | 0 <= i < |handed|
      ensures Offered(packages, handed[i].0, used + PackagesOf(handed[..i]), handed[i].1, accepts)
    {
      HandedPrefix(was, (d, k), i);
    }
  }

  lemma HandedPrefix(was: seq<(DeviceId, KeyPackageId)>, x: (DeviceId, KeyPackageId), i: nat)
    requires i <= |was|
    ensures (was + [x])[..i] == was[..i] && was[..|was|] == was
  {
  }

  ghost predicate AllConsidered(packages: map<DeviceId, seq<KeyPackageId>>, devices: seq<DeviceId>, eligible: set<DeviceId>,
                                handed: seq<(DeviceId, KeyPackageId)>, used: set<KeyPackageId>, accepts: Acceptance) {
    forall d :: d in devices && d in eligible ==> Considered(packages, d, handed, used, accepts)
  }

  lemma NextConsidered(packages: map<DeviceId, seq<KeyPackageId>>, devices: seq<DeviceId>, d: DeviceId, eligible: set<DeviceId>,
                       was: seq<(DeviceId, KeyPackageId)>, handed: seq<(DeviceId, KeyPackageId)>, used: set<KeyPackageId>, accepts: Acceptance)
    requires was <= handed && AllConsidered(packages, devices, eligible, was, used, accepts)
    requires d in eligible ==> Considered(packages, d, handed, used, accepts)
    ensures AllConsidered(packages, devices + [d], eligible, handed, used, accepts)
  {
    forall e | e in devices + [d] && e in eligible ensures Considered(packages, e, handed, used, accepts) {
      if e in devices {
        StillConsidered(packages, e, was, handed, used, accepts);
      }
    }
  }

  lemma RoundEnds(packages: map<DeviceId, seq<KeyPackageId>>, devices: seq<DeviceId>, eligible: set<DeviceId>,
                  handed: seq<(DeviceId, KeyPackageId)>, used: set<KeyPackageId>, accepts: Acceptance)
    requires RoundOk(packages, handed, used, accepts) && AllConsidered(packages, devices, eligible, handed, used, accepts)
    requires DevicesOf(handed) <= eligible && forall d :: d in eligible ==> d in devices
    ensures PackagesApart(packages) ==>
              forall d, k :: (d, k) in handed <==> d in eligible && Offered(packages, d, used, k, accepts)
  {
    if PackagesApart(packages) {
      forall d, k ensures (d, k) in handed <==> d in eligible && Offered(packages, d, used, k, accepts) {
        RoundExactly(packages, handed, used, accepts, d, k);
      }
    }
  }

  lemma TurnTaken(packages: map<DeviceId, seq<KeyPackageId>>, was: seq<(DeviceId, KeyPackageId)>, handed: seq<(DeviceId, KeyPackageId)>,
                  d: DeviceId, used: set<KeyPackageId>, accepts: Acceptance)
    requires was <= handed && (d in DevicesOf(handed) || Passed(packages, d, used + PackagesOf(was), accepts))
    ensures Considered(packages, d, handed, used, accepts)
  {
    assert handed[..|was|] == was;
  }

  lemma StillConsidered(packages: map<DeviceId, seq<KeyPackageId>>, d: DeviceId, was: seq<(DeviceId, KeyPackageId)>,
                        handed: seq<(DeviceId, KeyPackageId)>, used: set<KeyPackageId>, accepts: Acceptance)
    requires was <= handed && Considered(packages, d, was, used, accepts)
    ensures Considered(packages, d, handed, used, accepts)
  {
    if d in DevicesOf(was) {
      var x :| x in was && x.0 == d;
      assert x in handed;
    } else {
      var m :| 0 <= m <= |was| && Passed(packages, d, used + PackagesOf(was[..m]), accepts);
      assert handed[..m] == was[..m];
    }
  }

  /** No two devices published the same package. */
  ghost predicate PackagesApart(packages: map<DeviceId, seq<KeyPackageId>>) {
    forall d, e, k :: d in packages && e in packages && d != e && k in packages[d] ==> k !in packages[e]
  }

  /** Packages of others do not change which of a device's packages is the newest unused one. */
  lemma {:induction false} OthersDoNotMatter(candidates: seq<KeyPackageId>, used: set<KeyPackageId>, more: set<KeyPackageId>)
    requires forall k :: k in candidates ==> k !in more
    ensures NewestOutside(candidates, used + more) == NewestOutside(candidates, used)
  {
    if candidates != [] {
      assert candidates[|candidates| - 1] in candidates;
      OthersDoNotMatter(candidates[..|candidates| - 1], used, more);
    }
  }

  lemma OfferedAtStart(packages: map<DeviceId, seq<KeyPackageId>>, handed: seq<(DeviceId, KeyPackageId)>, m: nat, used: set<KeyPackageId>,
                       accepts: Acceptance, d: DeviceId, k: KeyPackageId)
    requires RoundOk(packages, handed, used, accepts) && PackagesApart(packages) && m <= |handed| && d !in DevicesOf(handed[..m])
    ensures Offered(packages, d, used + PackagesOf(handed[..m]), k, accepts) <==> Offered(packages, d, used, k, accepts)
  {
    if d in packages {
      forall x | x in packages[d] ensures x !in PackagesOf(handed[..m]) {
        forall i | 0 <= i < m ensures handed[i].1 != x {
          assert handed[..m][i] == handed[i] && handed[i] in handed[..m];
          HandedIsOwn(packages, handed, i, used, accepts);
        }
      }
      OthersDoNotMatter(packages[d], used, PackagesOf(handed[..m]));
    }
  }

  lemma HandedIsOwn(packages: map<DeviceId, seq<KeyPackageId>>, handed: seq<(DeviceId, KeyPackageId)>, i: nat, used: set<KeyPackageId>,
                    accepts: Acceptance)
    requires RoundOk(packages, handed, used, accepts) && i < |handed|
    ensures handed[i].0 in packages && handed[i].1 in packages[handed[i].0]
  {
    assert Offered(packages, handed[i].0, used + PackagesOf(handed[..i]), handed[i].1, accepts);
  }

  lemma NotHandedBefore(handed: seq<(DeviceId, KeyPackageId)>, i: nat)
    requires i < |handed| && forall j :: 0 <= j < i ==> handed[j].0 != handed[i].0
    ensures handed[i].0 !in DevicesOf(handed[..i])
  {
  }

  lemma RoundExactly(packages: map<DeviceId, seq<KeyPackageId>>, handed: seq<(DeviceId, KeyPackageId)>, used: set<KeyPackageId>,
                     accepts: Acceptance, d: DeviceId, k: KeyPackageId)
    requires RoundOk(packages, handed, used, accepts) && PackagesApart(packages)
    ensures (d, k) in handed ==> d in DevicesOf(handed) && Offered(packages, d, used, k, accepts)
    ensures Considered(packages, d, handed, used, accepts) && Offered(packages, d, used, k, accepts) ==> (d, k) in handed
  {
    if d in DevicesOf(handed) {
      var x :| x in handed && x.0 == d;
      var i :| 0 <= i < |handed| && handed[i] == x;
      NotHandedBefore(handed, i);
      assert Offered(packages, d, used + PackagesOf(handed[..i]), x.1, accepts);
      OfferedAtStart(packages, handed, i, used, accepts, d, x.1);
      OfferedAtStart(packages, handed, i, used, accepts, d, k);
      if (d, k) in handed {
        var j :| 0 <= j < |handed| && handed[j] == (d, k);
        assert i == j;
      }
    } else if Considered(packages, d, handed, used, accepts) {
      var m :| 0 <= m <= |handed| && Passed(packages, d, used + PackagesOf(handed[..m]), accepts);
      assert d !in DevicesOf(handed[..m]);
      OfferedAtStart(packages, handed, m, used, accepts, d, k);
    }
  }
}
