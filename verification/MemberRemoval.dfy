/** Removing a member from a workspace that has OpenMLS groups and manually shared keys.

    The order is fixed: refuse on forks or foreign groups, rotate the manual keys, remove the device
    from every group, look at the index once more, and only then record the removal. Any step may
    fail and ends the call where it is. Unless the process is alone, others may store events between
    any two accesses; unless the surroundings are reliable, disk and MLS library may fail at any time.
 */
module MemberRemoval {
  import opened Events
  import opened Workspace
  import M = Materialization
  import opened MlsIndex
  import opened CausalHistory

  datatype Group = Group(id: GroupId, epoch: nat)

  datatype Result = Removed | RevocationPending(scope: Scope) | GroupMissing(scope: Scope) | Failed

  datatype Stage = Preflight | KeyRotation | GroupRemoval | FinalCheck

  // ---------- histories with something appended or inserted ----------

  lemma {:induction false} InGroupConcat(a: seq<Event>, b: seq<Event>, sc: Scope, g: GroupId, d: DeviceId)
    ensures InGroup(a + b, sc, g, d) <==>
            InGroup(b, sc, g, d) || (InGroup(a, sc, g, d) && forall e :: e in b ==> !RemovesFrom(e, sc, g, d))
  {
    if b == [] {
      assert a + b == a;
    } else {
      var last := b[|b| - 1];
      assert a + b == (a + b[..|b| - 1]) + [last] && b == b[..|b| - 1] + [last];
      InGroupConcat(a, b[..|b| - 1], sc, g, d);
      InGroupSnoc(a + b[..|b| - 1], last, sc, g, d);
      InGroupSnoc(b[..|b| - 1], last, sc, g, d);
    }
  }

  /** A fork is a matter of which commits exist, not of their order. */
  lemma ForkedAtByMembers(events: seq<Event>, sc: Scope, g: GroupId, n: nat)
    ensures ForkedAt(events, sc, g, n) <==>
            exists x, y :: x in events && y in events && IsCommit(x, sc, g, n) && IsCommit(y, sc, g, n) && x.id != y.id
  {
    if x, y :| x in events && y in events && IsCommit(x, sc, g, n) && IsCommit(y, sc, g, n) && x.id != y.id {
      var i :| 0 <= i < |events| && events[i] == x;
      var j :| 0 <= j < |events| && events[j] == y;
      assert IsCommit(events[i], sc, g, n) && IsCommit(events[j], sc, g, n);
    }
    if ForkedAt(events, sc, g, n) {
      var i, j :| 0 <= i < |events| && 0 <= j < |events|
                  && IsCommit(events[i], sc, g, n) && IsCommit(events[j], sc, g, n) && events[i].id != events[j].id;
      assert events[i] in events && events[j] in events;
    }
  }

  ghost predicate NoForks(events: seq<Event>) {
    forall sc, g :: !Forked(events, sc, g)
  }

  ghost predicate InNoGroup(events: seq<Event>, d: DeviceId) {
    forall sc, g :: !InGroup(events, sc, g, d)
  }

  /** The group's next epoch is still free. */
  ghost predicate NextEpochFree(events: seq<Event>, sc: Scope, grp: Group) {
    forall e :: e in events ==> !IsCommit(e, sc, grp.id, grp.epoch + 1)
  }

  lemma InsertedCommitKeepsNoForks(a: seq<Event>, e: Event, b: seq<Event>)
    requires NoForks(a + b)
    requires CommitBody(e.body) ==> forall x :: x in a + b ==> !IsCommit(x, e.body.scope, e.body.group, e.body.epoch)
    ensures NoForks(a + [e] + b)
  {
    forall sc, g
      ensures !Forked(a + [e] + b, sc, g)
    {
      forall n: nat
        ensures !ForkedAt(a + [e] + b, sc, g, n)
      {
        assert !Forked(a + b, sc, g) && !ForkedAt(a + b, sc, g, n);
        ForkedAtByMembers(a + b, sc, g, n);
        ForkedAtByMembers(a + [e] + b, sc, g, n);
      }
    }
  }

  /** Removing `d` from one group, seen through an index that reads `extra` after the log: only what
      `extra` itself says about that group remains. */
  lemma GroupRemovalStep(log: seq<Event>, e: Event, extra: seq<Event>, d: DeviceId, sc: Scope, g: GroupId)
    requires e.body.GroupMemberRemoved? && e.body.dropped == d
    ensures InGroup(log + [e] + extra, sc, g, d) <==>
            if sc == e.body.scope && g == e.body.group then InGroup(extra, sc, g, d) else InGroup(log + extra, sc, g, d)
  {
    InGroupSnoc(log, e, sc, g, d);
    InGroupConcat(log, extra, sc, g, d);
    InGroupConcat(log + [e], extra, sc, g, d);
  }

  /** Key rotation events do not concern the index. */
  lemma RotationsKept(log: seq<Event>, rotations: seq<Event>, extra: seq<Event>, d: DeviceId, sc: Scope, g: GroupId)
    requires forall e :: e in rotations ==> e.body.ContentKeyEpochPublished?
    ensures InGroup(log + rotations + extra, sc, g, d) <==> InGroup(log + extra, sc, g, d)
  {
    InGroupConcat(log, rotations, sc, g, d);
    InGroupConcat(log + rotations, extra, sc, g, d);
    InGroupConcat(log, extra, sc, g, d);
  }

  lemma {:induction false} RotationsKeepNoForks(a: seq<Event>, rotations: seq<Event>, b: seq<Event>)
    requires NoForks(a + b) && forall e :: e in rotations ==> e.body.ContentKeyEpochPublished?
    ensures NoForks(a + rotations + b)
  {
    if rotations == [] {
      assert a + rotations == a;
    } else {
      var last := rotations[|rotations| - 1];
      RotationsKeepNoForks(a, rotations[..|rotations| - 1], b);
      InsertedCommitKeepsNoForks(a + rotations[..|rotations| - 1], last, b);
      assert a + rotations == a + rotations[..|rotations| - 1] + [last];
    }
  }

  /** Events that commit nothing in a scope leave its next epoch free. */
  lemma InsertedKeepsFree(a: seq<Event>, more: seq<Event>, b: seq<Event>, sc: Scope, grp: Group)
    requires NextEpochFree(a + b, sc, grp)
    requires forall e :: e in more ==> !IsCommit(e, sc, grp.id, grp.epoch + 1)
    ensures NextEpochFree(a + more + b, sc, grp)
  {
    forall e | e in a + more + b
      ensures !IsCommit(e, sc, grp.id, grp.epoch + 1)
    {
      if e !in more {
        assert e in a + b;
      }
    }
  }

  /** An index clean of forks and of the device. */
  ghost predicate CleanIndex(indexed: seq<Event>, d: DeviceId) {
    NoForks(indexed) && InNoGroup(indexed, d)
  }

  ghost predicate Clean(raw: seq<Event>, d: DeviceId) {
    CleanIndex(Indexed(raw), d)
  }

  /** An index without forks in which the device is in local groups only. */
  ghost predicate Removable(indexed: seq<Event>, groups: map<Scope, Group>, d: DeviceId) {
    NoForks(indexed) && forall sc, g :: InGroup(indexed, sc, g, d) ==> sc in groups && g == groups[sc].id
  }

  /** What the store held when the rows were read, and when the materialized events were read. */
  datatype Look = Look(rows: seq<Event>, later: seq<Event>)

  ghost function IndexOf(look: Look): seq<Event> {
    IndexedFrom(look.rows, look.later)
  }

  /** The members of the materialized workspace are the same. */
  ghost predicate SameTeam(a: seq<Event>, b: seq<Event>) {
    M.Materialize(a).state.members == M.Materialize(b).state.members && M.Materialize(a).state.root == M.Materialize(b).state.root
  }

  /** May the device store such an event on this history? */
  ghost predicate May(raw: seq<Event>, self: DeviceId, body: Body) {
    Authorized(M.Materialize(raw).state, Event("", self, [], body))
  }

  predicate Mentions(raw: seq<Event>, id: EventId) {
    exists x :: x in raw && (x.id == id || id in x.parents)
  }

  lemma MayMeans(raw: seq<Event>, e: Event)
    ensures Authorized(M.Materialize(raw).state, e) <==> May(raw, e.author, e.body)
  {
    M.AuthorizedByContent(M.Materialize(raw).state, e);
  }

  lemma NeutralNeedsMembership(raw: seq<Event>, self: DeviceId, body: Body)
    requires Neutral(body)
    ensures May(raw, self, body) <==> IsMember(M.Materialize(raw).state, self)
  {
  }

  /** Between the removals: scopes in `todo` show the device in their local group at most, all others
      show only what the never-materialized commits say. */
  ghost predicate Midway(raw: seq<Event>, groups: map<Scope, Group>, todo: set<Scope>, d: DeviceId) {
    && todo <= groups.Keys
    && forall sc, g ::
         if sc in todo then InGroup(Indexed(raw), sc, g, d) ==> g == groups[sc].id
         else InGroup(Indexed(raw), sc, g, d) <==> InGroup(Extra(raw), sc, g, d)
  }

  ghost predicate AllFree(raw: seq<Event>, groups: map<Scope, Group>, todo: set<Scope>) {
    forall k :: k in todo && k in groups ==> NextEpochFree(Indexed(raw), k, groups[k])
  }

  lemma ExtraCounts(events: seq<Event>, extra: seq<Event>, d: DeviceId, sc: Scope, g: GroupId)
    ensures InGroup(extra, sc, g, d) ==> InGroup(events + extra, sc, g, d)
  {
    InGroupConcat(events, extra, sc, g, d);
  }

  /** `e` was added to the materialized history of `before`, the admitted commits stayed. */
  ghost predicate Added(before: seq<Event>, after: seq<Event>, more: seq<Event>) {
    M.Materialize(after).events == M.Materialize(before).events + more && Extra(after) == Extra(before)
  }

  ghost predicate SameGroups(before: map<Scope, Group>, after: map<Scope, Group>, sc: Scope) {
    && after.Keys == before.Keys
    && forall k :: k in after ==> after[k].id == before[k].id && (k != sc ==> after[k] == before[k])
  }

  /** What one group removal does to the index. */
  lemma RemovalStep(before: seq<Event>, after: seq<Event>, e: Event, groups: map<Scope, Group>, next: map<Scope, Group>,
                    sc: Scope, d: DeviceId, todo: set<Scope>)
    requires sc in todo && Midway(before, groups, todo, d) && SameGroups(groups, next, sc) && Added(before, after, [e])
    requires e.body == GroupMemberRemoved(sc, groups[sc].id, groups[sc].epoch + 1, d)
    ensures Midway(after, next, todo - {sc}, d)
  {
    var events, extra := M.Materialize(before).events, Extra(after);
    forall k, g
      ensures InGroup(Indexed(after), k, g, d) <==>
              if k == sc && g == groups[sc].id then InGroup(extra, k, g, d) else InGroup(Indexed(before), k, g, d)
      ensures InGroup(extra, k, g, d) ==> InGroup(Indexed(before), k, g, d)
    {
      GroupRemovalStep(events, e, extra, d, k, g);
      ExtraCounts(events, extra, d, k, g);
    }
  }

  /** Free epochs stay free, and a removal at a free epoch forks nothing. */
  lemma RemovalForksNothing(before: seq<Event>, after: seq<Event>, e: Event, groups: map<Scope, Group>, next: map<Scope, Group>,
                            sc: Scope, d: DeviceId, todo: set<Scope>)
    requires sc in todo && todo <= groups.Keys && SameGroups(groups, next, sc) && Added(before, after, [e])
    requires e.body == GroupMemberRemoved(sc, groups[sc].id, groups[sc].epoch + 1, d)
    requires NoForks(Indexed(before)) && AllFree(before, groups, todo)
    ensures NoForks(Indexed(after)) && AllFree(after, next, todo - {sc})
  {
    var events, extra := M.Materialize(before).events, Extra(after);
    assert NextEpochFree(Indexed(before), sc, groups[sc]);
    InsertedCommitKeepsNoForks(events, e, extra);
    forall k | k in todo - {sc} && k in next ensures NextEpochFree(Indexed(after), k, next[k]) {
      assert NextEpochFree(Indexed(before), k, groups[k]);
      InsertedKeepsFree(events, [e], extra, k, next[k]);
    }
  }

  /** Rotations leave the index as it was. */
  lemma RotationsLeaveIndex(before: seq<Event>, after: seq<Event>, rotations: seq<Event>, d: DeviceId, sc: Scope, g: GroupId)
    requires Added(before, after, rotations) && forall e :: e in rotations ==> e.body.ContentKeyEpochPublished?
    ensures InGroup(Indexed(after), sc, g, d) <==> InGroup(Indexed(before), sc, g, d)
    ensures InGroup(Extra(after), sc, g, d) ==> InGroup(Indexed(after), sc, g, d)
  {
    RotationsKept(M.Materialize(before).events, rotations, Extra(before), d, sc, g);
    ExtraCounts(M.Materialize(after).events, Extra(after), d, sc, g);
  }

  lemma RotationsForkNothing(before: seq<Event>, after: seq<Event>, rotations: seq<Event>, groups: map<Scope, Group>, todo: set<Scope>)
    requires Added(before, after, rotations) && forall e :: e in rotations ==> e.body.ContentKeyEpochPublished?
    ensures NoForks(Indexed(before)) ==> NoForks(Indexed(after))
    ensures AllFree(before, groups, todo) ==> AllFree(after, groups, todo)
  {
    if NoForks(Indexed(before)) {
      RotationsKeepNoForks(M.Materialize(before).events, rotations, Extra(before));
    }
    if AllFree(before, groups, todo) {
      forall k | k in todo && k in groups ensures NextEpochFree(Indexed(after), k, groups[k]) {
        InsertedKeepsFree(M.Materialize(before).events, rotations, Extra(before), k, groups[k]);
      }
    }
  }

  lemma MidwayStarts(before: seq<Event>, after: seq<Event>, rotations: seq<Event>, groups: map<Scope, Group>,
                     scopes: set<Scope>, d: DeviceId)
    requires scopes <= groups.Keys && Added(before, after, rotations)
    requires forall sc, g :: InGroup(Indexed(before), sc, g, d) ==> sc in scopes && sc in groups && g == groups[sc].id
    requires forall e :: e in rotations ==> e.body.ContentKeyEpochPublished?
    ensures Midway(after, groups, scopes, d)
  {
    forall sc, g
      ensures InGroup(Indexed(after), sc, g, d) <==> InGroup(Indexed(before), sc, g, d)
      ensures InGroup(Extra(after), sc, g, d) ==> InGroup(Indexed(after), sc, g, d)
    {
      RotationsLeaveIndex(before, after, rotations, d, sc, g);
    }
  }

  /** When nothing is left to do, the index is clean exactly when the never-materialized commits are. */
  lemma MidwayEnds(raw: seq<Event>, groups: map<Scope, Group>, d: DeviceId)
    requires Midway(raw, groups, {}, d) && NoForks(Indexed(raw))
    ensures Clean(raw, d) <==> InNoGroup(Extra(raw), d)
  {
  }

  /** Where the removals stand: what is left to do, and whether the epochs were free. */
  ghost predicate Removing(start: seq<Event>, raw: seq<Event>, groups: map<Scope, Group>, todo: set<Scope>, d: DeviceId, free: bool) {
    && Midway(raw, groups, todo, d) && Extra(raw) == Extra(start)
    && (free ==> NoForks(Indexed(raw)) && AllFree(raw, groups, todo))
  }

  lemma RemovingStep(start: seq<Event>, before: seq<Event>, after: seq<Event>, e: Event, groups: map<Scope, Group>,
                     next: map<Scope, Group>, sc: Scope, d: DeviceId, todo: set<Scope>, free: bool)
    requires sc in todo && Removing(start, before, groups, todo, d, free) && SameGroups(groups, next, sc) && Added(before, after, [e])
    requires e.body == GroupMemberRemoved(sc, groups[sc].id, groups[sc].epoch + 1, d)
    ensures Removing(start, after, next, todo - {sc}, d, free)
  {
    RemovalStep(before, after, e, groups, next, sc, d, todo);
    if free {
      RemovalForksNothing(before, after, e, groups, next, sc, d, todo);
    }
  }

  /** No row stored since `before` records a removal. */
  ghost predicate NoRemovalSince(before: seq<Event>, raw: seq<Event>) {
    before <= raw && forall k :: |before| <= k < |raw| ==> !raw[k].body.MemberRemoved?
  }

  lemma NoRemovalTransitive(a: seq<Event>, b: seq<Event>, c: seq<Event>)
    requires NoRemovalSince(a, b) && NoRemovalSince(b, c)
    ensures NoRemovalSince(a, c)
  {
    forall k | |a| <= k < |c| ensures !c[k].body.MemberRemoved? {
      assert k < |b| ==> c[k] == b[k];
    }
  }

  lemma RevokingEnds(start: seq<Event>, raw: seq<Event>, groups: map<Scope, Group>, d: DeviceId, free: bool)
    requires Revoking(start, raw, groups, {}, d, free)
    ensures Midway(raw, groups, {}, d) && Extra(raw) == Extra(start) && (free ==> NoForks(Indexed(raw)))
  {
  }

  ghost predicate OnlyKeyEpochs(rotations: seq<Event>) {
    forall e :: e in rotations ==> e.body.ContentKeyEpochPublished?
  }

  /** Channel keys in `todo` are as before, the others moved on. */
  ghost predicate KeysRotating(before: map<ChannelId, nat>, keys: map<ChannelId, nat>, todo: set<ChannelId>) {
    && todo <= keys.Keys == before.Keys
    && forall c :: c in keys ==> keys[c] == if c in todo then before[c] else before[c] + 1
  }

  /** Nothing but `more` was added, it removes nobody, and the members are the same. */
  ghost predicate Extended(before: seq<Event>, after: seq<Event>, more: seq<Event>) {
    Added(before, after, more) && NoRemovalSince(before, after) && SameTeam(before, after)
  }

  lemma ExtendedOnce(start: seq<Event>, before: seq<Event>, after: seq<Event>, more: seq<Event>, e: Event)
    requires Extended(start, before, more) && Extended(before, after, [e])
    ensures Extended(start, after, more + [e])
  {
    NoRemovalTransitive(start, before, after);
  }

  /** What the removals of a process that is alone keep. */
  ghost predicate Revoking(start: seq<Event>, raw: seq<Event>, groups: map<Scope, Group>, todo: set<Scope>, d: DeviceId, free: bool) {
    Removing(start, raw, groups, todo, d, free) && NoRemovalSince(start, raw) && SameTeam(start, raw)
  }

  lemma RevokingStep(start: seq<Event>, before: seq<Event>, after: seq<Event>, e: Event, groups: map<Scope, Group>,
                     next: map<Scope, Group>, sc: Scope, d: DeviceId, todo: set<Scope>, free: bool)
    requires sc in todo && Revoking(start, before, groups, todo, d, free) && SameGroups(groups, next, sc) && Added(before, after, [e])
    requires e.body == GroupMemberRemoved(sc, groups[sc].id, groups[sc].epoch + 1, d)
    requires NoRemovalSince(before, after) && SameTeam(before, after)
    ensures Revoking(start, after, next, todo - {sc}, d, free)
  {
    RemovingStep(start, before, after, e, groups, next, sc, d, todo, free);
    NoRemovalTransitive(start, before, after);
  }

  /** Channels come before the workspace. */
  method NextScope(todo: set<Scope>) returns (sc: Scope)
    requires todo != {}
    ensures sc in todo && (sc == Workspace ==> todo == {Workspace})
  {
    if k :| k in todo && k != Workspace {
      sc := k;
    } else {
      sc :| sc in todo;
      assert todo == {Workspace};
    }
  }

  class Runtime {
    const self: DeviceId
    const alone: bool
    const reliable: bool
    var raw: seq<Event>
    var groups: map<Scope, Group>
    var workspaceKey: Option<nat>
    var channelKeys: map<ChannelId, nat>

    constructor (self: DeviceId, alone: bool, reliable: bool, raw: seq<Event>, groups: map<Scope, Group>,
                 workspaceKey: Option<nat>, channelKeys: map<ChannelId, nat>)
      ensures this.self == self && this.alone == alone && this.reliable == reliable
      ensures this.raw == raw && this.groups == groups
      ensures this.workspaceKey == workspaceKey && this.channelKeys == channelKeys
    {
      this.self, this.alone, this.reliable, this.raw, this.groups := self, alone, reliable, raw, groups;
      this.workspaceKey, this.channelKeys := workspaceKey, channelKeys;
    }

    ghost predicate NextEpochsFree()
      reads this
    {
      AllFree(raw, groups, groups.Keys)
    }

    /** Nothing gets in the way of an event this device may store. */
    ghost predicate Steady()
      reads this
    {
      alone && reliable && IsMember(M.Materialize(raw).state, self)
    }

    /** Whatever other writers store meanwhile. */
    method Meanwhile()
      modifies this`raw
      ensures old(raw) <= raw && (alone ==> raw == old(raw))
    {
      if !alone {
        var more: seq<Event> := *;
        raw := raw + more;
      }
    }

    /** Stores an event on the heads of the materialized history, if it is authorized there. */
    method Store(body: Body) returns (ok: bool, ghost e: Event)
      modifies this`raw
      ensures old(raw) <= raw
      ensures !ok && alone ==> raw == old(raw)
      ensures ok ==> raw != [] && e == raw[|raw| - 1] && e.body == body && |old(raw)| < |raw|
      ensures ok && alone ==> raw == old(raw) + [e] && M.WrittenNow(old(raw), e)
      ensures alone && reliable ==> (ok <==> May(old(raw), self, body))
    {
      Meanwhile();
      var context := M.Materialize(raw);
      var id: EventId, works: bool := *, *;
      if reliable {
        id, works := M.NewId(raw), true;
        M.NewIdIsUnmentioned(raw);
      }
      var event := Event(id, self, M.Heads(context.events), body);
      e := event;
      MayMeans(raw, event);
      if !works || !Authorized(context.state, event) || Mentions(raw, id) {
        return false, e;
      }
      Meanwhile();
      raw := raw + [event];
      ok := true;
    }

    /** Alone, a neutral event is added to the materialized history and the admitted commits stay. */
    method StoreNeutral(body: Body) returns (ok: bool, ghost e: Event)
      requires Neutral(body)
      modifies this`raw
      ensures old(raw) <= raw
      ensures ok ==> raw != [] && e == raw[|raw| - 1] && e.body == body && |old(raw)| < |raw|
      ensures !ok && alone ==> raw == old(raw)
      ensures ok && alone ==> Added(old(raw), raw, [e])
      ensures alone ==> NoRemovalSince(old(raw), raw) && SameTeam(old(raw), raw)
      ensures old(Steady()) ==> ok
    {
      ok, e := Store(body);
      NeutralNeedsMembership(old(raw), self, body);
      if ok && alone {
        NeutralIsAllThatIsApplied(old(raw), e);
        ExtraStays(old(raw), e);
        NeutralKeepsMembers(old(raw), e);
      }
    }

    /** Bumps the epoch of every manual key, saving each key before its event is stored. */
    method RotateManualKeys() returns (ok: bool, ghost rotations: seq<Event>)
      requires workspaceKey.Some?
      modifies this`raw, this`workspaceKey, this`channelKeys
      ensures old(raw) <= raw && channelKeys.Keys == old(channelKeys).Keys
      ensures alone ==> Extended(old(raw), raw, rotations)
      ensures OnlyKeyEpochs(rotations)
      ensures ok ==> workspaceKey == Some(old(workspaceKey).value + 1)
      ensures ok ==> forall c :: c in channelKeys ==> channelKeys[c] == old(channelKeys)[c] + 1
      ensures old(Steady()) ==> ok
    {
      ok, rotations := false, [];
      workspaceKey := Some(workspaceKey.value + 1);
      var stored; ghost var e;
      stored, e := StoreNeutral(ContentKeyEpochPublished);
      if !stored {
        return;
      }
      rotations := [e];
      var todo := channelKeys.Keys;
      while todo != {}
        invariant workspaceKey == Some(old(workspaceKey).value + 1) && old(raw) <= raw
        invariant KeysRotating(old(channelKeys), channelKeys, todo) && OnlyKeyEpochs(rotations)
        invariant alone ==> Extended(old(raw), raw, rotations)
      {
        var c :| c in todo;
        todo := todo - {c};
        channelKeys := channelKeys[c := channelKeys[c] + 1];
        ghost var before := raw;
        stored, e := StoreNeutral(ContentKeyEpochPublished);
        if !stored {
          return;
        }
        if alone {
          ExtendedOnce(old(raw), before, raw, rotations, e);
        }
        rotations := rotations + [e];
      }
      ok := true;
    }

    /** Commits the removal of `d` to the local group: group state first, then the event. */
    method RemoveFromGroup(sc: Scope, d: DeviceId) returns (r: Result, ghost e: Event)
      modifies this`raw, this`groups
      ensures old(raw) <= raw
      ensures r.Removed? ==> sc in old(groups) && e.body == GroupMemberRemoved(sc, old(groups)[sc].id, old(groups)[sc].epoch + 1, d)
      ensures r.Removed? ==> |old(raw)| < |raw| && e == raw[|raw| - 1]
      ensures r.Removed? && alone ==> Added(old(raw), raw, [e])
      ensures !r.Removed? && alone ==> raw == old(raw)
      ensures alone ==> NoRemovalSince(old(raw), raw) && SameTeam(old(raw), raw)
      ensures SameGroups(old(groups), groups, sc)
      ensures sc in old(groups) ==> r.Removed? || r.Failed?
      ensures sc in old(groups) && old(Steady()) ==> r.Removed?
    {
      e := Event("", self, [], Other);
      if sc !in groups {
        return GroupMissing(sc), e;
      }
      var committed: bool := *;
      if !committed && !reliable {
        return Failed, e;
      }
      groups := groups[sc := Group(groups[sc].id, groups[sc].epoch + 1)];
      var stored;
      stored, e := StoreNeutral(GroupMemberRemoved(sc, groups[sc].id, groups[sc].epoch, d));
      r := if stored then Removed else Failed;
    }

    /** The rows are read first and the materialized events after them. */
    method ReadIndex() returns (index: ProvisionIndex, ghost look: Look)
      modifies this`raw
      ensures old(raw) <= look.rows <= look.later == raw && (alone ==> raw == old(raw))
      ensures fresh(index) && index.Describes(IndexOf(look))
    {
      Meanwhile();
      var rows := raw;
      Meanwhile();
      look := Look(rows, raw);
      var indexed := RemovalHistory(rows, M.Materialize(raw).events, Authorizing());
      index := new ProvisionIndex.FromEvents(indexed);
    }

    /** Records the removal only when the index, as last looked at, shows no fork and the device in
        no group. */
    method RemoveMember(d: DeviceId) returns (r: Result, ghost look: Look)
      modifies this`raw
      ensures old(raw) <= look.rows <= look.later <= raw && (alone ==> look == Look(old(raw), old(raw)))
      ensures r.RevocationPending? <==> !CleanIndex(IndexOf(look), d)
      ensures alone ==> (r.RevocationPending? <==> !Clean(old(raw), d))
      ensures r.Removed? ==> raw != [] && raw[|raw| - 1].body == MemberRemoved(d)
      ensures alone ==> if r.Removed? then raw[..|raw| - 1] == old(raw) else raw == old(raw)
      ensures alone && reliable ==> (r.Removed? <==> Clean(old(raw), d) && May(old(raw), self, MemberRemoved(d)))
      ensures !r.GroupMissing?
    {
      var index;
      index, look := ReadIndex();
      ghost var indexed := IndexOf(look);
      var memberships := set key | key in index.members && d in index.members[key];
      var blockers := index.forked + memberships;
      if blockers != {} {
        var key :| key in blockers;
        assert Forked(indexed, key.0, key.1) || InGroup(indexed, key.0, key.1, d);
        return RevocationPending(if exists k :: k in blockers && k.0 == Workspace then Workspace else key.0), look;
      }
      assert NoForks(indexed) by {
        forall sc, g ensures !Forked(indexed, sc, g) { assert (sc, g) !in blockers; }
      }
      assert InNoGroup(indexed, d) by {
        forall sc, g ensures !InGroup(indexed, sc, g, d) { assert (sc, g) !in blockers; }
      }
      var stored; ghost var e;
      stored, e := Store(MemberRemoved(d));
      r := if stored then Removed else Failed;
    }

    /** Refuses forks, missing local groups and memberships in groups that are not the local ones,
        and nothing else. */
    method Check(d: DeviceId) returns (r: Result, scopes: set<Scope>, ghost look: Look)
      modifies this`raw
      ensures old(raw) <= look.rows <= look.later == raw && (alone ==> look == Look(old(raw), old(raw)))
      ensures r.Removed? <==> Removable(IndexOf(look), groups, d)
      ensures r.Removed? ==> scopes <= groups.Keys && forall sc, g :: InGroup(IndexOf(look), sc, g, d) ==> sc in scopes
      ensures NoForks(IndexOf(look)) || r.RevocationPending?
    {
      var index;
      index, look := ReadIndex();
      if index.forked != {} {
        var key :| key in index.forked;
        assert Forked(IndexOf(look), key.0, key.1);
        return RevocationPending(if exists k :: k in index.forked && k.0 == Workspace then Workspace else key.0), {}, look;
      }
      UnforkedIndex(index, IndexOf(look));
      r, scopes := CheckGroups(index, IndexOf(look), d);
    }

    /** The scopes in which the device has to be removed; refuses what is not in the local groups. */
    method CheckGroups(index: ProvisionIndex, ghost indexed: seq<Event>, d: DeviceId) returns (r: Result, scopes: set<Scope>)
      requires index.MembersDescribe(indexed) && NoForks(indexed)
      ensures r.Removed? <==> Removable(indexed, groups, d)
      ensures r.Removed? ==> scopes <= groups.Keys && forall sc, g :: InGroup(indexed, sc, g, d) ==> sc in scopes
    {
      scopes := set key | key in index.members && d in index.members[key] :: key.0;
      var todo := scopes;
      while todo != {}
        invariant todo <= scopes
        invariant forall sc :: sc in scopes - todo ==> sc in groups && index.GroupsOf(sc, d) == {groups[sc].id}
      {
        var sc :| sc in todo && (Workspace in todo ==> sc == Workspace);
        todo := todo - {sc};
        ScopeHasGroup(index, indexed, sc, d);
        if sc !in groups {
          return GroupMissing(sc), scopes;
        }
        if index.GroupsOf(sc, d) != {groups[sc].id} {
          return RevocationPending(sc), scopes;
        }
      }
      forall sc, g | InGroup(indexed, sc, g, d)
        ensures sc in scopes && sc in groups && g == groups[sc].id
      {
        assert index.HasDevice(sc, g, d);
        assert (sc, g) in index.members && g in index.GroupsOf(sc, d);
      }
      r := Removed;
    }

    /** One of these removals, the scopes in `todo` being left. */
    method RemoveFromNext(ghost start: seq<Event>, ghost was: map<Scope, Group>, ghost scopes: set<Scope>, ghost todo: set<Scope>,
                          sc: Scope, d: DeviceId, ghost free: bool) returns (r: Result)
      requires sc in todo && Dropping(start, raw, was, groups, scopes, todo, d)
      requires alone ==> Revoking(start, raw, groups, todo, d, free)
      modifies this`raw, this`groups
      ensures old(raw) <= raw && (r.Removed? || (r.Failed? && (alone ==> raw == old(raw))))
      ensures r.Removed? ==> Dropping(start, raw, was, groups, scopes, todo - {sc}, d)
      ensures r.Removed? && alone ==> Revoking(start, raw, groups, todo - {sc}, d, free)
      ensures old(Steady()) ==> r.Removed?
    {
      ghost var e;
      r, e := RemoveFromGroup(sc, d);
      if r.Removed? {
        if alone {
          RevokingStep(start, old(raw), raw, e, old(groups), groups, sc, d, todo, free);
        }
        DroppingStep(start, old(raw), raw, was, old(groups), groups, scopes, todo, sc, d);
      }
    }

    /** Removes the device from the local group of every scope, channels before the workspace. A
        commit that drops the device from each of these groups is stored, whoever else writes. */
    method RemoveFromGroups(scopes: set<Scope>, d: DeviceId) returns (r: Result)
      requires scopes <= groups.Keys && (alone ==> Midway(raw, groups, scopes, d))
      modifies this`raw, this`groups
      ensures old(raw) <= raw && (r.Removed? || r.Failed?)
      ensures r.Removed? ==> forall sc :: sc in scopes ==> DroppedSince(old(raw), raw, old(groups), sc, d)
      ensures alone ==> NoRemovalSince(old(raw), raw) && SameTeam(old(raw), raw)
      ensures r.Removed? && alone ==> Midway(raw, groups, {}, d) && Extra(raw) == Extra(old(raw))
      ensures r.Removed? && alone && NoForks(Indexed(old(raw))) && AllFree(old(raw), old(groups), scopes) ==> NoForks(Indexed(raw))
      ensures old(Steady()) ==> r.Removed?
    {
      var todo := scopes;
      ghost var free := NoForks(Indexed(raw)) && AllFree(raw, groups, scopes);
      while todo != {}
        invariant Dropping(old(raw), raw, old(groups), groups, scopes, todo, d)
        invariant alone ==> Revoking(old(raw), raw, groups, todo, d, free)
      {
        var sc := NextScope(todo);
        r := RemoveFromNext(old(raw), old(groups), scopes, todo, sc, d, free);
        if !r.Removed? {
          return;
        }
        todo := todo - {sc};
      }
      if alone {
        RevokingEnds(old(raw), raw, groups, d, free);
      }
      r := Removed;
    }

    /** Rotates the manual keys if there is a workspace key. */
    method RotateIfKeyed() returns (ok: bool, ghost rotations: seq<Event>)
      modifies this`raw, this`workspaceKey, this`channelKeys
      ensures old(raw) <= raw
      ensures alone ==> Extended(old(raw), raw, rotations)
      ensures OnlyKeyEpochs(rotations)
      ensures if old(workspaceKey).None? then ok && workspaceKey == old(workspaceKey) && channelKeys == old(channelKeys)
              else ok ==> Rotated(old(workspaceKey), old(channelKeys), workspaceKey, channelKeys)
      ensures old(Steady()) ==> ok
    {
      if workspaceKey.None? {
        return true, [];
      }
      ok, rotations := RotateManualKeys();
    }

    /** Everything before the removal itself: the first check, the rotations, the group removals. */
    method RevokeAccess(d: DeviceId) returns (r: Result, stage: Stage, ghost look: Look)
      modifies this`raw, this`groups, this`workspaceKey, this`channelKeys
      ensures old(raw) <= look.rows <= look.later <= raw && stage != FinalCheck
      ensures alone ==> look == Look(old(raw), old(raw))
      ensures stage == Preflight <==> !Removable(IndexOf(look), old(groups), d)
      ensures alone ==> (stage == Preflight <==> !Removable(Indexed(old(raw)), old(groups), d))
      ensures stage == Preflight ==> !r.Removed?
      ensures stage != Preflight ==> r.Removed? || r.Failed?
      ensures r.Removed? && old(workspaceKey).Some? ==> Rotated(old(workspaceKey), old(channelKeys), workspaceKey, channelKeys)
      ensures old(workspaceKey).None? ==> workspaceKey == old(workspaceKey) && channelKeys == old(channelKeys)
      ensures r.Removed? ==> DroppedEverywhere(look, raw, old(groups), d)
      ensures alone ==> NoRemovalSince(old(raw), raw) && SameTeam(old(raw), raw)
      ensures alone && r.Removed? ==> Extra(raw) == Extra(old(raw))
      ensures alone && r.Removed? && old(NextEpochsFree()) ==> (Clean(raw, d) <==> InNoGroup(Extra(raw), d))
      ensures old(Steady()) ==> (r.Removed? <==> stage != Preflight)
    {
      stage := Preflight;
      var scopes;
      r, scopes, look := Check(d);
      if !r.Removed? {
        return;
      }
      stage := KeyRotation;
      var ok; ghost var rotations;
      ok, rotations := RotateIfKeyed();
      if !ok {
        return Failed, stage, look;
      }
      stage := GroupRemoval;
      ghost var rotated := raw;
      if alone {
        MidwayStarts(old(raw), raw, rotations, groups, scopes, d);
        RotationsForkNothing(old(raw), raw, rotations, groups, scopes);
      }
      r := RemoveFromGroups(scopes, d);
      if r.Removed? {
        DroppedFrom(look, rotated, raw, old(groups), scopes, d);
      }
      if alone {
        NoRemovalTransitive(old(raw), rotated, raw);
        if r.Removed? && old(NextEpochsFree()) {
          MidwayEnds(raw, groups, d);
        }
      }
    }

    /** The last look and the removal, once access is revoked since `start`. */
    method LookAndRemove(d: DeviceId, ghost first: Look, ghost start: seq<Event>, ghost was: map<Scope, Group>, ghost free: bool)
      returns (r: Result, ghost last: Look)
      requires first.later <= raw && DroppedEverywhere(first, raw, was, d)
      requires alone ==> NoRemovalSince(start, raw) && SameTeam(start, raw) && Extra(raw) == Extra(start)
      requires alone && free ==> (Clean(raw, d) <==> InNoGroup(Extra(raw), d))
      modifies this`raw
      ensures first.later <= last.rows <= last.later <= raw && first.later <= raw && DroppedEverywhere(first, last.rows, was, d)
      ensures r.RevocationPending? <==> !CleanIndex(IndexOf(last), d)
      ensures r.Removed? ==> EndsInRemoval(raw, d)
      ensures alone ==> NoRemovalSince(start, ButRemoval(r, raw))
      ensures alone && free ==> (r.RevocationPending? <==> !InNoGroup(Extra(start), d))
      ensures alone && free && reliable ==> (r.Removed? <==> InNoGroup(Extra(start), d) && May(start, self, MemberRemoved(d)))
    {
      SameTeamIfAlone(alone, start, raw, self, d);
      ghost var revoked := raw;
      r, last := RemoveMember(d);
      DroppedEverywhereStays(first, revoked, last.rows, was, d);
    }

    /** The whole call. The removal is recorded only after the keys are rotated and a commit drops
        the device from every group it was seen in, on an index that was clean when last looked at.
        Alone, and when every local group stands at the newest epoch, the only thing that last look
        can still object to is a never-materialized commit that adds the device. If moreover nothing
        fails, the removal is recorded exactly when the first check passes, there is no such commit
        and this device may remove the other. */
    method RemoveMemberWithOpenMls(d: DeviceId) returns (r: Result, stage: Stage, ghost first: Look, ghost last: Look)
      modifies this`raw, this`groups, this`workspaceKey, this`channelKeys
      ensures old(raw) <= first.rows <= first.later <= raw && (alone ==> first == Look(old(raw), old(raw)))
      ensures stage == Preflight <==> !Removable(IndexOf(first), old(groups), d)
      ensures stage == FinalCheck ==> first.later <= last.rows <= last.later <= raw && DroppedEverywhere(first, last.rows, old(groups), d)
      ensures stage == FinalCheck && old(workspaceKey).Some? ==>
                Rotated(old(workspaceKey), old(channelKeys), workspaceKey, channelKeys)
      ensures old(workspaceKey).None? ==> workspaceKey == old(workspaceKey) && channelKeys == old(channelKeys)
      ensures stage == FinalCheck ==> (r.RevocationPending? <==> !CleanIndex(IndexOf(last), d))
      ensures r.Removed? ==> stage == FinalCheck && EndsInRemoval(raw, d)
      ensures alone ==> NoRemovalSince(old(raw), ButRemoval(r, raw))
      ensures alone && stage == FinalCheck && old(NextEpochsFree()) ==>
                (r.RevocationPending? <==> !InNoGroup(Extra(old(raw)), d))
      ensures old(Steady()) ==> stage == Preflight || stage == FinalCheck
      ensures old(Steady()) && old(NextEpochsFree()) ==>
                (r.Removed? <==> && Removable(Indexed(old(raw)), old(groups), d) && InNoGroup(Extra(old(raw)), d)
                                 && May(old(raw), self, MemberRemoved(d)))
    {
      ghost var free, steady := NextEpochsFree(), Steady();
      r, stage, first := RevokeAccess(d);
      last := first;
      if !r.Removed? {
        return;
      }
      stage := FinalCheck;
      r, last := LookAndRemove(d, first, old(raw), old(groups), free);
    }
  }

  /** The last row records the removal of `d`. */
  ghost predicate EndsInRemoval(raw: seq<Event>, d: DeviceId) {
    raw != [] && raw[|raw| - 1].body == MemberRemoved(d)
  }

  /** The rows without the one that records the removal. */
  function ButRemoval(r: Result, raw: seq<Event>): seq<Event> {
    if r.Removed? && raw != [] then raw[..|raw| - 1] else raw
  }

  lemma SameTeamIfAlone(alone: bool, a: seq<Event>, b: seq<Event>, self: DeviceId, d: DeviceId)
    requires alone ==> SameTeam(a, b)
    ensures alone ==> (May(a, self, MemberRemoved(d)) <==> May(b, self, MemberRemoved(d)))
  {
  }

  /** A commit stored since `before` drops the device from the local group of the scope. */
  ghost predicate DroppedSince(before: seq<Event>, raw: seq<Event>, groups: map<Scope, Group>, sc: Scope, d: DeviceId) {
    && before <= raw && sc in groups
    && exists k :: |before| <= k < |raw| && raw[k].body == GroupMemberRemoved(sc, groups[sc].id, groups[sc].epoch + 1, d)
  }

  lemma DroppedStays(start: seq<Event>, before: seq<Event>, raw: seq<Event>, groups: map<Scope, Group>, d: DeviceId, scopes: set<Scope>)
    requires before <= raw && forall sc :: sc in scopes ==> DroppedSince(start, before, groups, sc, d)
    ensures forall sc :: sc in scopes ==> DroppedSince(start, raw, groups, sc, d)
  {
    forall sc | sc in scopes ensures DroppedSince(start, raw, groups, sc, d) {
      var k :| |start| <= k < |before| && before[k].body == GroupMemberRemoved(sc, groups[sc].id, groups[sc].epoch + 1, d);
      assert raw[k] == before[k];
    }
  }

  /** Scopes in `todo` are untouched, the others are done. */
  ghost predicate Dropping(start: seq<Event>, raw: seq<Event>, was: map<Scope, Group>, groups: map<Scope, Group>,
                           scopes: set<Scope>, todo: set<Scope>, d: DeviceId) {
    && start <= raw && todo <= scopes <= was.Keys && groups.Keys == was.Keys
    && (forall sc :: sc in todo ==> groups[sc] == was[sc])
    && (forall sc :: sc in scopes - todo ==> DroppedSince(start, raw, was, sc, d))
  }

  lemma DroppingStep(start: seq<Event>, before: seq<Event>, raw: seq<Event>, was: map<Scope, Group>, groups: map<Scope, Group>,
                     next: map<Scope, Group>, scopes: set<Scope>, todo: set<Scope>, sc: Scope, d: DeviceId)
    requires Dropping(start, before, was, groups, scopes, todo, d) && sc in todo && SameGroups(groups, next, sc)
    requires before <= raw && |before| < |raw|
    requires raw[|raw| - 1].body == GroupMemberRemoved(sc, groups[sc].id, groups[sc].epoch + 1, d)
    ensures Dropping(start, raw, was, next, scopes, todo - {sc}, d)
  {
    DroppedStays(start, before, raw, was, d, scopes - todo);
    assert DroppedSince(start, raw, was, sc, d);
  }

  /** Every group in which the first look showed the device was left by a commit stored since. */
  ghost predicate DroppedEverywhere(look: Look, raw: seq<Event>, groups: map<Scope, Group>, d: DeviceId) {
    forall sc, g :: InGroup(IndexOf(look), sc, g, d) ==> DroppedSince(look.later, raw, groups, sc, d) && g == groups[sc].id
  }

  lemma DroppedFrom(look: Look, from: seq<Event>, raw: seq<Event>, groups: map<Scope, Group>, scopes: set<Scope>, d: DeviceId)
    requires look.later <= from && Removable(IndexOf(look), groups, d)
    requires forall sc, g :: InGroup(IndexOf(look), sc, g, d) ==> sc in scopes
    requires forall sc :: sc in scopes ==> DroppedSince(from, raw, groups, sc, d)
    ensures DroppedEverywhere(look, raw, groups, d)
  {
    forall sc, g | InGroup(IndexOf(look), sc, g, d) ensures DroppedSince(look.later, raw, groups, sc, d) && g == groups[sc].id {
      var k :| |from| <= k < |raw| && raw[k].body == GroupMemberRemoved(sc, groups[sc].id, groups[sc].epoch + 1, d);
    }
  }

  lemma DroppedEverywhereStays(look: Look, before: seq<Event>, raw: seq<Event>, groups: map<Scope, Group>, d: DeviceId)
    requires DroppedEverywhere(look, before, groups, d) && before <= raw
    ensures DroppedEverywhere(look, raw, groups, d)
  {
    forall sc, g | InGroup(IndexOf(look), sc, g, d) ensures DroppedSince(look.later, raw, groups, sc, d) && g == groups[sc].id {
      DroppedStays(look.later, before, raw, groups, d, {sc});
    }
  }

  lemma UnforkedIndex(index: ProvisionIndex, indexed: seq<Event>)
    requires index.CommitsDescribe(indexed) && index.forked == {}
    ensures NoForks(indexed)
  {
    forall sc, g ensures !Forked(indexed, sc, g) {
      assert (sc, g) !in index.forked;
    }
  }

  /** A scope that lists the device has a group with it. */
  lemma ScopeHasGroup(index: ProvisionIndex, indexed: seq<Event>, sc: Scope, d: DeviceId)
    requires index.MembersDescribe(indexed) && exists key :: key in index.members && d in index.members[key] && key.0 == sc
    ensures exists g :: InGroup(indexed, sc, g, d)
    ensures forall g :: g in index.GroupsOf(sc, d) <==> InGroup(indexed, sc, g, d)
  {
    var key :| key in index.members && d in index.members[key] && key.0 == sc;
    assert index.HasDevice(sc, key.1, d) && (sc, key.1) == key;
    forall g ensures g in index.GroupsOf(sc, d) <==> InGroup(indexed, sc, g, d) {
      assert index.HasDevice(sc, g, d) <==> (sc, g) in index.members && d in index.members[(sc, g)];
    }
  }

  /** The workspace key and every channel key moved on by one epoch. */
  ghost predicate Rotated(workspaceBefore: Option<nat>, before: map<ChannelId, nat>, workspace: Option<nat>, after: map<ChannelId, nat>) {
    && workspaceBefore.Some? && workspace == Some(workspaceBefore.value + 1) && after.Keys == before.Keys
    && forall c :: c in after ==> after[c] == before[c] + 1
  }
}
