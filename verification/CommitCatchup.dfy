/** Catching a local OpenMLS group up with the commits of a history, for the workspace group or for
    the group of one private channel. */
module CommitCatchup {
  import opened Events
  import opened MlsIndex

  /** The private group state, as far as its owner can see it; `secrets` stands for the key material. */
  datatype GroupState = GroupState(group: GroupId, epoch: nat, secrets: string)

  datatype Applied = Applied(next: GroupState, selfRemoved: bool)

  /** The MLS library: applies the commit carried by an event to a group state, or fails. */
  type Mls = (GroupState, Event) -> Option<Applied>

  /** Section 12.4 of RFC 9420: a commit that is accepted keeps the group and raises its epoch by one. */
  ghost predicate RaisesEpoch(mls: Mls) {
    forall s, e :: mls(s, e).Some? ==> mls(s, e).value.next.group == s.group && mls(s, e).value.next.epoch == s.epoch + 1
  }

  /** The event announces the epoch its commit leads to. */
  ghost predicate AnnouncesTruly(mls: Mls, sc: Scope) {
    forall s, e :: mls(s, e).Some? && CommitFor(e, sc) ==> mls(s, e).value.next.epoch == e.body.epoch
  }

  predicate CommitFor(e: Event, sc: Scope) {
    CommitBody(e.body) && e.body.scope == sc
  }

  /** A commit of the state's own group that lies ahead of the state. */
  predicate Ahead(e: Event, sc: Scope, s: GroupState) {
    CommitFor(e, sc) && e.body.group == s.group && e.body.epoch > s.epoch
  }

  predicate Selected(e: Event, source: Option<EventId>) {
    source.None? || source.value == e.id
  }

  datatype Pass = Stopped | Pass(state: GroupState, applied: seq<Event>, selfRemoved: bool)

  /** The commits a pass applies, in history order; a failing commit stops the pass without a trace. */
  function Run(mls: Mls, sc: Scope, source: Option<EventId>, s: GroupState, events: seq<Event>): (p: Pass)
    decreases |events|
  {
    if events == [] then Pass(s, [], false)
    else
      var e := events[0];
      if !Selected(e, source) || !Ahead(e, sc, s) then Run(mls, sc, source, s, events[1..])
      else
        match mls(s, e)
        case None => Stopped
        case Some(a) =>
          if a.selfRemoved then Pass(a.next, [e], true)
          else
            var rest := Run(mls, sc, source, a.next, events[1..]);
            if rest.Stopped? then Stopped else rest.(applied := [e] + rest.applied)
  }

  datatype Result =
    | Caught(applied: seq<EventId>, group: GroupId, epoch: nat, selfRemoved: bool)
    | NoGroup
    | EventNotFound
    | CommitRejected

  /** The selected event, if there is one, is among the first `n`. */
  ghost predicate Found(events: seq<Event>, n: nat, source: Option<EventId>)
    requires n <= |events|
  {
    source.None? || exists k :: 0 <= k < n && events[k].id == source.value
  }

  /** A pass that already applied `applied` and continues as `rest`. */
  function Resume(applied: seq<Event>, rest: Pass): Pass {
    if rest.Stopped? then Stopped else rest.(applied := applied + rest.applied)
  }

  lemma ResumeSkips(mls: Mls, sc: Scope, source: Option<EventId>, s: GroupState, events: seq<Event>, i: nat)
    requires i < |events| && (!Selected(events[i], source) || !Ahead(events[i], sc, s))
    ensures Run(mls, sc, source, s, events[i..]) == Run(mls, sc, source, s, events[i + 1..])
  {
    assert events[i..][1..] == events[i + 1..];
  }

  lemma ResumeApplies(mls: Mls, sc: Scope, source: Option<EventId>, s: GroupState, events: seq<Event>, i: nat, applied: seq<Event>)
    requires i < |events| && Selected(events[i], source) && Ahead(events[i], sc, s)
    ensures Resume(applied, Run(mls, sc, source, s, events[i..])) ==
            match mls(s, events[i])
            case None => Stopped
            case Some(a) =>
              if a.selfRemoved then Pass(a.next, applied + [events[i]], true)
              else Resume(applied + [events[i]], Run(mls, sc, source, a.next, events[i + 1..]))
  {
    assert events[i..][1..] == events[i + 1..];
    if mls(s, events[i]).Some? {
      var rest := Run(mls, sc, source, mls(s, events[i]).value.next, events[i + 1..]);
      if rest.Pass? {
        assert applied + ([events[i]] + rest.applied) == applied + [events[i]] + rest.applied;
      }
    }
  }

  /** The stored group state of one scope: absent, or the state to continue from. */
  class GroupFile {
    var state: Option<GroupState>

    constructor (state: Option<GroupState>)
      ensures this.state == state
    {
      this.state := state;
    }

    /** Applies what lies ahead and stores the outcome: deleted after self-removal, rewritten after
        progress, untouched otherwise. */
    method ApplyCommits(mls: Mls, sc: Scope, events: seq<Event>, source: Option<EventId>) returns (r: Result)
      modifies this
      ensures old(state).None? ==> r == NoGroup && state == old(state)
      ensures old(state).Some? ==>
                var p := Run(mls, sc, source, old(state).value, events);
                if p.Stopped? then r == CommitRejected && state == old(state)
                else if !Found(events, |events|, source) then r == EventNotFound && state == old(state)
                else r == Caught(Ids(p.applied), p.state.group, p.state.epoch, p.selfRemoved)
                     && state == (if p.selfRemoved then None else Some(p.state))
    {
      if state.None? {
        return NoGroup;
      }
      var current := state.value;
      var applied: seq<Event> := [];
      var selfRemoved, found := false, source.None?;
      ghost var whole := Run(mls, sc, source, current, events);
      assert events[0..] == events;
      var i := 0;
      while i < |events| && !selfRemoved
        invariant 0 <= i <= |events| && state == old(state)
        invariant !selfRemoved ==> whole == Resume(applied, Run(mls, sc, source, current, events[i..]))
        invariant selfRemoved ==> whole == Pass(current, applied, true)
        invariant found <==> Found(events, i, source)
        invariant selfRemoved ==> found && applied != []
        invariant applied == [] ==> Some(current) == old(state)
      {
        var e := events[i];
        i := i + 1;
        if Selected(e, source) {
          found := true;
        }
        if !Selected(e, source) || !Ahead(e, sc, current) {
          ResumeSkips(mls, sc, source, current, events, i - 1);
          continue;
        }
        ResumeApplies(mls, sc, source, current, events, i - 1, applied);
        var outcome := mls(current, e);
        if outcome.None? {
          return CommitRejected;
        }
        current, applied := outcome.value.next, applied + [e];
        selfRemoved := outcome.value.selfRemoved;
      }
      assert !selfRemoved ==> events[i..] == [] && applied + [] == applied;
      if !found {
        return EventNotFound;
      }
      if selfRemoved {
        state := None;
      } else if applied != [] {
        state := Some(current);
      }
      return Caught(Ids(applied), current.group, current.epoch, selfRemoved);
    }
  }

  // ---------- what a pass is ----------

  /** `a` is obtained from `b` by leaving events out. */
  ghost predicate Subsequence(a: seq<Event>, b: seq<Event>)
    decreases |b|
  {
    if a == [] then true
    else if b == [] then false
    else (a[0] == b[0] && Subsequence(a[1..], b[1..])) || Subsequence(a, b[1..])
  }

  /** The applied commits belong to the one group and announce the epochs `from + 1, from + 2, ...`. */
  ghost predicate Consecutive(applied: seq<Event>, sc: Scope, g: GroupId, from: nat) {
    forall i :: 0 <= i < |applied| ==> IsCommit(applied[i], sc, g, from + 1 + i)
  }

  /** A pass applies a subsequence of the history whose epochs rise by one, in one group. */
  lemma {:induction false} PassAppliesConsecutive(mls: Mls, sc: Scope, s: GroupState, events: seq<Event>)
    requires RaisesEpoch(mls) && AnnouncesTruly(mls, sc)
    requires Run(mls, sc, None, s, events).Pass?
    ensures var p := Run(mls, sc, None, s, events);
            && Subsequence(p.applied, events)
            && Consecutive(p.applied, sc, s.group, s.epoch)
            && p.state.group == s.group && p.state.epoch == s.epoch + |p.applied|
    decreases |events|
  {
    if events != [] {
      var e := events[0];
      if !Ahead(e, sc, s) {
        PassAppliesConsecutive(mls, sc, s, events[1..]);
      } else {
        var a := mls(s, e).value;
        if a.selfRemoved {
          assert [e][1..] == [];
        } else {
          PassAppliesConsecutive(mls, sc, a.next, events[1..]);
          var rest := Run(mls, sc, None, a.next, events[1..]);
          var p := Run(mls, sc, None, s, events);
          assert p.applied[0] == e && p.applied[1..] == rest.applied;
        }
      }
    }
  }

  /** `states` are the group states between the applied commits: every commit but the last left the
      device in, and the last one produced the final state and says whether the device is out. */
  ghost predicate Chain(mls: Mls, states: seq<GroupState>, applied: seq<Event>, end: GroupState, removed: bool) {
    && |states| == |applied| + 1 && states[|applied|] == end
    && (applied == [] ==> !removed)
    && (forall i :: 0 <= i < |applied| ==>
          mls(states[i], applied[i]) == Some(Applied(states[i + 1], removed && i == |applied| - 1)))
  }

  lemma ChainCons(mls: Mls, s: GroupState, e: Event, states: seq<GroupState>, applied: seq<Event>, end: GroupState, removed: bool)
    requires Chain(mls, states, applied, end, removed)
    requires mls(s, e) == Some(Applied(states[0], false))
    ensures Chain(mls, [s] + states, [e] + applied, end, removed)
  {
    var all, commits := [s] + states, [e] + applied;
    forall i | 0 <= i < |commits|
      ensures mls(all[i], commits[i]) == Some(Applied(all[i + 1], removed && i == |commits| - 1))
    {
      if i > 0 {
        assert all[i] == states[i - 1] && all[i + 1] == states[i] && commits[i] == applied[i - 1];
      }
    }
  }

  /** A pass applies commit after commit to the state the one before produced, and ends with the
      first that removes the device: nothing is applied after self-removal. */
  lemma {:induction false} SelfRemovalIsLast(mls: Mls, sc: Scope, source: Option<EventId>, s: GroupState, events: seq<Event>)
    returns (states: seq<GroupState>)
    requires Run(mls, sc, source, s, events).Pass?
    ensures var p := Run(mls, sc, source, s, events);
            states != [] && states[0] == s && Chain(mls, states, p.applied, p.state, p.selfRemoved)
    decreases |events|
  {
    states := [s];
    if events != [] {
      var e := events[0];
      if !Selected(e, source) || !Ahead(e, sc, s) {
        states := SelfRemovalIsLast(mls, sc, source, s, events[1..]);
      } else {
        var a := mls(s, e).value;
        if a.selfRemoved {
          states := [s, a.next];
        } else {
          var rest := SelfRemovalIsLast(mls, sc, source, a.next, events[1..]);
          var p := Run(mls, sc, source, a.next, events[1..]);
          ChainCons(mls, s, e, rest, p.applied, p.state, p.selfRemoved);
          states := [s] + rest;
        }
      }
    }
  }

  // ---------- a second pass ----------

  lemma {:induction false} NothingAhead(mls: Mls, sc: Scope, s: GroupState, events: seq<Event>)
    requires forall e :: e in events ==> !Ahead(e, sc, s)
    ensures Run(mls, sc, None, s, events) == Pass(s, [], false)
    decreases |events|
  {
    if events != [] {
      NothingAhead(mls, sc, s, events[1..]);
    }
  }

  lemma {:induction false} PassLeavesNothingAhead(mls: Mls, sc: Scope, s: GroupState, events: seq<Event>)
    requires RaisesEpoch(mls) && AnnouncesTruly(mls, sc)
    requires Run(mls, sc, None, s, events).Pass? && !Run(mls, sc, None, s, events).selfRemoved
    ensures forall e :: e in events ==> !Ahead(e, sc, Run(mls, sc, None, s, events).state)
    decreases |events|
  {
    if events != [] {
      var e := events[0];
      PassAppliesConsecutive(mls, sc, s, events);
      if !Ahead(e, sc, s) {
        PassLeavesNothingAhead(mls, sc, s, events[1..]);
      } else {
        var a := mls(s, e).value;
        PassAppliesConsecutive(mls, sc, a.next, events[1..]);
        PassLeavesNothingAhead(mls, sc, a.next, events[1..]);
      }
    }
  }

  /** A pass reaches a fixpoint: repeating it over the same history applies nothing. */
  lemma SecondPassIsIdle(mls: Mls, sc: Scope, s: GroupState, events: seq<Event>)
    requires RaisesEpoch(mls) && AnnouncesTruly(mls, sc)
    requires Run(mls, sc, None, s, events).Pass? && !Run(mls, sc, None, s, events).selfRemoved
    ensures var done := Run(mls, sc, None, s, events).state;
            Run(mls, sc, None, done, events) == Pass(done, [], false)
  {
    PassLeavesNothingAhead(mls, sc, s, events);
    NothingAhead(mls, sc, Run(mls, sc, None, s, events).state, events);
  }

  // ---------- what a pass must apply ----------

  /** A pass that did not remove the device leaves no commit of the group behind: whatever kind of
      commit it is, none announces an epoch above the one reached. */
  lemma NothingIsLeft(mls: Mls, sc: Scope, s: GroupState, events: seq<Event>)
    requires RaisesEpoch(mls) && AnnouncesTruly(mls, sc)
    requires Run(mls, sc, None, s, events).Pass? && !Run(mls, sc, None, s, events).selfRemoved
    ensures forall e, n: nat :: e in events && IsCommit(e, sc, s.group, n) ==> n <= Run(mls, sc, None, s, events).state.epoch
  {
    PassAppliesConsecutive(mls, sc, s, events);
    PassLeavesNothingAhead(mls, sc, s, events);
    forall e, n: nat | e in events && IsCommit(e, sc, s.group, n)
      ensures n <= Run(mls, sc, None, s, events).state.epoch
    {
      assert !Ahead(e, sc, Run(mls, sc, None, s, events).state);
    }
  }

  lemma {:induction false} CommitsAbove(mls: Mls, sc: Scope, source: Option<EventId>, s: GroupState, events: seq<Event>)
    requires RaisesEpoch(mls) && Run(mls, sc, source, s, events).Pass?
    ensures forall e :: e in Run(mls, sc, source, s, events).applied ==>
              e in events && Selected(e, source) && CommitBody(e.body) && IsCommit(e, sc, s.group, e.body.epoch) && e.body.epoch > s.epoch
    decreases |events|
  {
    if events != [] {
      var e := events[0];
      if !Selected(e, source) || !Ahead(e, sc, s) {
        CommitsAbove(mls, sc, source, s, events[1..]);
      } else if !mls(s, e).value.selfRemoved {
        CommitsAbove(mls, sc, source, mls(s, e).value.next, events[1..]);
      }
    }
  }

  /** On an unforked history such a pass applies exactly the commits of the group above the starting
      epoch, every one of them. */
  lemma AppliesExactly(mls: Mls, sc: Scope, s: GroupState, events: seq<Event>, e: Event)
    requires RaisesEpoch(mls) && AnnouncesTruly(mls, sc) && !Forked(events, sc, s.group) && IdsIdentify(events)
    requires Run(mls, sc, None, s, events).Pass? && !Run(mls, sc, None, s, events).selfRemoved
    ensures e in Run(mls, sc, None, s, events).applied <==>
            e in events && exists n: nat :: IsCommit(e, sc, s.group, n) && n > s.epoch
  {
    var p := Run(mls, sc, None, s, events);
    PassAppliesConsecutive(mls, sc, s, events);
    NothingIsLeft(mls, sc, s, events);
    CommitsAbove(mls, sc, None, s, events);
    if e in events && exists n: nat :: IsCommit(e, sc, s.group, n) && n > s.epoch {
      var n: nat :| IsCommit(e, sc, s.group, n) && n > s.epoch;
      var x := p.applied[n - s.epoch - 1];
      assert x in p.applied;
      UnforkedEpochHasOneCommit(events, sc, s.group, n, e, x);
    }
  }

  lemma {:induction false} OnlySelected(mls: Mls, sc: Scope, id: EventId, s: GroupState, events: seq<Event>)
    requires forall e :: e in events && e.id == id ==> !Ahead(e, sc, s)
    ensures Run(mls, sc, Some(id), s, events) == Pass(s, [], false)
    decreases |events|
  {
    if events != [] {
      OnlySelected(mls, sc, id, s, events[1..]);
    }
  }

  /** With one event selected: if it is a commit of the group above the epoch and the library accepts
      it, exactly this event is applied. */
  lemma {:induction false} SelectedIsApplied(mls: Mls, sc: Scope, s: GroupState, events: seq<Event>, e: Event, n: nat)
    requires RaisesEpoch(mls) && AnnouncesTruly(mls, sc)
    requires e in events && (forall x :: x in events && x.id == e.id ==> x == e)
    requires IsCommit(e, sc, s.group, n) && n > s.epoch && mls(s, e).Some?
    ensures Run(mls, sc, Some(e.id), s, events) == Pass(mls(s, e).value.next, [e], mls(s, e).value.selfRemoved)
    decreases |events|
  {
    if events[0].id == e.id {
      assert events[0] == e;
      var a := mls(s, e).value;
      if !a.selfRemoved {
        assert forall x :: x in events[1..] && x.id == e.id ==> x == e;
        OnlySelected(mls, sc, e.id, a.next, events[1..]);
      }
    } else {
      assert e in events[1..] && forall x :: x in events[1..] && x.id == e.id ==> x == e;
      SelectedIsApplied(mls, sc, s, events[1..], e, n);
    }
  }

  /** At position `k` the pass meets a commit of the group above the epoch reached, and the library
      rejects it. */
  ghost predicate RejectedAt(mls: Mls, sc: Scope, source: Option<EventId>, s: GroupState, events: seq<Event>, k: nat)
    requires k < |events|
  {
    var p := Run(mls, sc, source, s, events[..k]);
    && p.Pass? && !p.selfRemoved && (source.None? || source.value == events[k].id)
    && (exists n: nat :: IsCommit(events[k], sc, p.state.group, n) && n > p.state.epoch)
    && mls(p.state, events[k]).None?
  }

  lemma RunPrefix(mls: Mls, sc: Scope, source: Option<EventId>, s: GroupState, events: seq<Event>, k: nat)
    requires 0 < k <= |events|
    ensures var e := events[0]; var prefix := events[..k];
            Run(mls, sc, source, s, prefix) ==
            if !Selected(e, source) || !Ahead(e, sc, s) then Run(mls, sc, source, s, events[1..][..k - 1])
            else if mls(s, e).None? then Stopped
            else if mls(s, e).value.selfRemoved then Pass(mls(s, e).value.next, [e], true)
            else Resume([e], Run(mls, sc, source, mls(s, e).value.next, events[1..][..k - 1]))
  {
    assert events[..k][1..] == events[1..][..k - 1];
  }

  lemma RejectedLater(mls: Mls, sc: Scope, source: Option<EventId>, s: GroupState, events: seq<Event>, k: nat)
    requires 0 < k < |events|
    ensures var e := events[0];
            RejectedAt(mls, sc, source, s, events, k) <==>
            if !Selected(e, source) || !Ahead(e, sc, s) then RejectedAt(mls, sc, source, s, events[1..], k - 1)
            else mls(s, e).Some? && !mls(s, e).value.selfRemoved && RejectedAt(mls, sc, source, mls(s, e).value.next, events[1..], k - 1)
  {
    RunPrefix(mls, sc, source, s, events, k);
  }

  lemma RejectedNow(mls: Mls, sc: Scope, source: Option<EventId>, s: GroupState, events: seq<Event>)
    requires events != []
    ensures RejectedAt(mls, sc, source, s, events, 0) <==>
            Selected(events[0], source) && Ahead(events[0], sc, s) && mls(s, events[0]).None?
  {
    assert events[..0] == [];
    if Ahead(events[0], sc, s) {
      assert IsCommit(events[0], sc, s.group, events[0].body.epoch);
    }
  }

  /** A pass stops without a trace exactly when it meets a commit that the library rejects. */
  lemma {:induction false} StopsExactly(mls: Mls, sc: Scope, source: Option<EventId>, s: GroupState, events: seq<Event>)
    ensures Run(mls, sc, source, s, events).Stopped? <==>
            exists k :: 0 <= k < |events| && RejectedAt(mls, sc, source, s, events, k)
    decreases |events|
  {
    if events != [] {
      var e, rest := events[0], events[1..];
      RejectedNow(mls, sc, source, s, events);
      forall k | 0 < k < |events|
        ensures RejectedAt(mls, sc, source, s, events, k) <==>
                if !Selected(e, source) || !Ahead(e, sc, s) then RejectedAt(mls, sc, source, s, rest, k - 1)
                else mls(s, e).Some? && !mls(s, e).value.selfRemoved && RejectedAt(mls, sc, source, mls(s, e).value.next, rest, k - 1)
      {
        RejectedLater(mls, sc, source, s, events, k);
      }
      if !Selected(e, source) || !Ahead(e, sc, s) {
        StopsExactly(mls, sc, source, s, rest);
        RejectedShifts(mls, sc, source, s, events, s);
      } else if mls(s, e).Some? && !mls(s, e).value.selfRemoved {
        StopsExactly(mls, sc, source, mls(s, e).value.next, rest);
        RejectedShifts(mls, sc, source, s, events, mls(s, e).value.next);
      }
    }
  }

  lemma RejectedShifts(mls: Mls, sc: Scope, source: Option<EventId>, s: GroupState, events: seq<Event>, t: GroupState)
    requires events != [] && !RejectedAt(mls, sc, source, s, events, 0)
    requires forall k :: 0 < k < |events| ==>
               (RejectedAt(mls, sc, source, s, events, k) <==> RejectedAt(mls, sc, source, t, events[1..], k - 1))
    ensures (exists k :: 0 <= k < |events| && RejectedAt(mls, sc, source, s, events, k))
            <==> exists k :: 0 <= k < |events[1..]| && RejectedAt(mls, sc, source, t, events[1..], k)
  {
    if k :| 0 <= k < |events[1..]| && RejectedAt(mls, sc, source, t, events[1..], k) {
      assert RejectedAt(mls, sc, source, t, events[1..], k + 1 - 1);
      assert RejectedAt(mls, sc, source, s, events, k + 1);
    }
    if k :| 0 <= k < |events| && RejectedAt(mls, sc, source, s, events, k) {
      assert RejectedAt(mls, sc, source, t, events[1..], k - 1);
    }
  }

  // ---------- two devices ----------

  lemma {:induction false} SubsequenceMembers(a: seq<Event>, b: seq<Event>)
    requires Subsequence(a, b)
    ensures forall e :: e in a ==> e in b
    decreases |b|
  {
    if a != [] {
      assert a == [a[0]] + a[1..] && b == [b[0]] + b[1..];
      if a[0] == b[0] && Subsequence(a[1..], b[1..]) {
        SubsequenceMembers(a[1..], b[1..]);
      } else {
        SubsequenceMembers(a, b[1..]);
      }
    }
  }

  /** Distinct stored events carry distinct ids. */
  ghost predicate IdsIdentify(events: seq<Event>) {
    forall x, y :: x in events && y in events && x.id == y.id ==> x == y
  }

  lemma UnforkedEpochHasOneCommit(events: seq<Event>, sc: Scope, g: GroupId, n: nat, x: Event, y: Event)
    requires !Forked(events, sc, g) && IdsIdentify(events)
    requires x in events && y in events && IsCommit(x, sc, g, n) && IsCommit(y, sc, g, n)
    ensures x == y
  {
    var i :| 0 <= i < |events| && events[i] == x;
    var j :| 0 <= j < |events| && events[j] == y;
    assert IsCommit(events[i], sc, g, n) && IsCommit(events[j], sc, g, n);
    assert !ForkedAt(events, sc, g, n);
  }

  /** The commits of a pass that lead to the epochs `low + 1 .. high`. */
  function Between(applied: seq<Event>, from: nat, low: nat, high: nat): seq<Event>
    requires from <= low <= high <= from + |applied|
  {
    applied[low - from..high - from]
  }

  lemma OverlapsAgree(events: seq<Event>, sc: Scope, g: GroupId, a: seq<Event>, from: nat, b: seq<Event>, start: nat, low: nat, high: nat)
    requires !Forked(events, sc, g) && IdsIdentify(events)
    requires Consecutive(a, sc, g, from) && Consecutive(b, sc, g, start)
    requires (forall e :: e in a ==> e in events) && (forall e :: e in b ==> e in events)
    requires from <= low <= high <= from + |a| && start <= low <= high <= start + |b|
    ensures Between(a, from, low, high) == Between(b, start, low, high)
  {
    var x, y := Between(a, from, low, high), Between(b, start, low, high);
    forall i | 0 <= i < |x|
      ensures x[i] == y[i]
    {
      var k, m := low - from + i, low - start + i;
      assert a[k] in a && b[m] in b;
      UnforkedEpochHasOneCommit(events, sc, g, low + 1 + i, a[k], b[m]);
    }
  }

  /** Convergence: two devices read histories of their own, in orders of their own, that together fork
      the group nowhere. Where both pass through the epochs `low .. high` they apply the same commits
      in the same order, whatever epochs and secrets they started from. */
  lemma DevicesConverge(mls1: Mls, mls2: Mls, sc: Scope, s1: GroupState, s2: GroupState, events1: seq<Event>, events2: seq<Event>,
                        low: nat, high: nat)
    requires RaisesEpoch(mls1) && AnnouncesTruly(mls1, sc) && RaisesEpoch(mls2) && AnnouncesTruly(mls2, sc)
    requires s1.group == s2.group && !Forked(events1 + events2, sc, s1.group) && IdsIdentify(events1 + events2)
    requires Run(mls1, sc, None, s1, events1).Pass? && Run(mls2, sc, None, s2, events2).Pass?
    requires s1.epoch <= low <= high <= Run(mls1, sc, None, s1, events1).state.epoch
    requires s2.epoch <= low <= high <= Run(mls2, sc, None, s2, events2).state.epoch
    ensures var a := Run(mls1, sc, None, s1, events1).applied;
            var b := Run(mls2, sc, None, s2, events2).applied;
            && high <= s1.epoch + |a| && high <= s2.epoch + |b|
            && Between(a, s1.epoch, low, high) == Between(b, s2.epoch, low, high)
  {
    PassAppliesConsecutive(mls1, sc, s1, events1);
    PassAppliesConsecutive(mls2, sc, s2, events2);
    var a := Run(mls1, sc, None, s1, events1).applied;
    var b := Run(mls2, sc, None, s2, events2).applied;
    SubsequenceMembers(a, events1);
    SubsequenceMembers(b, events2);
    OverlapsAgree(events1 + events2, sc, s1.group, a, s1.epoch, b, s2.epoch, low, high);
  }

  /** The same commits of the group on both sides, in any order: one unforked history is enough. */
  lemma SameCommitsForkNothing(events1: seq<Event>, events2: seq<Event>, sc: Scope, g: GroupId)
    requires forall e, n: nat :: IsCommit(e, sc, g, n) ==> (e in events1 <==> e in events2)
    requires !Forked(events1, sc, g)
    ensures !Forked(events1 + events2, sc, g)
  {
    var all := events1 + events2;
    forall n: nat ensures !ForkedAt(all, sc, g, n) {
      assert !ForkedAt(events1, sc, g, n);
      forall i, j | 0 <= i < |all| && 0 <= j < |all| && IsCommit(all[i], sc, g, n) && IsCommit(all[j], sc, g, n)
        ensures all[i].id == all[j].id
      {
        assert all[i] in events1 && all[j] in events1;
        var k :| 0 <= k < |events1| && events1[k] == all[i];
        var l :| 0 <= l < |events1| && events1[l] == all[j];
      }
    }
  }

  // ---------- joining ----------

  predicate WelcomesDevice(e: Event, sc: Scope, d: DeviceId) {
    e.body.GroupMemberAdded? && e.body.scope == sc && e.body.added == d
  }

  /** The welcome a device joins from (section 12.4.3.1 of RFC 9420): the newest one after its last
      removal from any group of the scope. */
  function SelectWelcome(events: seq<Event>, sc: Scope, self: DeviceId, source: Option<EventId>): Option<nat> {
    var removal := FindLast(events, e => Revokes(e, sc, self));
    var welcome := FindLast(events, e => Selected(e, source) && WelcomesDevice(e, sc, self));
    if welcome.Some? && (removal.None? || removal.value < welcome.value) then welcome else None
  }

  /** Which device a commit welcomes, and into which scope. */
  function Invited(b: Body): Option<(Scope, DeviceId)> {
    if b.GroupMemberAdded? then Some((b.scope, b.added)) else None
  }

  /** The selected welcome is addressed to the device, is not outlived by a removal, and no newer one
      is; the index therefore counts the device into the joined group. */
  lemma JoinedGroupIsCurrent(events: seq<Event>, sc: Scope, self: DeviceId, source: Option<EventId>)
    ensures var w := SelectWelcome(events, sc, self, source);
            && (w.Some? ==>
                  && w.value < |events| && Selected(events[w.value], source)
                  && Invited(events[w.value].body) == Some((sc, self))
                  && (forall j :: w.value < j < |events| ==>
                        !(Selected(events[j], source) && Invited(events[j].body) == Some((sc, self)))
                        && !Revokes(events[j], sc, self))
                  && InGroup(events, sc, events[w.value].body.group, self))
            && (w.None? ==>
                  forall i :: 0 <= i < |events| && Selected(events[i], source) && Invited(events[i].body) == Some((sc, self)) ==>
                    exists j :: i < j < |events| && Revokes(events[j], sc, self))
  {
    var w := SelectWelcome(events, sc, self, source);
    var removal := FindLast(events, e => Revokes(e, sc, self));
    if w.Some? {
      var g := events[w.value].body.group;
      assert AddsTo(events[w.value], sc, g, self);
      forall j | w.value < j < |events|
        ensures !RemovesFrom(events[j], sc, g, self)
      {
        assert !Revokes(events[j], sc, self);
      }
    } else {
      forall i | 0 <= i < |events| && Selected(events[i], source) && WelcomesDevice(events[i], sc, self)
        ensures exists j :: i < j < |events| && Revokes(events[j], sc, self)
      {
        assert removal.Some? && Revokes(events[removal.value], sc, self);
        assert i != removal.value;
      }
    }
  }
}
