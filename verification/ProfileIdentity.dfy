/** The profile events a device writes about itself, and how the materialized state follows them. */
module ProfileIdentity {
  import opened Events
  import opened Workspace
  import opened Materialization

  datatype Kind = DeviceProfile | PersonLink | PersonProfile

  /** An event of this kind by the local device. */
  predicate Own(e: Event, local: DeviceId, kind: Kind) {
    && e.author == local
    && match kind
       case DeviceProfile => e.body.DeviceProfileUpdated?
       case PersonLink => e.body.PersonDeviceLinked?
       case PersonProfile => e.body.PersonProfileUpdated?
  }

  /** What may arrive from elsewhere: anything but a profile event of the local device. */
  predicate Foreign(e: Event, local: DeviceId) {
    forall kind :: !Own(e, local, kind)
  }

  predicate Removes(e: Event, local: DeviceId) {
    e.body == MemberRemoved(local)
  }

  function Tally(events: seq<Event>, local: DeviceId, kind: Kind): nat {
    if events == [] then 0
    else Tally(events[..|events| - 1], local, kind) + if Own(events[|events| - 1], local, kind) then 1 else 0
  }

  lemma TallySnoc(events: seq<Event>, e: Event, local: DeviceId, kind: Kind)
    ensures Tally(events + [e], local, kind) == Tally(events, local, kind) + if Own(e, local, kind) then 1 else 0
  {
    assert (events + [e])[..|events|] == events;
  }

  lemma ForeignTally(events: seq<Event>, e: Event, local: DeviceId)
    requires Foreign(e, local)
    ensures forall kind :: Tally(events + [e], local, kind) == Tally(events, local, kind)
  {
    forall kind ensures Tally(events + [e], local, kind) == Tally(events, local, kind) {
      TallySnoc(events, e, local, kind);
    }
  }

  // ---------- identity in the materialized state ----------

  predicate HasProfile(s: State, local: DeviceId) {
    local in s.profiles && s.profiles[local] != ""
  }

  /** No other device is linked to the local device's person. */
  ghost predicate SoleLink(s: State, local: DeviceId) {
    local in s.links ==> forall d :: d in s.links && s.links[d] == s.links[local] ==> d == local
  }

  predicate HasPerson(s: State, local: DeviceId) {
    local in s.links && s.links[local] in s.persons && s.persons[s.links[local]] != ""
  }

  ghost predicate CompleteIdentity(s: State, local: DeviceId) {
    HasProfile(s, local) && HasPerson(s, local)
  }

  /** As far as the local identity is concerned `t` still is `s`. */
  ghost predicate SameIdentity(s: State, t: State, local: DeviceId) {
    && (local in t.profiles <==> local in s.profiles)
    && (local in s.profiles ==> t.profiles[local] == s.profiles[local])
    && (local in t.links <==> local in s.links)
    && (local in s.links ==> t.links[local] == s.links[local])
    && (HasPerson(t, local) <==> HasPerson(s, local))
    && SoleLink(t, local)
  }

  /** No foreign event but the removal of the device touches its identity. */
  lemma ForeignKeepsIdentity(s: State, e: Event, local: DeviceId)
    requires Authorized(s, e) && Foreign(e, local) && !Removes(e, local) && SoleLink(s, local)
    ensures SameIdentity(s, Apply(s, e), local)
  {
    assert !Own(e, local, DeviceProfile) && !Own(e, local, PersonLink) && !Own(e, local, PersonProfile);
  }

  /** The local profile events applied so far, each kind at most once, and the state agree. */
  ghost predicate Coherent(c: Context, local: DeviceId) {
    && Tally(c.events, local, DeviceProfile) == (if HasProfile(c.state, local) then 1 else 0)
    && Tally(c.events, local, PersonLink) == (if local in c.state.links then 1 else 0)
    && Tally(c.events, local, PersonProfile) <= 1
    && (Tally(c.events, local, PersonProfile) == 1 ==> HasPerson(c.state, local))
    && (local in c.state.profiles ==> HasProfile(c.state, local))
    && SoleLink(c.state, local)
  }

  lemma ForeignKeepsCoherent(c: Context, e: Event, local: DeviceId)
    requires Coherent(c, local) && Foreign(e, local) && !Removes(e, local)
    ensures Coherent(Advance(c, e), local) && SameIdentity(c.state, Advance(c, e).state, local)
  {
    if Applicable(c, e) {
      ForeignTally(c.events, e, local);
      ForeignKeepsIdentity(c.state, e, local);
    }
  }

  lemma ProfileKeepsCoherent(c: Context, e: Event, local: DeviceId)
    requires Coherent(c, local) && Own(e, local, DeviceProfile) && e.body.displayName != "" && !HasProfile(c.state, local)
    ensures Coherent(Applied(c, e), local) && HasProfile(Applied(c, e).state, local)
    ensures Applied(c, e).state.links == c.state.links && Applied(c, e).state.persons == c.state.persons
  {
    TallySnoc(c.events, e, local, DeviceProfile);
    TallySnoc(c.events, e, local, PersonLink);
    TallySnoc(c.events, e, local, PersonProfile);
  }

  predicate UnusedPerson(rows: seq<Event>, p: PersonId) {
    forall e :: e in rows && e.body.PersonDeviceLinked? ==> e.body.person != p
  }

  lemma FreePersonStaysFree(s: State, e: Event, p: PersonId)
    requires p !in s.links.Values && p !in s.persons && Authorized(s, e)
    requires e.body.PersonDeviceLinked? ==> e.body.person != p
    ensures p !in Apply(s, e).links.Values && p !in Apply(s, e).persons
  {
  }

  lemma {:induction false} UnusedPersonIsFree(events: seq<Event>, p: PersonId)
    requires Linear(events) && UnusedPerson(events, p)
    ensures p !in Fold(Empty, events).links.Values && p !in Fold(Empty, events).persons
  {
    if events != [] {
      var n := |events| - 1;
      LinearPrefix(events, n);
      UnusedPersonIsFree(events[..n], p);
      assert Applicable(Folded(events[..n]), events[n]);
      FreePersonStaysFree(Fold(Empty, events[..n]), events[n], p);
    }
  }

  lemma LinkKeepsCoherent(c: Context, e: Event, local: DeviceId)
    requires Coherent(c, local) && Own(e, local, PersonLink) && e.body.device == local && local !in c.state.links
    requires e.body.person !in c.state.links.Values && e.body.person !in c.state.persons
    ensures var t := Applied(c, e).state;
            && Coherent(Applied(c, e), local) && (HasProfile(c.state, local) ==> HasProfile(t, local))
            && local in t.links && t.links[local] == e.body.person && !HasPerson(t, local)
  {
    TallySnoc(c.events, e, local, DeviceProfile);
    TallySnoc(c.events, e, local, PersonLink);
    TallySnoc(c.events, e, local, PersonProfile);
  }

  lemma PersonKeepsCoherent(c: Context, e: Event, local: DeviceId)
    requires Coherent(c, local) && Own(e, local, PersonProfile) && e.body.displayName != ""
    requires local in c.state.links && c.state.links[local] == e.body.person && !HasPerson(c.state, local)
    ensures var t := Applied(c, e).state;
            Coherent(Applied(c, e), local) && (HasProfile(c.state, local) ==> HasProfile(t, local)) && HasPerson(t, local)
  {
    TallySnoc(c.events, e, local, DeviceProfile);
    TallySnoc(c.events, e, local, PersonLink);
    TallySnoc(c.events, e, local, PersonProfile);
  }

  // ---------- rows that had to wait ----------

  /** Every profile event of the local device is applied, and no row removes the device. */
  ghost predicate OwnApplied(c: Context, rows: seq<Event>, local: DeviceId) {
    forall e :: e in rows && !Foreign(e, local) ==> e.id in IdSet(c.events)
  }

  ghost predicate Stays(rows: seq<Event>, local: DeviceId) {
    forall e :: e in rows ==> !Removes(e, local)
  }

  lemma {:induction false} PassKeepsIdentity(c: Context, rows: seq<Event>, local: DeviceId)
    requires Coherent(c, local) && OwnApplied(c, rows, local) && Stays(rows, local)
    ensures Coherent(Pass(c, rows), local) && SameIdentity(c.state, Pass(c, rows).state, local)
  {
    if rows != [] {
      var before, last := rows[..|rows| - 1], rows[|rows| - 1];
      PassKeepsIdentity(c, before, local);
      PassExtends(c, before);
      if Foreign(last, local) {
        ForeignKeepsCoherent(Pass(c, before), last, local);
      } else {
        IdsGrow(c.events, Pass(c, before).events);
        assert last.id in IdSet(Pass(c, before).events);
      }
    }
  }

  lemma IdsGrow(a: seq<Event>, b: seq<Event>)
    requires a <= b
    ensures IdSet(a) <= IdSet(b)
  {
  }

  /** Later passes apply only foreign rows, which leave the identity alone. */
  lemma {:induction false} RoundsKeepIdentity(c: Context, rows: seq<Event>, local: DeviceId)
    requires Coherent(c, local) && OwnApplied(c, rows, local) && Stays(rows, local)
    ensures SameIdentity(c.state, Rounds(c, rows).state, local)
    decreases |IdSet(rows) - IdSet(c.events)|
  {
    var d := Pass(c, rows);
    if d != c {
      PassProgresses(c, rows);
      PassKeepsIdentity(c, rows, local);
      PassExtends(c, rows);
      IdsGrow(c.events, d.events);
      RoundsKeepIdentity(d, rows, local);
    }
  }
}
