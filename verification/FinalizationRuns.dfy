/** Composing written-out runs of the finalization protocol.

    A run is composed of pieces that lead from one state to another; each event it publishes obeys a
    rule about what was stored before it.
 */
module FinalizationRuns {
  import opened Events
  import opened Workspace
  import opened Materialization
  import opened CanonicalClaim
  import opened ProfileIdentity
  import opened ProfileFinalization
  import opened FinalizationProcesses

  predicate Writes(a: Action) {
    a.PublishProfile? || a.PublishLink? || a.PublishPerson?
  }

  /** A rule for the events a run publishes, given what is stored before. */
  type Rule = (seq<Event>, Event) -> bool

  /** Written on the heads of the history as it is then, under a new id, and authorized there. */
  ghost function OnHeads(): Rule {
    (raw: seq<Event>, e: Event) => WrittenNow(raw, e)
  }

  // ---------- runs of one process ----------

  ghost predicate Obeys(run: seq<Action>, s: System, ok: Rule)
    requires IsRun(run, s)
  {
    run == [] || ((Writes(run[0]) ==> ok(s.log, run[0].e)) && Obeys(run[1..], Perform(s, run[0]), ok))
  }

  /** Some run leads from `s` to `t`. */
  ghost predicate Reaches(s: System, t: System, ok: Rule) {
    exists run :: IsRun(run, s) && After(run, s) == t && Obeys(run, s, ok)
  }

  lemma ObeyCons(a: Action, rest: seq<Action>, s: System, ok: Rule)
    requires Enabled(s, a) && IsRun(rest, Perform(s, a)) && Obeys(rest, Perform(s, a), ok)
    requires Writes(a) ==> ok(s.log, a.e)
    ensures IsRun([a] + rest, s) && After([a] + rest, s) == After(rest, Perform(s, a)) && Obeys([a] + rest, s, ok)
  {
    ProfileFinalization.RunCons(a, rest, s);
    assert ([a] + rest)[1..] == rest;
  }

  lemma {:induction false} ObeyConcat(a: seq<Action>, b: seq<Action>, s: System, ok: Rule)
    requires IsRun(a, s) && IsRun(b, After(a, s)) && Obeys(a, s, ok) && Obeys(b, After(a, s), ok)
    ensures IsRun(a + b, s) && After(a + b, s) == After(b, After(a, s)) && Obeys(a + b, s, ok)
    decreases |a|
  {
    if a == [] {
      assert a + b == b;
    } else {
      ProfileFinalization.RunTail(a, s);
      ObeyConcat(a[1..], b, Perform(s, a[0]), ok);
      ObeyCons(a[0], a[1..] + b, s, ok);
      assert [a[0]] + (a[1..] + b) == a + b;
    }
  }

  lemma Leads(s: System, a: Action, t: System, ok: Rule)
    requires Enabled(s, a) && Perform(s, a) == t && (Writes(a) ==> ok(s.log, a.e))
    ensures Reaches(s, t, ok)
  {
    ObeyCons(a, [], s, ok);
  }

  lemma Then(s: System, t: System, u: System, ok: Rule)
    requires Reaches(s, t, ok) && Reaches(t, u, ok)
    ensures Reaches(s, u, ok)
  {
    var a :| IsRun(a, s) && After(a, s) == t && Obeys(a, s, ok);
    var b :| IsRun(b, t) && After(b, t) == u && Obeys(b, t, ok);
    ObeyConcat(a, b, s, ok);
  }

  lemma {:induction false} RowsReach(s: System, rows: seq<Event>, ok: Rule)
    requires forall e :: e in rows ==> Foreign(e, s.local)
    ensures Reaches(s, s.(log := s.log + rows), ok)
    decreases |rows|
  {
    if rows == [] {
      assert s.log + rows == s.log;
      assert IsRun([], s) && Obeys([], s, ok);
    } else {
      var t := s.(log := s.log + [rows[0]]);
      Leads(s, Arrive(rows[0]), t, ok);
      RowsReach(t, rows[1..], ok);
      assert s.log + [rows[0]] + rows[1..] == s.log + rows;
      Then(s, t, s.(log := s.log + rows), ok);
    }
  }

  /** Preparing, marking and importing, in one go. */
  lemma MarkReaches(s: System, at: Coordinates, r: Receipt, ok: Rule)
    requires s.phase == Idle && s.ready == {} && at !in s.receipts && r.inviteId == at.inviteId && r.requestId == at.requestId
    ensures Reaches(s, s.(key := true, receipts := s.receipts[at := Stored(r, true, false)],
                          markers := s.markers + {at}, imported := s.imported + {at}), ok)
  {
    var c := Stored(r, false, false);
    var s1 := s.(receipts := s.receipts[at := c]);
    Leads(s, Prepare(at, r), s1, ok);
    MarkedReaches(s1, at, ok);
    assert s1.receipts[at := c.(pending := true)] == s.receipts[at := Stored(r, true, false)];
    Then(s, s1, s1.(key := true, receipts := s1.receipts[at := c.(pending := true)], markers := s1.markers + {at},
                    imported := s1.imported + {at}), ok);
  }

  lemma MarkedReaches(s: System, at: Coordinates, ok: Rule)
    requires s.phase == Idle && s.ready == {} && at in s.receipts && !s.receipts[at].finalized
    ensures Reaches(s, s.(key := true, receipts := s.receipts[at := s.receipts[at].(pending := true)], markers := s.markers + {at},
                          imported := s.imported + {at}), ok)
  {
    var c := s.receipts[at];
    var s2 := s.(phase := Marking(at, c));
    var s3 := s.(markers := s.markers + {at}, phase := Marked(at, c));
    Leads(s, BeginMark(at), s2, ok);
    Leads(s2, WriteMarker, s3, ok);
    ImportReaches(s3, at, c, ok);
    Then(s, s2, s3, ok);
    Then(s, s3, s3.(key := true, receipts := s3.receipts[at := c.(pending := true)], phase := Idle, imported := s3.imported + {at}), ok);
  }

  lemma ImportReaches(s: System, at: Coordinates, c: Stored, ok: Rule)
    requires s.phase == Marked(at, c) && s.ready == {}
    ensures Reaches(s, s.(key := true, receipts := s.receipts[at := c.(pending := true)], phase := Idle,
                          imported := s.imported + {at}), ok)
  {
    var t := s.(receipts := s.receipts[at := c.(pending := true)], phase := Idle, ready := {at});
    var u := t.(key := true, imported := t.imported + {at}, ready := {});
    Leads(s, WriteReceipt, t, ok);
    Leads(t, ImportKey(at), u, ok);
    Then(s, t, u, ok);
  }

  lemma BeginReaches(s: System, ok: Rule)
    requires s.phase == Idle
    ensures Reaches(s, s.(phase := Begun(s.log, s.key, s.receipts, s.local)), ok)
  {
    Leads(s, BeginFinalize, s.(phase := Begun(s.log, s.key, s.receipts, s.local)), ok);
  }

  lemma ProfileReaches(s: System, e: Event, ok: Rule)
    requires s.phase.Naming? && s.phase.missing && e.author == s.local && e.body == DeviceProfileUpdated(s.phase.name) && ok(s.log, e)
    ensures Reaches(s, Publish(s, e, Linking(s.phase.at, s.phase.name, s.phase.from)), ok)
  {
    Leads(s, PublishProfile(e), Publish(s, e, Linking(s.phase.at, s.phase.name, s.phase.from)), ok);
  }

  lemma RefreshReaches(s: System, ok: Rule)
    requires s.phase.Linking? && View(s).links == map[]
    ensures Reaches(s, s.(phase := Unlinked(s.phase.at, s.phase.name, s.phase.from, |s.log|)), ok)
  {
    Leads(s, Refresh, s.(phase := Unlinked(s.phase.at, s.phase.name, s.phase.from, |s.log|)), ok);
  }

  lemma LinkReaches(s: System, f: Event, person: PersonId, ok: Rule)
    requires s.phase.Unlinked? && f.author == s.local && f.body == PersonDeviceLinked(person, s.local)
    requires UnusedPerson(s.log, person) && ok(s.log, f)
    ensures Reaches(s, Publish(s, f, Profiling(s.phase.at, s.phase.name, person, s.phase.from, s.phase.looked)), ok)
  {
    Leads(s, PublishLink(f), Publish(s, f, Profiling(s.phase.at, s.phase.name, person, s.phase.from, s.phase.looked)), ok);
  }

  lemma PersonReaches(s: System, g: Event, ok: Rule)
    requires s.phase.Profiling? && g.author == s.local && g.body == PersonProfileUpdated(s.phase.person, s.phase.name) && ok(s.log, g)
    ensures Reaches(s, Publish(s, g, Completing(s.phase.at)), ok)
  {
    Leads(s, PublishPerson(g), Publish(s, g, Completing(s.phase.at)), ok);
  }

  lemma CrashReaches(s: System, ok: Rule)
    ensures Reaches(s, s.(phase := Idle, ready := {}), ok)
  {
    Leads(s, Crash, s.(phase := Idle, ready := {}), ok);
  }

  /** With a name in hand: the profile, the link and the person's profile. */
  lemma EverythingReaches(s: System, e: Event, person: PersonId, f: Event, g: Event, ok: Rule) returns (t: System)
    requires s.phase.Naming? && s.phase.missing && e.author == s.local && f.author == s.local && g.author == s.local
    requires e.body == DeviceProfileUpdated(s.phase.name) && f.body == PersonDeviceLinked(person, s.local)
    requires g.body == PersonProfileUpdated(person, s.phase.name)
    requires Materialize(s.log + [e]).state.links == map[] && UnusedPerson(s.log + [e], person)
    requires ok(s.log, e) && ok(s.log + [e], f) && ok(s.log + [e] + [f], g)
    ensures Reaches(s, t, ok) && t.phase == Completing(s.phase.at) && t.receipts == s.receipts && t.ready == s.ready
  {
    var s2 := Publish(s, e, Linking(s.phase.at, s.phase.name, s.phase.from));
    ProfileReaches(s, e, ok);
    var s3 := s2.(phase := Unlinked(s.phase.at, s.phase.name, s.phase.from, |s2.log|));
    RefreshReaches(s2, ok);
    var s4 := Publish(s3, f, Profiling(s.phase.at, s.phase.name, person, s.phase.from, |s2.log|));
    LinkReaches(s3, f, person, ok);
    t := Publish(s4, g, Completing(s.phase.at));
    PersonReaches(s4, g, ok);
    Then(s, s2, s3, ok);
    Then(s, s3, s4, ok);
    Then(s, s4, t, ok);
  }

  /** With a name in hand: the profile, then a crash, and another row arrives. */
  lemma ProfileThenCrash(s: System, e: Event, z: Event, ok: Rule)
    returns (t: System)
    requires s.phase.Naming? && s.phase.missing && e.author == s.local && e.body == DeviceProfileUpdated(s.phase.name)
    requires Foreign(z, s.local) && ok(s.log, e)
    ensures Reaches(s, t, ok) && t.phase == Idle && t.log == s.log + [e] + [z] && t.local == s.local
    ensures t.key == s.key && t.receipts == s.receipts
  {
    var s2 := Publish(s, e, Linking(s.phase.at, s.phase.name, s.phase.from));
    ProfileReaches(s, e, ok);
    var s3 := s2.(phase := Idle, ready := {});
    CrashReaches(s2, ok);
    t := s3.(log := s3.log + [z]);
    Leads(s3, Arrive(z), t, ok);
    Then(s, s2, s3, ok);
    Then(s, s3, t, ok);
  }

  // ---------- runs of several processes ----------

  ghost predicate AllObey(run: seq<Step>, m: Shared, ok: Rule)
    requires CanRun(run, m)
  {
    run == [] || ((Writes(run[0].action) ==> ok(m.core.log, run[0].action.e)) && AllObey(run[1..], Do(m, run[0]), ok))
  }

  ghost predicate AllReach(m: Shared, n: Shared, ok: Rule) {
    exists run :: CanRun(run, m) && Final(run, m) == n && AllObey(run, m, ok)
  }

  lemma AllObeyCons(x: Step, rest: seq<Step>, m: Shared, ok: Rule)
    requires CanDo(m, x) && CanRun(rest, Do(m, x)) && AllObey(rest, Do(m, x), ok)
    requires Writes(x.action) ==> ok(m.core.log, x.action.e)
    ensures CanRun([x] + rest, m) && Final([x] + rest, m) == Final(rest, Do(m, x)) && AllObey([x] + rest, m, ok)
  {
    FinalizationProcesses.RunCons(x, rest, m);
    assert ([x] + rest)[1..] == rest;
  }

  lemma AllObeyTail(run: seq<Step>, m: Shared, ok: Rule)
    requires CanRun(run, m) && AllObey(run, m, ok) && run != []
    ensures CanDo(m, run[0]) && CanRun(run[1..], Do(m, run[0])) && Final(run, m) == Final(run[1..], Do(m, run[0]))
    ensures AllObey(run[1..], Do(m, run[0]), ok) && (Writes(run[0].action) ==> ok(m.core.log, run[0].action.e))
  {
  }

  lemma AllPrepend(m: Shared, x: Step, n: Shared, o: Shared, ok: Rule)
    requires CanDo(m, x) && n == Do(m, x) && (Writes(x.action) ==> ok(m.core.log, x.action.e)) && AllReach(n, o, ok)
    ensures AllReach(m, o, ok)
  {
    var rest :| CanRun(rest, n) && Final(rest, n) == o && AllObey(rest, n, ok);
    AllObeyCons(x, rest, m, ok);
  }

  lemma {:induction false} AllAfterRun(run: seq<Step>, m: Shared, n: Shared, o: Shared, ok: Rule)
    requires CanRun(run, m) && AllObey(run, m, ok) && Final(run, m) == n && AllReach(n, o, ok)
    ensures AllReach(m, o, ok)
    decreases |run|
  {
    if run != [] {
      AllObeyTail(run, m, ok);
      AllAfterRun(run[1..], Do(m, run[0]), n, o, ok);
      AllPrepend(m, run[0], Do(m, run[0]), o, ok);
    }
  }

  lemma AllLead(m: Shared, x: Step, ok: Rule)
    requires CanDo(m, x) && (Writes(x.action) ==> ok(m.core.log, x.action.e))
    ensures AllReach(m, Do(m, x), ok)
  {
    AllObeyCons(x, [], m, ok);
  }

  lemma AllThen(m: Shared, n: Shared, o: Shared, ok: Rule)
    requires AllReach(m, n, ok) && AllReach(n, o, ok)
    ensures AllReach(m, o, ok)
  {
    var run :| CanRun(run, m) && Final(run, m) == n && AllObey(run, m, ok);
    AllAfterRun(run, m, n, o, ok);
  }

  lemma {:induction false} BusyObeys(m: Shared, p: nat, s: System, run: seq<Action>, ok: Rule)
    requires Busy(m, p, s) && IsRun(run, s) && Obeys(run, s, ok)
    ensures CanRun(By(p, run), m) && Busy(Final(By(p, run), m), p, After(run, s)) && AllObey(By(p, run), m, ok)
    decreases |run|
  {
    if run != [] {
      var x := Step(p, run[0]);
      BusyStep(m, p, s, run[0]);
      BusyObeys(Do(m, x), p, Perform(s, run[0]), run[1..], ok);
      AllObeyCons(x, By(p, run[1..]), m, ok);
      assert [x] + By(p, run[1..]) == By(p, run);
    }
  }

  /** What one process reaches, with the others at rest. */
  lemma BusyReaches(m: Shared, p: nat, s: System, t: System, ok: Rule) returns (n: Shared)
    requires Busy(m, p, s) && Reaches(s, t, ok)
    ensures Busy(n, p, t) && AllReach(m, n, ok)
  {
    var run :| IsRun(run, s) && After(run, s) == t && Obeys(run, s, ok);
    BusyObeys(m, p, s, run, ok);
    n := Final(By(p, run), m);
  }

  // ---------- two processes that look together ----------

  lemma OneBegins(m: Shared, p: nat, name: string, ok: Rule) returns (n: Shared)
    requires PhaseOf(m, p) == Idle && CouldName(m.core, name)
    ensures AllReach(m, n, ok) && n.core.log == m.core.log && n.core.local == m.core.local && CouldName(n.core, name)
    ensures PhaseOf(n, p).Naming? && PhaseOf(n, p).missing && PhaseOf(n, p).name == name
    ensures forall q :: q != p ==> PhaseOf(n, q) == PhaseOf(m, q)
  {
    BeginNames(m, p, name);
    n := Do(m, Step(p, BeginFinalize));
    AllLead(m, Step(p, BeginFinalize), ok);
  }

  lemma TogetherBegin(m: Shared, name: string, ok: Rule) returns (n: Shared)
    requires PhaseOf(m, 0) == Idle && PhaseOf(m, 1) == Idle && CouldName(m.core, name)
    ensures AllReach(m, n, ok) && n.core.log == m.core.log && n.core.local == m.core.local
    ensures PhaseOf(n, 0).Naming? && PhaseOf(n, 0).missing && PhaseOf(n, 0).name == name
    ensures PhaseOf(n, 1).Naming? && PhaseOf(n, 1).missing && PhaseOf(n, 1).name == name
  {
    var one := OneBegins(m, 0, name, ok);
    n := OneBegins(one, 1, name, ok);
    AllThen(m, one, n, ok);
  }

  lemma LogAfterPublish(m: Shared, p: nat, e: Event)
    requires CanDo(m, Step(p, PublishProfile(e)))
    ensures Do(m, Step(p, PublishProfile(e))).core.log == m.core.log + [e]
  {
  }

  lemma TogetherPublish(m: Shared, e: Event, f: Event, ok: Rule) returns (n: Shared)
    requires PhaseOf(m, 0).Naming? && PhaseOf(m, 0).missing && PhaseOf(m, 1).Naming? && PhaseOf(m, 1).missing
    requires Own(e, m.core.local, DeviceProfile) && e.body.displayName == PhaseOf(m, 0).name
    requires Own(f, m.core.local, DeviceProfile) && f.body.displayName == PhaseOf(m, 1).name
    requires ok(m.core.log, e) && ok(m.core.log + [e], f)
    ensures AllReach(m, n, ok) && Tally(n.core.log, m.core.local, DeviceProfile) >= 2
  {
    BothPublish(m, 0, 1, e, f);
    var one := Do(m, Step(0, PublishProfile(e)));
    LogAfterPublish(m, 0, e);
    n := Do(one, Step(1, PublishProfile(f)));
    AllLead(m, Step(0, PublishProfile(e)), ok);
    AllLead(one, Step(1, PublishProfile(f)), ok);
    AllThen(m, one, n, ok);
  }

  // ---------- a claim marked again while another process finishes it ----------

  lemma BeginsMark(m: Shared, p: nat, at: Coordinates, ok: Rule) returns (n: Shared)
    requires PhaseOf(m, p) == Idle && at in m.core.receipts && !m.core.receipts[at].finalized
    ensures AllReach(m, n, ok) && n.core.receipts == m.core.receipts && PhaseOf(n, p) == Marking(at, m.core.receipts[at])
    ensures forall q :: q != p ==> PhaseOf(n, q) == PhaseOf(m, q)
  {
    n := Do(m, Step(p, BeginMark(at)));
    AllLead(m, Step(p, BeginMark(at)), ok);
  }

  lemma WritesMark(m: Shared, p: nat, ok: Rule) returns (n: Shared)
    requires PhaseOf(m, p).Marking?
    ensures AllReach(m, n, ok) && n.core.receipts == m.core.receipts
    ensures PhaseOf(n, p) == Marked(PhaseOf(m, p).at, PhaseOf(m, p).copy)
    ensures forall q :: q != p ==> PhaseOf(n, q) == PhaseOf(m, q)
  {
    n := Do(m, Step(p, WriteMarker));
    AllLead(m, Step(p, WriteMarker), ok);
  }

  lemma MarksAgain(m: Shared, p: nat, q: nat, at: Coordinates, ok: Rule) returns (n: Shared)
    requires p != q && PhaseOf(m, p) == Idle && PhaseOf(m, q) == Completing(at)
    requires at in m.core.receipts && !m.core.receipts[at].finalized
    ensures AllReach(m, n, ok) && n.core.receipts == m.core.receipts
    ensures PhaseOf(n, p) == Marked(at, m.core.receipts[at]) && PhaseOf(n, q) == Completing(at)
  {
    var one := BeginsMark(m, p, at, ok);
    n := WritesMark(one, p, ok);
    AllThen(m, one, n, ok);
  }

  lemma {:induction false} QuietSteps(run: seq<Step>, m: Shared, ok: Rule)
    requires CanRun(run, m) && forall x :: x in run ==> !Writes(x.action)
    ensures AllObey(run, m, ok)
  {
    if run != [] {
      QuietSteps(run[1..], Do(m, run[0]), ok);
    }
  }

  lemma LosesIntentThen(m: Shared, p: nat, q: nat, at: Coordinates, ok: Rule) returns (n: Shared)
    requires p != q && PhaseOf(m, q) == Completing(at)
    requires at in m.core.receipts && !m.core.receipts[at].finalized && PhaseOf(m, p) == Marked(at, m.core.receipts[at])
    ensures AllReach(m, n, ok) && at in n.core.imported && !Recoverable(n.core, at)
  {
    OverlapLosesIntent(m, p, q, at);
    var run := [Step(q, WriteFinalized), Step(q, RemoveMarker), Step(p, WriteReceipt), Step(p, ImportKey(at))];
    QuietSteps(run, m, ok);
    n := Final(run, m);
  }
}
