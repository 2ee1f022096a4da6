/** The checkpoint that lets a sync skip OpenMLS reconciliation.

    Any number of processes share the event store, the secret directory and the checkpoint ledger.
    Every read is a step of its own: a snapshot reads the event ids first and the secrets later, and
    anything may happen in between. Events are only ever appended.
 */
module ReconcileCheckpoint {
  import opened Events
  import opened Fingerprints

  type WorkspaceId = string
  type Secrets = string

  const MaxEntries: nat := 256

  // ---------- the end-inventory predicate ----------

  function Distinct(s: seq<EventId>): set<EventId> {
    set x | x in s
  }

  /** Did a pass that reports `generated` leave the inventory it should? */
  predicate ExpectedEnd(start: seq<EventId>, end: seq<EventId>, generated: seq<EventId>) {
    && start <= end
    && |Distinct(start)| == |start|
    && |Distinct(generated)| == |generated|
    && (forall id :: id in generated ==> id !in Distinct(start))
    && |end| == |start| + |generated|
    && |Distinct(end)| == |end|
    && Distinct(end) == Distinct(start) + Distinct(generated)
  }

  /** `end` is `start` followed by the generated events in some order, with no id twice. */
  ghost predicate Extends(start: seq<EventId>, end: seq<EventId>, generated: seq<EventId>) {
    && NoDuplicates(end)
    && start <= end && multiset(end[|start|..]) == multiset(generated)
  }

  lemma {:induction false} DistinctCount(s: seq<EventId>)
    ensures |Distinct(s)| <= |s|
    ensures |Distinct(s)| == |s| <==> NoDuplicates(s)
  {
    if s != [] {
      var last, rest := s[|s| - 1], s[..|s| - 1];
      DistinctCount(rest);
      assert s == rest + [last];
      assert Distinct(s) == Distinct(rest) + {last};
      if last in rest {
        var k :| 0 <= k < |rest| && rest[k] == last;
        assert s[k] == s[|s| - 1];
        assert Distinct(s) == Distinct(rest);
      } else if NoDuplicates(rest) {
        assert NoDuplicates(s);
      } else {
        var i, j :| 0 <= i < j < |rest| && rest[i] == rest[j];
        assert s[i] == s[j];
      }
    }
  }

  lemma DistinctMultiset(s: seq<EventId>)
    requires NoDuplicates(s)
    ensures forall x :: multiset(s)[x] == if x in s then 1 else 0
  {
    forall x
      ensures multiset(s)[x] == if x in s then 1 else 0
    {
      OccursOnce(s, x);
    }
  }

  lemma {:induction false} OccursOnce(s: seq<EventId>, x: EventId)
    requires NoDuplicates(s)
    ensures multiset(s)[x] == if x in s then 1 else 0
  {
    if s != [] {
      OccursOnce(s[..|s| - 1], x);
      assert s == s[..|s| - 1] + [s[|s| - 1]];
    }
  }

  lemma NoDuplicatesPermutes(s: seq<EventId>, t: seq<EventId>)
    requires NoDuplicates(s) && multiset(s) == multiset(t)
    ensures NoDuplicates(t) && Distinct(s) == Distinct(t)
  {
    DistinctMultiset(s);
    forall x ensures x in s <==> x in t {
      assert x in multiset(s) <==> x in multiset(t);
    }
    forall i, j | 0 <= i < j < |t|
      ensures t[i] != t[j]
    {
      if t[i] == t[j] {
        CountsTwice(t, i, j);
      }
    }
  }

  lemma SameSetSameMultiset(s: seq<EventId>, t: seq<EventId>)
    requires NoDuplicates(s) && NoDuplicates(t) && Distinct(s) == Distinct(t)
    ensures multiset(s) == multiset(t)
  {
    DistinctMultiset(s);
    DistinctMultiset(t);
    forall x ensures multiset(s)[x] == multiset(t)[x] {
      assert x in s <==> x in Distinct(s);
    }
  }

  lemma ExpectedEndExtends(start: seq<EventId>, end: seq<EventId>, generated: seq<EventId>)
    requires ExpectedEnd(start, end, generated)
    ensures Extends(start, end, generated)
  {
    DistinctCount(end);
    DistinctCount(generated);
    var tail := end[|start|..];
    assert end == start + tail;
    assert NoDuplicates(tail);
    assert forall j :: 0 <= j < |tail| ==> tail[j] == end[|start| + j];
    assert forall i :: 0 <= i < |start| ==> start[i] !in tail;
    forall x
      ensures x in Distinct(tail) <==> x in Distinct(generated)
    {
      assert x in Distinct(end) <==> x in Distinct(start) || x in Distinct(generated);
    }
    SameSetSameMultiset(tail, generated);
  }

  lemma ExtendsExpectedEnd(start: seq<EventId>, end: seq<EventId>, generated: seq<EventId>)
    requires Extends(start, end, generated)
    ensures ExpectedEnd(start, end, generated)
  {
    var tail := end[|start|..];
    assert end == start + tail;
    assert NoDuplicates(start) && NoDuplicates(tail);
    NoDuplicatesPermutes(tail, generated);
    DistinctCount(start);
    DistinctCount(end);
    DistinctCount(generated);
    assert |tail| == |multiset(tail)| == |multiset(generated)| == |generated|;
    assert Distinct(end) == Distinct(start) + Distinct(tail);
    forall id | id in generated
      ensures id !in Distinct(start)
    {
      assert id in Distinct(tail);
      var j :| 0 <= j < |tail| && tail[j] == id;
      assert end[|start| + j] == id;
    }
  }

  /** The predicate accepts exactly the starting history followed by a permutation of the
      generated events, all distinct. */
  lemma ExpectedEndMeans(start: seq<EventId>, end: seq<EventId>, generated: seq<EventId>)
    ensures ExpectedEnd(start, end, generated)
            <==> (NoDuplicates(end) && exists p: seq<EventId> :: multiset(p) == multiset(generated) && end == start + p)
  {
    if ExpectedEnd(start, end, generated) {
      ExpectedEndExtends(start, end, generated);
      assert end == start + end[|start|..];
    }
    if NoDuplicates(end) && exists p: seq<EventId> :: multiset(p) == multiset(generated) && end == start + p {
      var p: seq<EventId> :| multiset(p) == multiset(generated) && end == start + p;
      assert end[|start|..] == p;
      ExtendsExpectedEnd(start, end, generated);
    }
  }

  // ---------- processes ----------

  datatype Snapshot = Snapshot(ids: seq<EventId>, secrets: Secrets)

  datatype Entry = Entry(workspace: WorkspaceId, device: DeviceId, inventory: Digest, secrets: Digest)

  datatype Outcome = Skipped | Worked(recorded: bool)

  /** Where a call of the reconciliation stands. `seen` counts the passes recorded when it read the
      ids; `None` stands for a snapshot that could not be taken. */
  datatype Phase =
    | Fresh
    | StartIds(ids: seq<EventId>, seen: nat)
    | Comparing(now: Snapshot, seen: nat)
    | Working(begun: Option<Snapshot>, own: set<EventId>)
    | Ending(begun: Option<Snapshot>, own: set<EventId>, generated: seq<EventId>)
    | EndIds(start: Snapshot, own: set<EventId>, generated: seq<EventId>, endIds: seq<EventId>)
    | Deciding(start: Snapshot, own: set<EventId>, generated: seq<EventId>, end: Snapshot, atEnd: seq<EventId>)
    | Writing(pass: Pass, copy: seq<Entry>)
    | Done(outcome: Outcome)

  datatype Process = Process(workspace: WorkspaceId, device: DeviceId, phase: Phase)

  /** An error-free pass that was written to the ledger. `own` are the ids it appended itself and
      `atEnd` is the history at the moment its end secrets were read. */
  datatype Pass = Pass(workspace: WorkspaceId, device: DeviceId, start: Snapshot, own: set<EventId>,
                       generated: seq<EventId>, end: Snapshot, atEnd: seq<EventId>)

  datatype System = System(
    logs: Logs,
    secrets: map<WorkspaceId, Secrets>,
    ledger: seq<Entry>,
    passes: seq<Pass>,
    processes: seq<Process>)

  datatype Action =
    | Append(w: WorkspaceId, more: seq<EventId>)
    | ChangeSecrets(w: WorkspaceId, to: Secrets)
    | LoseLedger(keep: nat)
    | Spawn(w: WorkspaceId, device: DeviceId)
    | ReadStartIds(p: nat)
    | StartUnreadable(p: nat)
    | ReadStartSecrets(p: nat)
    | CompareLedger(p: nat)
    | Work(p: nat, more: seq<EventId>)
    | FinishPass(p: nat, generated: seq<EventId>)
    | FailPass(p: nat)
    | ReadEndIds(p: nat)
    | EndUnreadable(p: nat)
    | ReadEndSecrets(p: nat)
    | ReadLedger(p: nat)
    | WriteLedger(p: nat, written: bool)

  type Logs = map<WorkspaceId, seq<EventId>>

  function Log(logs: Logs, w: WorkspaceId): seq<EventId> {
    if w in logs then logs[w] else []
  }

  function SecretsOf(s: System, w: WorkspaceId): Secrets {
    if w in s.secrets then s.secrets[w] else ""
  }

  function SecretFingerprint(x: Secrets): Digest {
    Digest(Codes(x))
  }

  function EntryOf(w: WorkspaceId, d: DeviceId, x: Snapshot): Entry {
    Entry(w, d, SequenceFingerprint(x.ids), SecretFingerprint(x.secrets))
  }

  predicate Matches(ledger: seq<Entry>, w: WorkspaceId, d: DeviceId, x: Snapshot) {
    EntryOf(w, d, x) in ledger
  }

  function OtherKeys(ledger: seq<Entry>, w: WorkspaceId, d: DeviceId): seq<Entry> {
    Filter(ledger, (e: Entry) => e.workspace != w || e.device != d)
  }

  /** The ledger with the entry of its workspace and device replaced, oldest entries dropped. */
  function Recorded(ledger: seq<Entry>, e: Entry): (r: seq<Entry>)
    ensures 0 < |r| <= MaxEntries && r[|r| - 1] == e
    ensures forall x :: x in r ==> x in ledger || x == e
    ensures forall x :: x in r && x.workspace == e.workspace && x.device == e.device ==> x == e
    ensures |ledger| < MaxEntries ==>
              forall x :: x in ledger && (x.workspace != e.workspace || x.device != e.device) ==> x in r
  {
    var others := OtherKeys(ledger, e.workspace, e.device);
    FilterShrinks(ledger, (x: Entry) => x.workspace != e.workspace || x.device != e.device);
    var drop := if |others| >= MaxEntries then |others| + 1 - MaxEntries else 0;
    others[drop..] + [e]
  }

  /** Of the other entries the newest stay, as many as fit. */
  lemma RecordedKeepsNewest(ledger: seq<Entry>, e: Entry)
    ensures var others, r := OtherKeys(ledger, e.workspace, e.device), Recorded(ledger, e);
            |r| == (if |others| < MaxEntries then |others| + 1 else MaxEntries) && r == others[|others| + 1 - |r|..] + [e]
  {
  }

  lemma {:induction false} FilterShrinks<T(!new)>(s: seq<T>, p: T -> bool)
    ensures |Filter(s, p)| <= |s|
  {
    if s != [] {
      FilterShrinks(s[1..], p);
    }
  }

  predicate NewIds(log: seq<EventId>, more: seq<EventId>) {
    && (forall i :: 0 <= i < |more| ==> |more[i]| < Pow256(Width) && more[i] !in log)
    && (forall i :: 0 <= i < |more| ==> more[i] !in more[i + 1..])
  }

  predicate At(s: System, p: nat) {
    p < |s.processes|
  }

  predicate Enabled(s: System, a: Action) {
    match a
    case Append(w, more) => NewIds(Log(s.logs, w), more)
    case ChangeSecrets(_, _) => true
    case LoseLedger(keep) => keep <= |s.ledger|
    case Spawn(_, _) => true
    case ReadStartIds(p) => At(s, p) && s.processes[p].phase.Fresh?
    case StartUnreadable(p) => At(s, p) && (s.processes[p].phase.Fresh? || s.processes[p].phase.StartIds?)
    case ReadStartSecrets(p) => At(s, p) && s.processes[p].phase.StartIds?
    case CompareLedger(p) => At(s, p) && s.processes[p].phase.Comparing?
    case Work(p, more) =>
      At(s, p) && s.processes[p].phase.Working? && NewIds(Log(s.logs, s.processes[p].workspace), more)
    case FinishPass(p, generated) =>
      && At(s, p) && s.processes[p].phase.Working?
      && forall id :: id in generated ==> id in s.processes[p].phase.own
    case FailPass(p) => At(s, p) && s.processes[p].phase.Working?
    case ReadEndIds(p) => At(s, p) && s.processes[p].phase.Ending? && s.processes[p].phase.begun.Some?
    case EndUnreadable(p) => At(s, p) && (s.processes[p].phase.Ending? || s.processes[p].phase.EndIds?)
    case ReadEndSecrets(p) => At(s, p) && s.processes[p].phase.EndIds?
    case ReadLedger(p) => At(s, p) && s.processes[p].phase.Deciding?
    case WriteLedger(p, _) => At(s, p) && s.processes[p].phase.Writing?
  }

  function Put(s: System, p: nat, phase: Phase): System
    requires At(s, p)
  {
    s.(processes := s.processes[p := s.processes[p].(phase := phase)])
  }

  function Appended(s: System, w: WorkspaceId, more: seq<EventId>): System {
    s.(logs := s.logs[w := Log(s.logs, w) + more])
  }

  /** Is the finished pass worth a checkpoint? */
  predicate Checkpointable(ph: Phase)
    requires ph.Deciding?
  {
    && SecretFingerprint(ph.start.secrets) == SecretFingerprint(ph.end.secrets)
    && ExpectedEnd(ph.start.ids, ph.end.ids, ph.generated)
  }

  function PassOf(q: Process): Pass
    requires q.phase.Deciding?
  {
    Pass(q.workspace, q.device, q.phase.start, q.phase.own, q.phase.generated, q.phase.end, q.phase.atEnd)
  }

  function Perform(s: System, a: Action): System
    requires Enabled(s, a)
  {
    match a
    case Append(w, more) => Appended(s, w, more)
    case ChangeSecrets(w, to) => s.(secrets := s.secrets[w := to])
    case LoseLedger(keep) => s.(ledger := s.ledger[|s.ledger| - keep..])
    case Spawn(w, d) => s.(processes := s.processes + [Process(w, d, Fresh)])
    case ReadStartIds(p) => Put(s, p, StartIds(Log(s.logs, s.processes[p].workspace), |s.passes|))
    case StartUnreadable(p) => Put(s, p, Working(None, {}))
    case ReadStartSecrets(p) =>
      var q := s.processes[p];
      Put(s, p, Comparing(Snapshot(q.phase.ids, SecretsOf(s, q.workspace)), q.phase.seen))
    case CompareLedger(p) =>
      var q := s.processes[p];
      Put(s, p, if Matches(s.ledger, q.workspace, q.device, q.phase.now) then Done(Skipped) else Working(Some(q.phase.now), {}))
    case Work(p, more) =>
      var q := s.processes[p];
      Put(Appended(s, q.workspace, more), p, Working(q.phase.begun, q.phase.own + Distinct(more)))
    case FinishPass(p, generated) =>
      var ph := s.processes[p].phase;
      Put(s, p, Ending(ph.begun, ph.own, generated))
    case FailPass(p) => Put(s, p, Done(Worked(false)))
    case ReadEndIds(p) =>
      var q := s.processes[p];
      Put(s, p, EndIds(q.phase.begun.value, q.phase.own, q.phase.generated, Log(s.logs, q.workspace)))
    case EndUnreadable(p) => Put(s, p, Done(Worked(false)))
    case ReadEndSecrets(p) =>
      var q := s.processes[p];
      var x := Snapshot(q.phase.endIds, SecretsOf(s, q.workspace));
      Put(s, p, Deciding(q.phase.start, q.phase.own, q.phase.generated, x, Log(s.logs, q.workspace)))
    case ReadLedger(p) =>
      var q := s.processes[p];
      Put(s, p, if Checkpointable(q.phase) then Writing(PassOf(q), s.ledger) else Done(Worked(false)))
    case WriteLedger(p, written) =>
      var q := s.processes[p];
      var x := q.phase.pass;
      if written then
        Put(s.(ledger := Recorded(q.phase.copy, EntryOf(x.workspace, x.device, x.end)), passes := s.passes + [x]),
            p, Done(Worked(true)))
      else Put(s, p, Done(Worked(false)))
  }

  // ---------- what every step keeps ----------

  /** A pass worth skipping for: secrets unchanged, and the history grew by exactly the events it
      reports, all of them its own. */
  ghost predicate Complete(x: Pass) {
    && x.start.secrets == x.end.secrets
    && Extends(x.start.ids, x.end.ids, x.generated)
    && (forall i :: |x.start.ids| <= i < |x.end.ids| ==> x.end.ids[i] in x.own)
  }

  ghost predicate PassOk(x: Pass, log: seq<EventId>) {
    Complete(x) && x.end.ids <= x.atEnd <= log
  }

  ghost predicate PhaseOk(ph: Phase, log: seq<EventId>) {
    match ph
    case StartIds(ids, _) => ids <= log
    case Comparing(now, _) => now.ids <= log
    case Working(_, _) => true
    case Ending(_, own, generated) => forall id :: id in generated ==> id in own
    case EndIds(_, own, generated, endIds) =>
      endIds <= log && forall id :: id in generated ==> id in own
    case Deciding(_, own, generated, end, atEnd) =>
      end.ids <= atEnd <= log && forall id :: id in generated ==> id in own
    case Writing(x, _) => PassOk(x, log)
    case _ => true
  }

  ghost predicate LogsOk(logs: Logs) {
    forall w :: NoDuplicates(Log(logs, w)) && Representable(Log(logs, w))
  }

  ghost predicate Backed(e: Entry, passes: seq<Pass>) {
    exists k :: 0 <= k < |passes| && e == EntryOf(passes[k].workspace, passes[k].device, passes[k].end)
  }

  ghost predicate ProcessesOk(s: System) {
    forall p :: 0 <= p < |s.processes| ==> PhaseOk(s.processes[p].phase, Log(s.logs, s.processes[p].workspace))
  }

  ghost predicate PassesOk(s: System) {
    forall k :: 0 <= k < |s.passes| ==> PassOk(s.passes[k], Log(s.logs, s.passes[k].workspace))
  }

  /** A process that read its ids after a pass was recorded read at least that pass's history. */
  ghost predicate ReadersOk(s: System) {
    forall p, k :: 0 <= p < |s.processes| && 0 <= k < |s.passes| ==> ReaderOk(s.processes[p], s.passes[k], k)
  }

  ghost predicate ReaderOk(q: Process, x: Pass, k: nat) {
    && (q.phase.StartIds? && k < q.phase.seen && q.workspace == x.workspace ==> x.atEnd <= q.phase.ids)
    && (q.phase.Comparing? && k < q.phase.seen && q.workspace == x.workspace ==> x.atEnd <= q.phase.now.ids)
  }

  ghost predicate SeenOk(s: System) {
    forall p :: 0 <= p < |s.processes| && (s.processes[p].phase.StartIds? || s.processes[p].phase.Comparing?) ==>
      s.processes[p].phase.seen <= |s.passes|
  }

  /** Every entry a process is about to write back is backed, and its own pass is of its workspace. */
  ghost predicate CopiesOk(s: System) {
    forall p :: 0 <= p < |s.processes| && s.processes[p].phase.Writing? ==> CopyOk(s.processes[p], s.passes)
  }

  ghost predicate CopyOk(q: Process, passes: seq<Pass>)
    requires q.phase.Writing?
  {
    q.phase.pass.workspace == q.workspace && forall e :: e in q.phase.copy ==> Backed(e, passes)
  }

  ghost predicate Inv(s: System) {
    && LogsOk(s.logs) && ProcessesOk(s) && PassesOk(s) && ReadersOk(s) && SeenOk(s) && CopiesOk(s)
    && (forall e :: e in s.ledger ==> Backed(e, s.passes))
  }

  ghost predicate Grows(s: System, t: System) {
    LogsGrow(s.logs, t.logs) && s.passes <= t.passes
  }

  ghost predicate LogsGrow(a: Logs, b: Logs) {
    forall w :: Log(a, w) <= Log(b, w)
  }

  lemma AppendedLogs(logs: Logs, w: WorkspaceId, more: seq<EventId>)
    requires LogsOk(logs) && NewIds(Log(logs, w), more)
    ensures var after := logs[w := Log(logs, w) + more]; LogsOk(after) && LogsGrow(logs, after)
  {
    var after := logs[w := Log(logs, w) + more];
    NewIdsKeepDistinct(Log(logs, w), more);
    forall v ensures Log(logs, v) <= Log(after, v) && NoDuplicates(Log(after, v)) && Representable(Log(after, v)) {
      if v == w {
        assert Log(after, v) == Log(logs, w) + more;
      } else {
        assert Log(after, v) == Log(logs, v);
      }
    }
  }

  /** Whatever was known of a shorter history still holds of a longer one. */
  lemma GrowthKeeps(s: System, logs: Logs)
    requires Inv(s) && LogsOk(logs) && LogsGrow(s.logs, logs)
    ensures Inv(s.(logs := logs))
  {
    var t := s.(logs := logs);
    forall p | 0 <= p < |t.processes| ensures PhaseOk(t.processes[p].phase, Log(logs, t.processes[p].workspace)) {
      assert PhaseOk(s.processes[p].phase, Log(s.logs, s.processes[p].workspace));
    }
    forall k | 0 <= k < |t.passes| ensures PassOk(t.passes[k], Log(logs, t.passes[k].workspace)) {
      assert PassOk(s.passes[k], Log(s.logs, s.passes[k].workspace));
    }
  }

  lemma AppendKeeps(s: System, w: WorkspaceId, more: seq<EventId>)
    requires Inv(s) && NewIds(Log(s.logs, w), more)
    ensures Inv(Appended(s, w, more)) && Grows(s, Appended(s, w, more))
  {
    AppendedLogs(s.logs, w, more);
    GrowthKeeps(s, Appended(s, w, more).logs);
  }

  lemma NewIdsKeepDistinct(log: seq<EventId>, more: seq<EventId>)
    requires NoDuplicates(log) && Representable(log) && NewIds(log, more)
    ensures NoDuplicates(log + more) && Representable(log + more)
  {
    forall i, j | 0 <= i < j < |more|
      ensures more[i] != more[j]
    {
      assert more[j] == more[i + 1..][j - i - 1];
    }
  }

  /** Changing the phase of one process keeps the invariant when the new phase is sound. */
  lemma PutKeeps(s: System, p: nat, phase: Phase)
    requires Inv(s) && At(s, p) && PhaseOk(phase, Log(s.logs, s.processes[p].workspace))
    requires !phase.StartIds? && !phase.Comparing? && !phase.Writing?
    ensures Inv(Put(s, p, phase)) && Grows(s, Put(s, p, phase))
  {
  }

  lemma ReadStartKeeps(s: System, p: nat)
    requires Inv(s) && Enabled(s, ReadStartIds(p))
    ensures Inv(Perform(s, ReadStartIds(p))) && Grows(s, Perform(s, ReadStartIds(p)))
  {
    var t := Perform(s, ReadStartIds(p));
    forall k | 0 <= k < |s.passes|
      ensures ReaderOk(t.processes[p], t.passes[k], k)
    {
      assert PassOk(s.passes[k], Log(s.logs, s.passes[k].workspace));
    }
  }

  lemma CheckpointableIsComplete(q: Process, log: seq<EventId>)
    requires q.phase.Deciding? && Checkpointable(q.phase) && PhaseOk(q.phase, log)
    ensures PassOk(PassOf(q), log)
  {
    var x := PassOf(q);
    ExpectedEndExtends(x.start.ids, x.end.ids, x.generated);
    CodesInjective(x.start.secrets, x.end.secrets);
    forall i | |x.start.ids| <= i < |x.end.ids|
      ensures x.end.ids[i] in x.own
    {
      var tail := x.end.ids[|x.start.ids|..];
      assert tail[i - |x.start.ids|] in multiset(tail);
      assert x.end.ids[i] in x.generated;
    }
  }

  lemma StaysBacked(e: Entry, passes: seq<Pass>, x: Pass)
    requires Backed(e, passes)
    ensures Backed(e, passes + [x])
  {
    var k :| 0 <= k < |passes| && e == EntryOf(passes[k].workspace, passes[k].device, passes[k].end);
    assert (passes + [x])[k] == passes[k];
  }

  lemma ReadSecretsKeeps(s: System, p: nat)
    requires Inv(s) && Enabled(s, ReadStartSecrets(p))
    ensures Inv(Perform(s, ReadStartSecrets(p))) && Grows(s, Perform(s, ReadStartSecrets(p)))
  {
    var t := Perform(s, ReadStartSecrets(p));
    assert PhaseOk(s.processes[p].phase, Log(s.logs, s.processes[p].workspace));
    forall k | 0 <= k < |s.passes|
      ensures ReaderOk(t.processes[p], t.passes[k], k)
    {
      assert ReaderOk(s.processes[p], s.passes[k], k);
    }
  }

  lemma ReadLedgerKeeps(s: System, p: nat)
    requires Inv(s) && Enabled(s, ReadLedger(p)) && Checkpointable(s.processes[p].phase)
    ensures Inv(Perform(s, ReadLedger(p))) && Grows(s, Perform(s, ReadLedger(p)))
  {
    var q := s.processes[p];
    assert PhaseOk(q.phase, Log(s.logs, q.workspace));
    CheckpointableIsComplete(q, Log(s.logs, q.workspace));
    var t := Perform(s, ReadLedger(p));
    assert t.processes[p].phase == Writing(PassOf(q), s.ledger);
  }

  /** One more pass: what was known before still is. */
  lemma PassRecorded(s: System, x: Pass)
    requires Inv(s) && PassOk(x, Log(s.logs, x.workspace))
    ensures Inv(s.(passes := s.passes + [x]))
  {
    var t := s.(passes := s.passes + [x]);
    forall e | e in s.ledger ensures Backed(e, t.passes) {
      StaysBacked(e, s.passes, x);
    }
    forall i, k | 0 <= i < |t.processes| && 0 <= k < |t.passes|
      ensures ReaderOk(t.processes[i], t.passes[k], k)
    {
      assert k < |s.passes| ==> ReaderOk(s.processes[i], s.passes[k], k);
    }
    forall i | 0 <= i < |t.processes| && t.processes[i].phase.Writing? ensures CopyOk(t.processes[i], t.passes) {
      CopyStays(s.processes[i], s.passes, x);
    }
  }

  lemma CopyStays(q: Process, passes: seq<Pass>, x: Pass)
    requires q.phase.Writing? && CopyOk(q, passes)
    ensures CopyOk(q, passes + [x])
  {
    forall e | e in q.phase.copy ensures Backed(e, passes + [x]) {
      StaysBacked(e, passes, x);
    }
  }

  lemma LedgerReplaced(s: System, ledger: seq<Entry>)
    requires Inv(s) && forall e :: e in ledger ==> Backed(e, s.passes)
    ensures Inv(s.(ledger := ledger))
  {
  }

  lemma WriteLedgerKeeps(s: System, p: nat)
    requires Inv(s) && Enabled(s, WriteLedger(p, true))
    ensures Inv(Perform(s, WriteLedger(p, true))) && Grows(s, Perform(s, WriteLedger(p, true)))
  {
    var q := s.processes[p];
    var x := q.phase.pass;
    assert PhaseOk(q.phase, Log(s.logs, q.workspace)) && CopyOk(q, s.passes);
    PassRecorded(s, x);
    var t := s.(passes := s.passes + [x]);
    assert CopyOk(t.processes[p], t.passes);
    var e := EntryOf(x.workspace, x.device, x.end);
    assert t.passes[|s.passes|] == x;
    assert Backed(e, t.passes);
    LedgerReplaced(t, Recorded(q.phase.copy, e));
    PutKeeps(t.(ledger := Recorded(q.phase.copy, e)), p, Done(Worked(true)));
  }

  lemma WorkKeeps(s: System, p: nat, more: seq<EventId>)
    requires Inv(s) && Enabled(s, Work(p, more))
    ensures Inv(Perform(s, Work(p, more))) && Grows(s, Perform(s, Work(p, more)))
  {
    var q := s.processes[p];
    AppendKeeps(s, q.workspace, more);
    PutKeeps(Appended(s, q.workspace, more), p, Working(q.phase.begun, q.phase.own + Distinct(more)));
  }

  lemma SpawnKeeps(s: System, a: Action)
    requires Inv(s) && a.Spawn?
    ensures Inv(Perform(s, a)) && Grows(s, Perform(s, a))
  {
    var t := Perform(s, a);
    assert forall i :: 0 <= i < |t.processes| ==> t.processes[i] in s.processes || t.processes[i].phase.Fresh?;
  }

  /** The steps that only move one process forward. */
  lemma PhaseStepKeeps(s: System, a: Action)
    requires Inv(s) && Enabled(s, a)
    requires a.StartUnreadable? || a.CompareLedger? || a.FinishPass? || a.FailPass? || a.ReadEndIds?
             || a.EndUnreadable? || a.ReadEndSecrets?
    ensures Inv(Perform(s, a)) && Grows(s, Perform(s, a))
  {
    var t := Perform(s, a);
    var q := s.processes[a.p];
    assert PhaseOk(q.phase, Log(s.logs, q.workspace));
    PutKeeps(s, a.p, t.processes[a.p].phase);
  }

  lemma StepKeeps(s: System, a: Action)
    requires Inv(s) && Enabled(s, a)
    ensures Inv(Perform(s, a)) && Grows(s, Perform(s, a))
  {
    match a
    case Append(w, more) => AppendKeeps(s, w, more);
    case ReadStartIds(p) => ReadStartKeeps(s, p);
    case Work(p, more) => WorkKeeps(s, p, more);
    case ReadStartSecrets(p) => ReadSecretsKeeps(s, p);
    case ReadLedger(p) =>
      if Checkpointable(s.processes[p].phase) {
        ReadLedgerKeeps(s, p);
      } else {
        PutKeeps(s, p, Done(Worked(false)));
      }
    case WriteLedger(p, written) =>
      if written {
        WriteLedgerKeeps(s, p);
      } else {
        PutKeeps(s, p, Done(Worked(false)));
      }
    case Spawn(_, _) => SpawnKeeps(s, a);
    case ChangeSecrets(_, _) =>
    case LoseLedger(_) =>
    case _ => PhaseStepKeeps(s, a);
  }

  // ---------- whole runs ----------

  const Initial := System(map[], map[], [], [], [])

  ghost predicate IsRun(run: seq<Action>, s: System) {
    run == [] || (Enabled(s, run[0]) && IsRun(run[1..], Perform(s, run[0])))
  }

  ghost function After(run: seq<Action>, s: System): System
    requires IsRun(run, s)
  {
    if run == [] then s else After(run[1..], Perform(s, run[0]))
  }

  lemma {:induction false} RunKeeps(run: seq<Action>, s: System)
    requires Inv(s) && IsRun(run, s)
    ensures Inv(After(run, s))
  {
    if run != [] {
      StepKeeps(s, run[0]);
      RunKeeps(run[1..], Perform(s, run[0]));
    }
  }

  /** The pass that justifies a skip by process `q` with snapshot `now`. */
  ghost predicate Justifies(x: Pass, q: Process, now: Snapshot) {
    && x.workspace == q.workspace && x.device == q.device
    && x.end == now
    && Complete(x)
  }

  lemma SameEntrySameSnapshot(w: WorkspaceId, d: DeviceId, x: Snapshot, y: Snapshot)
    requires Representable(x.ids) && Representable(y.ids)
    requires EntryOf(w, d, x) == EntryOf(w, d, y)
    ensures x == y
  {
    SequenceFingerprintIdentifies(x.ids, y.ids);
    CodesInjective(x.secrets, y.secrets);
  }

  /** Skipping is sound in every interleaving: some earlier pass of this device ended in exactly
      the (history, secrets) that this call read, with its secrets unchanged and only its own
      reported events added. If that pass was recorded before this call began, the history was
      still the same one when the pass read its secrets: it ended in that very state, and nothing
      was appended until this call looked. */
  lemma SkipIsJustified(run: seq<Action>, p: nat) returns (k: nat)
    requires IsRun(run, Initial)
    requires var s := After(run, Initial);
             && Enabled(s, CompareLedger(p))
             && Perform(s, CompareLedger(p)).processes[p].phase == Done(Skipped)
    ensures var s := After(run, Initial); var q := s.processes[p];
            && k < |s.passes|
            && Justifies(s.passes[k], q, q.phase.now)
            && (k < q.phase.seen ==> s.passes[k].atEnd == q.phase.now.ids)
  {
    RunKeeps(run, Initial);
    var s := After(run, Initial);
    var q := s.processes[p];
    var now := q.phase.now;
    assert PhaseOk(q.phase, Log(s.logs, q.workspace));
    assert Matches(s.ledger, q.workspace, q.device, now);
    k := BackingPass(EntryOf(q.workspace, q.device, now), s.passes);
    assert PassOk(s.passes[k], Log(s.logs, q.workspace));
    PrefixIsRepresentable(Log(s.logs, q.workspace), now.ids);
    PrefixIsRepresentable(Log(s.logs, q.workspace), s.passes[k].end.ids);
    SameEntrySameSnapshot(q.workspace, q.device, now, s.passes[k].end);
    assert ReaderOk(q, s.passes[k], k);
  }

  lemma BackingPass(e: Entry, passes: seq<Pass>) returns (k: nat)
    requires Backed(e, passes)
    ensures k < |passes| && e == EntryOf(passes[k].workspace, passes[k].device, passes[k].end)
  {
    k :| 0 <= k < |passes| && e == EntryOf(passes[k].workspace, passes[k].device, passes[k].end);
  }

  lemma PrefixIsRepresentable(log: seq<EventId>, ids: seq<EventId>)
    requires Representable(log) && ids <= log
    ensures Representable(ids)
  {
  }

  // ---------- passes that are recorded, calls that skip ----------

  /** A finished pass is worth a checkpoint exactly when the secrets are the same at both ends and the
      history ends as the starting one followed by the reported events. */
  lemma CheckpointsExactly(ph: Phase)
    requires ph.Deciding?
    ensures Checkpointable(ph) <==> ph.start.secrets == ph.end.secrets && Extends(ph.start.ids, ph.end.ids, ph.generated)
  {
    if Checkpointable(ph) {
      CodesInjective(ph.start.secrets, ph.end.secrets);
      ExpectedEndExtends(ph.start.ids, ph.end.ids, ph.generated);
    }
    if Extends(ph.start.ids, ph.end.ids, ph.generated) {
      ExtendsExpectedEnd(ph.start.ids, ph.end.ids, ph.generated);
    }
  }

  lemma RunCons(a: Action, rest: seq<Action>, s: System, t: System)
    requires Enabled(s, a) && Perform(s, a) == t && IsRun(rest, t)
    ensures IsRun([a] + rest, s) && After([a] + rest, s) == After(rest, t)
  {
    assert ([a] + rest)[1..] == rest;
  }

  lemma {:induction false} RunConcat(a: seq<Action>, b: seq<Action>, s: System)
    requires IsRun(a, s) && IsRun(b, After(a, s))
    ensures IsRun(a + b, s) && After(a + b, s) == After(b, After(a, s))
    decreases |a|
  {
    if a == [] {
      assert a + b == b;
    } else {
      RunConcat(a[1..], b, Perform(s, a[0]));
      RunCons(a[0], a[1..] + b, s, Perform(s, a[0]));
      assert [a[0]] + (a[1..] + b) == a + b;
    }
  }

  /** The history and secrets of the workspace as they are now. */
  function Now(s: System, w: WorkspaceId): Snapshot {
    Snapshot(Log(s.logs, w), SecretsOf(s, w))
  }

  /** A new call stands in this phase, and nothing else changed. */
  function With(s: System, w: WorkspaceId, d: DeviceId, phase: Phase): System {
    s.(processes := s.processes + [Process(w, d, phase)])
  }

  lemma PutWith(s: System, w: WorkspaceId, d: DeviceId, phase: Phase, next: Phase)
    ensures Put(With(s, w, d, phase), |s.processes|, next) == With(s, w, d, next)
  {
  }

  function Reading(s: System, w: WorkspaceId, d: DeviceId): seq<Action> {
    [Spawn(w, d)] + ([ReadStartIds(|s.processes|)] + ([ReadStartSecrets(|s.processes|)] + ([CompareLedger(|s.processes|)] + [])))
  }

  /** A call that nobody disturbs skips exactly when the ledger holds the state as it is now. */
  lemma UndisturbedCall(s: System, w: WorkspaceId, d: DeviceId)
    ensures IsRun(Reading(s, w, d), s)
    ensures After(Reading(s, w, d), s) ==
            With(s, w, d, if Matches(s.ledger, w, d, Now(s, w)) then Done(Skipped) else Working(Some(Now(s, w)), {}))
  {
    var p := |s.processes|;
    var now := Now(s, w);
    var s1, s2, s3 := With(s, w, d, Fresh), With(s, w, d, StartIds(now.ids, |s.passes|)), With(s, w, d, Comparing(now, |s.passes|));
    var s4 := With(s, w, d, if Matches(s.ledger, w, d, now) then Done(Skipped) else Working(Some(now), {}));
    PutWith(s, w, d, s1.processes[p].phase, s2.processes[p].phase);
    PutWith(s, w, d, s2.processes[p].phase, s3.processes[p].phase);
    PutWith(s, w, d, s3.processes[p].phase, s4.processes[p].phase);
    RunCons(CompareLedger(p), [], s3, s4);
    RunCons(ReadStartSecrets(p), [CompareLedger(p)] + [], s2, s3);
    RunCons(ReadStartIds(p), [ReadStartSecrets(p)] + ([CompareLedger(p)] + []), s1, s2);
    RunCons(Spawn(w, d), [ReadStartIds(p)] + ([ReadStartSecrets(p)] + ([CompareLedger(p)] + [])), s, s1);
  }

  lemma NewIdsExtend(log: seq<EventId>, generated: seq<EventId>)
    requires NoDuplicates(log) && Representable(log) && NewIds(log, generated)
    ensures Extends(log, log + generated, generated)
  {
    NewIdsKeepDistinct(log, generated);
    assert (log + generated)[|log|..] == generated;
  }

  /** What the pass leaves: its events, its entry in the ledger. */
  function Finished(s: System, w: WorkspaceId, d: DeviceId, generated: seq<EventId>): System {
    var t := Appended(s, w, generated);
    With(t.(ledger := Recorded(s.ledger, EntryOf(w, d, Now(t, w))),
            passes := s.passes + [Pass(w, d, Now(s, w), Distinct(generated), generated, Now(t, w), Log(t.logs, w))]),
         w, d, Done(Worked(true)))
  }

  lemma PassIsCheckpointable(s: System, w: WorkspaceId, generated: seq<EventId>)
    requires LogsOk(s.logs) && NewIds(Log(s.logs, w), generated)
    ensures var t := Appended(s, w, generated);
            && Now(t, w).secrets == Now(s, w).secrets && Now(t, w).ids == Now(s, w).ids + generated
            && Checkpointable(Deciding(Now(s, w), Distinct(generated), generated, Now(t, w), Log(t.logs, w)))
  {
    var t := Appended(s, w, generated);
    NewIdsExtend(Log(s.logs, w), generated);
    CheckpointsExactly(Deciding(Now(s, w), Distinct(generated), generated, Now(t, w), Log(t.logs, w)));
  }

  lemma WorkStep(s: System, w: WorkspaceId, d: DeviceId, generated: seq<EventId>)
    requires NewIds(Log(s.logs, w), generated)
    ensures var before := With(s, w, d, Working(Some(Now(s, w)), {}));
            && Enabled(before, Work(|s.processes|, generated))
            && Perform(before, Work(|s.processes|, generated))
               == With(Appended(s, w, generated), w, d, Working(Some(Now(s, w)), Distinct(generated)))
  {
    var begun := Some(Now(s, w));
    assert {} + Distinct(generated) == Distinct(generated);
    PutWith(Appended(s, w, generated), w, d, Working(begun, {}), Working(begun, Distinct(generated)));
    assert Appended(With(s, w, d, Working(begun, {})), w, generated) == With(Appended(s, w, generated), w, d, Working(begun, {}));
  }

  lemma EndSteps(t: System, w: WorkspaceId, d: DeviceId, start: Snapshot, generated: seq<EventId>) returns (u: System)
    ensures var p := |t.processes|; var own := Distinct(generated);
            var run := [FinishPass(p, generated)] + ([ReadEndIds(p)] + ([ReadEndSecrets(p)] + []));
            && u == With(t, w, d, Deciding(start, own, generated, Now(t, w), Log(t.logs, w)))
            && IsRun(run, With(t, w, d, Working(Some(start), own))) && After(run, With(t, w, d, Working(Some(start), own))) == u
  {
    var p, own, begun := |t.processes|, Distinct(generated), Some(start);
    var t1, t2 := With(t, w, d, Working(begun, own)), With(t, w, d, Ending(begun, own, generated));
    var t3 := With(t, w, d, EndIds(start, own, generated, Log(t.logs, w)));
    u := With(t, w, d, Deciding(start, own, generated, Now(t, w), Log(t.logs, w)));
    PutWith(t, w, d, t1.processes[p].phase, t2.processes[p].phase);
    PutWith(t, w, d, t2.processes[p].phase, t3.processes[p].phase);
    PutWith(t, w, d, t3.processes[p].phase, u.processes[p].phase);
    RunCons(ReadEndSecrets(p), [], t3, u);
    RunCons(ReadEndIds(p), [ReadEndSecrets(p)] + [], t2, t3);
    RunCons(FinishPass(p, generated), [ReadEndIds(p)] + ([ReadEndSecrets(p)] + []), t1, t2);
  }

  lemma RecordSteps(t: System, w: WorkspaceId, d: DeviceId, ph: Phase)
    requires ph.Deciding? && Checkpointable(ph)
    ensures var p := |t.processes|; var x := PassOf(Process(w, d, ph));
            var run := [ReadLedger(p)] + ([WriteLedger(p, true)] + []);
            && IsRun(run, With(t, w, d, ph))
            && After(run, With(t, w, d, ph))
               == With(t.(ledger := Recorded(t.ledger, EntryOf(w, d, ph.end)), passes := t.passes + [x]), w, d, Done(Worked(true)))
  {
    var p, x := |t.processes|, PassOf(Process(w, d, ph));
    var t1, t2 := With(t, w, d, ph), With(t, w, d, Writing(x, t.ledger));
    var end := t.(ledger := Recorded(t.ledger, EntryOf(w, d, ph.end)), passes := t.passes + [x]);
    PutWith(t, w, d, ph, Writing(x, t.ledger));
    PutWith(end, w, d, Writing(x, t.ledger), Done(Worked(true)));
    RunCons(WriteLedger(p, true), [], t2, With(end, w, d, Done(Worked(true))));
    RunCons(ReadLedger(p), [WriteLedger(p, true)] + [], t1, t2);
  }

  /** An error-free pass that nobody disturbs and that finds the ledger writable is recorded. */
  lemma UndisturbedPassIsRecorded(s: System, w: WorkspaceId, d: DeviceId, generated: seq<EventId>) returns (run: seq<Action>)
    requires LogsOk(s.logs) && NewIds(Log(s.logs, w), generated) && !Matches(s.ledger, w, d, Now(s, w))
    ensures IsRun(run, s) && After(run, s) == Finished(s, w, d, generated)
  {
    var p, t := |s.processes|, Appended(s, w, generated);
    var own, start := Distinct(generated), Now(s, w);
    UndisturbedCall(s, w, d);
    WorkStep(s, w, d, generated);
    PassIsCheckpointable(s, w, generated);
    var ph := Deciding(start, own, generated, Now(t, w), Log(t.logs, w));
    var decided := EndSteps(t, w, d, start, generated);
    RecordSteps(t, w, d, ph);
    var ending := [FinishPass(p, generated)] + ([ReadEndIds(p)] + ([ReadEndSecrets(p)] + []));
    var recording := [ReadLedger(p)] + ([WriteLedger(p, true)] + []);
    RunConcat(ending, recording, With(t, w, d, Working(Some(start), own)));
    RunCons(Work(p, generated), ending + recording, With(s, w, d, Working(Some(start), {})), With(t, w, d, Working(Some(start), own)));
    RunConcat(Reading(s, w, d), [Work(p, generated)] + (ending + recording), s);
    run := Reading(s, w, d) + ([Work(p, generated)] + (ending + recording));
  }

  /** After such a pass the next undisturbed call of the device is skipped, as long as the events and
      the secrets are the same. */
  lemma NextCallIsSkipped(s: System, w: WorkspaceId, d: DeviceId, generated: seq<EventId>)
    ensures var t := Finished(s, w, d, generated);
            IsRun(Reading(t, w, d), t) && After(Reading(t, w, d), t) == With(t, w, d, Done(Skipped))
  {
    var t := Finished(s, w, d, generated);
    UndisturbedCall(t, w, d);
    assert t.ledger[|t.ledger| - 1] == EntryOf(w, d, Now(t, w));
  }
}
