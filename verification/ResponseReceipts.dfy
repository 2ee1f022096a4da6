/** The responder's stored response to an accepted claim.

    A call reads the receipt file; if there is none it seals a response and renames a new file into
    place. The lock around this is held inside one process, so calls of several processes interleave
    step by step, and each may crash between any two steps. Sealing draws a new key each time.
 */
module ResponseReceipts {
  import opened Events
  import opened InviteClaims

  datatype Response = Response(inviteId: InviteId, requestId: RequestId, device: DeviceId, role: Role,
                               expiresAt: string, sealedKey: string)

  datatype Key = Key(inviteId: InviteId, requestId: RequestId)

  function KeyOf(c: Claim): Key {
    Key(c.inviteId, c.requestId)
  }

  predicate Answers(r: Response, c: Claim, role: Role, expiresAt: string) {
    && r.inviteId == c.inviteId && r.requestId == c.requestId && r.device == c.device
    && r.role == role && r.expiresAt == expiresAt
  }

  datatype Stage =
    | Asked
    | NoneFound
    | Sealed(response: Response)
    | Stored(response: Response)
    | Answered(response: Response)
    | Rejected

  datatype Call = Call(claim: Claim, role: Role, expiresAt: string, stage: Stage)

  datatype Calls = Calls(files: map<Key, Response>, calls: map<nat, Call>)

  datatype Act =
    | Ask(p: nat, claim: Claim, role: Role, expiresAt: string)
    | ReadFile(p: nat)
    | Seal(p: nat, response: Response)
    | WriteFile(p: nat)
    | Return(p: nat)
    | Stop(p: nat)

  /** No file and no other call holds this response. */
  predicate Unseen(s: Calls, r: Response) {
    && (forall k :: k in s.files ==> s.files[k] != r)
    && (forall p :: p in s.calls ==> !Holds(s.calls[p].stage, r))
  }

  predicate Holds(g: Stage, r: Response) {
    (g.Sealed? || g.Stored? || g.Answered?) && g.response == r
  }

  predicate Can(s: Calls, a: Act) {
    match a
    case Ask(p, _, _, _) => p !in s.calls
    case ReadFile(p) => p in s.calls && s.calls[p].stage.Asked?
    case Seal(p, r) => p in s.calls && s.calls[p].stage.NoneFound? && Unseen(s, r)
    case WriteFile(p) => p in s.calls && s.calls[p].stage.Sealed?
    case Return(p) => p in s.calls && s.calls[p].stage.Stored?
    case Stop(p) => p in s.calls
  }

  function Moved(s: Calls, p: nat, stage: Stage): Calls
    requires p in s.calls
  {
    s.(calls := s.calls[p := s.calls[p].(stage := stage)])
  }

  function Do(s: Calls, a: Act): Calls
    requires Can(s, a)
  {
    match a
    case Ask(p, c, role, x) => s.(calls := s.calls[p := Call(c, role, x, Asked)])
    case ReadFile(p) =>
      var q := s.calls[p];
      if KeyOf(q.claim) !in s.files then Moved(s, p, NoneFound)
      else
        var r := s.files[KeyOf(q.claim)];
        Moved(s, p, if Answers(r, q.claim, q.role, q.expiresAt) then Answered(r) else Rejected)
    case Seal(p, r) =>
      var q := s.calls[p];
      Moved(s, p, if Answers(r, q.claim, q.role, q.expiresAt) then Sealed(r) else Rejected)
    case WriteFile(p) =>
      var q := s.calls[p];
      Moved(s.(files := s.files[KeyOf(q.claim) := q.stage.response]), p, Stored(q.stage.response))
    case Return(p) => Moved(s, p, Answered(s.calls[p].stage.response))
    case Stop(p) => s.(calls := s.calls - {p})
  }

  ghost predicate IsRun(s: Calls, run: seq<Act>)
    decreases |run|
  {
    run == [] || (Can(s, run[0]) && IsRun(Do(s, run[0]), run[1..]))
  }

  ghost function After(s: Calls, run: seq<Act>): Calls
    requires IsRun(s, run)
    decreases |run|
  {
    if run == [] then s else After(Do(s, run[0]), run[1..])
  }

  const Nothing := Calls(map[], map[])

  // ---------- exactly when the stored response is one ----------

  /** A write over a file that another call has written since this one looked. */
  predicate Overwrites(s: Calls, a: Act) {
    a.WriteFile? && a.p in s.calls && KeyOf(s.calls[a.p].claim) in s.files
  }

  ghost predicate NeverOverwrites(s: Calls, run: seq<Act>)
    requires IsRun(s, run)
    decreases |run|
  {
    run == [] || (!Overwrites(s, run[0]) && NeverOverwrites(Do(s, run[0]), run[1..]))
  }

  /** Every stored response is still the same. */
  ghost predicate KeepsFiles(s: Calls, t: Calls) {
    forall k :: k in s.files ==> k in t.files && t.files[k] == s.files[k]
  }

  ghost predicate AlwaysKeepsFiles(s: Calls, run: seq<Act>)
    requires IsRun(s, run)
    decreases |run|
  {
    run == [] || (KeepsFiles(s, Do(s, run[0])) && AlwaysKeepsFiles(Do(s, run[0]), run[1..]))
  }

  /** A sealed response that is not written yet is in no file. */
  ghost predicate SealedIsNew(s: Calls) {
    && (forall p, k :: p in s.calls && s.calls[p].stage.Sealed? && k in s.files ==> s.files[k] != s.calls[p].stage.response)
    && (forall p, q :: p in s.calls && q in s.calls && p != q && s.calls[p].stage.Sealed? ==>
          !Holds(s.calls[q].stage, s.calls[p].stage.response))
  }

  lemma StepKeepsNew(s: Calls, a: Act)
    requires SealedIsNew(s) && Can(s, a)
    ensures SealedIsNew(Do(s, a))
  {
  }

  lemma StepKeepsFilesExactly(s: Calls, a: Act)
    requires SealedIsNew(s) && Can(s, a)
    ensures KeepsFiles(s, Do(s, a)) <==> !Overwrites(s, a)
  {
  }

  /** A stored response never changes if and only if no call writes a key that another call wrote
      between this call's read and its write. */
  lemma {:induction false} StoredOnceExactly(s: Calls, run: seq<Act>)
    requires SealedIsNew(s) && IsRun(s, run)
    ensures AlwaysKeepsFiles(s, run) <==> NeverOverwrites(s, run)
    decreases |run|
  {
    if run != [] {
      StepKeepsFilesExactly(s, run[0]);
      StepKeepsNew(s, run[0]);
      StoredOnceExactly(Do(s, run[0]), run[1..]);
    }
  }

  // ---------- what the callers get ----------

  /** Whatever a call stored or returned is what its file holds. */
  ghost predicate AnswersAreStored(s: Calls) {
    forall p :: p in s.calls && (s.calls[p].stage.Stored? || s.calls[p].stage.Answered?) ==>
      && KeyOf(s.calls[p].claim) in s.files && s.files[KeyOf(s.calls[p].claim)] == s.calls[p].stage.response
      && Answers(s.calls[p].stage.response, s.calls[p].claim, s.calls[p].role, s.calls[p].expiresAt)
  }

  ghost predicate SealedAnswers(s: Calls) {
    forall p :: p in s.calls && s.calls[p].stage.Sealed? ==>
      Answers(s.calls[p].stage.response, s.calls[p].claim, s.calls[p].role, s.calls[p].expiresAt)
  }

  lemma StepKeepsAnswers(s: Calls, a: Act)
    requires AnswersAreStored(s) && SealedAnswers(s) && Can(s, a) && !Overwrites(s, a)
    ensures AnswersAreStored(Do(s, a)) && SealedAnswers(Do(s, a))
  {
  }

  lemma {:induction false} RunKeepsAnswers(s: Calls, run: seq<Act>)
    requires AnswersAreStored(s) && SealedAnswers(s) && IsRun(s, run) && NeverOverwrites(s, run)
    ensures AnswersAreStored(After(s, run))
    decreases |run|
  {
    if run != [] {
      StepKeepsAnswers(s, run[0]);
      RunKeepsAnswers(Do(s, run[0]), run[1..]);
    }
  }

  /** Without such a write, in every interleaving and with crashes anywhere, all calls of one claim
      get the identical response, and it is the stored one. */
  lemma RetriesAgree(run: seq<Act>, p: nat, q: nat)
    requires IsRun(Nothing, run) && NeverOverwrites(Nothing, run)
    requires var s := After(Nothing, run);
             && p in s.calls && q in s.calls && s.calls[p].stage.Answered? && s.calls[q].stage.Answered?
             && KeyOf(s.calls[p].claim) == KeyOf(s.calls[q].claim)
    ensures var s := After(Nothing, run);
            && KeyOf(s.calls[p].claim) in s.files
            && s.calls[p].stage.response == s.calls[q].stage.response == s.files[KeyOf(s.calls[p].claim)]
            && Answers(s.calls[p].stage.response, s.calls[p].claim, s.calls[p].role, s.calls[p].expiresAt)
  {
    RunKeepsAnswers(Nothing, run);
  }

  /** Every file and every answer names the invite and the request it was asked for, and every answer
      the device, the role and the expiry. */
  ghost predicate Fits(s: Calls) {
    && (forall k :: k in s.files ==> s.files[k].inviteId == k.inviteId && s.files[k].requestId == k.requestId)
    && (forall p :: p in s.calls && (s.calls[p].stage.Sealed? || s.calls[p].stage.Stored? || s.calls[p].stage.Answered?) ==>
          ResponseFits(s.calls[p].stage.response, s.calls[p]))
  }

  ghost predicate ResponseFits(r: Response, q: Call) {
    r == Response(q.claim.inviteId, q.claim.requestId, q.claim.device, q.role, q.expiresAt, r.sealedKey)
  }

  lemma StepKeepsFit(s: Calls, a: Act)
    requires Fits(s) && Can(s, a)
    ensures Fits(Do(s, a))
  {
  }

  lemma {:induction false} RunKeepsFit(s: Calls, run: seq<Act>)
    requires Fits(s) && IsRun(s, run)
    ensures Fits(After(s, run))
    decreases |run|
  {
    if run != [] {
      StepKeepsFit(s, run[0]);
      RunKeepsFit(Do(s, run[0]), run[1..]);
    }
  }

  /** In every interleaving, with crashes and overlapping writes anywhere, no call answers with a
      response for another invite, request, device, role or expiry, and no file holds one for another
      invite or request. */
  lemma EveryAnswerFits(run: seq<Act>)
    requires IsRun(Nothing, run)
    ensures Fits(After(Nothing, run))
  {
    RunKeepsFit(Nothing, run);
  }

  /** With such a write, the call and the one it overtook return different responses. */
  lemma OverwriteSplitsAnswers(s: Calls, p: nat, q: nat)
    requires SealedIsNew(s) && Can(s, WriteFile(p)) && Overwrites(s, WriteFile(p)) && p != q && q in s.calls
    requires Holds(s.calls[q].stage, s.files[KeyOf(s.calls[p].claim)]) && !s.calls[q].stage.Sealed?
    ensures var t := Do(s, WriteFile(p));
            && Can(t, Return(p)) && Do(t, Return(p)).calls[p].stage.Answered?
            && Do(t, Return(p)).calls[q].stage.response != Do(t, Return(p)).calls[p].stage.response
            && t.files[KeyOf(s.calls[p].claim)] != s.files[KeyOf(s.calls[p].claim)]
  {
  }

  lemma RunCons(s: Calls, a: Act, rest: seq<Act>)
    requires Can(s, a) && IsRun(Do(s, a), rest)
    ensures IsRun(s, [a] + rest) && After(s, [a] + rest) == After(Do(s, a), rest)
  {
    assert ([a] + rest)[1..] == rest;
  }

  function Both(c: Claim, role: Role, x: string, a: Stage, b: Stage): map<nat, Call> {
    map[0 := Call(c, role, x, a), 1 := Call(c, role, x, b)]
  }

  /** Two processes ask together, both find nothing, and each returns its own response; the file
      keeps the second. */
  lemma OverlappingCallsDisagree(c: Claim, role: Role, x: string, r: Response, r': Response) returns (run: seq<Act>)
    requires r == Response(c.inviteId, c.requestId, c.device, role, x, r.sealedKey)
    requires r' == Response(c.inviteId, c.requestId, c.device, role, x, r'.sealedKey) && r != r'
    ensures IsRun(Nothing, run)
    ensures var s := After(Nothing, run);
            && s.calls == Both(c, role, x, Answered(r), Answered(r'))
            && s.files == map[KeyOf(c) := r']
  {
    var rest := SealAndWrite(c, role, x, r, r');
    var s1 := Calls(map[], map[0 := Call(c, role, x, Asked)]);
    var s2 := Calls(map[], Both(c, role, x, Asked, Asked));
    var s3 := Calls(map[], Both(c, role, x, NoneFound, Asked));
    var s4 := Calls(map[], Both(c, role, x, NoneFound, NoneFound));
    assert Do(Nothing, Ask(0, c, role, x)) == s1 && Do(s1, Ask(1, c, role, x)) == s2;
    assert Do(s2, ReadFile(0)) == s3 && Do(s3, ReadFile(1)) == s4;
    RunCons(s3, ReadFile(1), rest);
    RunCons(s2, ReadFile(0), [ReadFile(1)] + rest);
    RunCons(s1, Ask(1, c, role, x), [ReadFile(0)] + ([ReadFile(1)] + rest));
    RunCons(Nothing, Ask(0, c, role, x), [Ask(1, c, role, x)] + ([ReadFile(0)] + ([ReadFile(1)] + rest)));
    run := [Ask(0, c, role, x)] + ([Ask(1, c, role, x)] + ([ReadFile(0)] + ([ReadFile(1)] + rest)));
  }

  lemma SealAndWrite(c: Claim, role: Role, x: string, r: Response, r': Response) returns (run: seq<Act>)
    requires Answers(r, c, role, x) && Answers(r', c, role, x) && r != r'
    ensures var s := Calls(map[], Both(c, role, x, NoneFound, NoneFound));
            && IsRun(s, run)
            && After(s, run) == Calls(map[KeyOf(c) := r'], Both(c, role, x, Answered(r), Answered(r')))
  {
    var rest := WriteAndReturn(c, role, x, r, r');
    var s4 := Calls(map[], Both(c, role, x, NoneFound, NoneFound));
    var s5 := Calls(map[], Both(c, role, x, Sealed(r), NoneFound));
    var s6 := Calls(map[], Both(c, role, x, Sealed(r), Sealed(r')));
    assert Do(s4, Seal(0, r)) == s5;
    assert Do(s5, Seal(1, r')) == s6;
    RunCons(s5, Seal(1, r'), rest);
    RunCons(s4, Seal(0, r), [Seal(1, r')] + rest);
    run := [Seal(0, r)] + ([Seal(1, r')] + rest);
  }

  lemma WriteAndReturn(c: Claim, role: Role, x: string, r: Response, r': Response) returns (run: seq<Act>)
    requires r != r'
    ensures var s := Calls(map[], Both(c, role, x, Sealed(r), Sealed(r')));
            && IsRun(s, run)
            && After(s, run) == Calls(map[KeyOf(c) := r'], Both(c, role, x, Answered(r), Answered(r')))
  {
    var k := KeyOf(c);
    var s0 := Calls(map[], Both(c, role, x, Sealed(r), Sealed(r')));
    var s1 := Calls(map[k := r], Both(c, role, x, Stored(r), Sealed(r')));
    var s2 := Calls(map[k := r], Both(c, role, x, Answered(r), Sealed(r')));
    var s3 := Calls(map[k := r'], Both(c, role, x, Answered(r), Stored(r')));
    assert Do(s0, WriteFile(0)) == s1 && Do(s1, Return(0)) == s2 && Do(s2, WriteFile(1)) == s3;
    RunCons(s3, Return(1), []);
    RunCons(s2, WriteFile(1), [Return(1)] + []);
    RunCons(s1, Return(0), [WriteFile(1)] + ([Return(1)] + []));
    RunCons(s0, WriteFile(0), [Return(0)] + ([WriteFile(1)] + ([Return(1)] + [])));
    run := [WriteFile(0)] + ([Return(0)] + ([WriteFile(1)] + ([Return(1)] + [])));
  }

  // ---------- one process ----------

  /** Inside one process a lock makes each call one step: the first response stored for an (invite,
      request) is the one every retry returns, though sealing again would give different bytes. */
  class ReceiptFiles {
    var stored: map<(InviteId, RequestId), Response>

    constructor ()
      ensures stored == map[]
    {
      stored := map[];
    }

    method ReceiptOrStore(c: Claim, role: Role, expiresAt: string, candidate: Option<Response>, resealed: Option<Response>)
      returns (r: Option<Response>)
      modifies this
      ensures var key := (c.inviteId, c.requestId);
              if key in old(stored)
              then stored == old(stored)
                   && r == if Answers(old(stored)[key], c, role, expiresAt) then Some(old(stored)[key]) else None
              else var chosen := if candidate.Some? then candidate else resealed;
                   if chosen.Some? && Answers(chosen.value, c, role, expiresAt)
                   then r == chosen && stored == old(stored)[key := chosen.value]
                   else r == None && stored == old(stored)
    {
      var key := (c.inviteId, c.requestId);
      if key in stored {
        return if Answers(stored[key], c, role, expiresAt) then Some(stored[key]) else None;
      }
      var chosen := candidate;
      if chosen.None? {
        chosen := resealed;
      }
      if chosen.None? || !Answers(chosen.value, c, role, expiresAt) {
        return None;
      }
      stored := stored[key := chosen.value];
      return chosen;
    }

    /** A retry after any successful answer gets the identical response and writes nothing. */
    method RetryIsIdentical(c: Claim, role: Role, expiresAt: string, first: Option<Response>, second: Option<Response>, again: Option<Response>)
      returns (r1: Option<Response>, r2: Option<Response>)
      modifies this
      ensures r1.Some? ==> r2 == r1 && Answers(r1.value, c, role, expiresAt)
    {
      r1 := ReceiptOrStore(c, role, expiresAt, first, again);
      r2 := ReceiptOrStore(c, role, expiresAt, None, second);
    }
  }
}
