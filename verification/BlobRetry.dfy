/** The blob transfer ledger and the run that retries unfinished uploads.

    Attempt ids hold a clock reading and are cut to a maximal length, so two attempts may share one;
    every id is therefore arbitrary here.
 */
module BlobRetry {
  import opened Events

  type WorkspaceId = string
  type Hash = string
  type Endpoint = string

  const MaxEntries: nat := 512

  datatype Status = InProgress | Failed | Succeeded

  datatype Peer = Peer(id: string, endpoint: Endpoint)

  datatype Attempt = Attempt(id: string, workspace: WorkspaceId, peer: Peer, hash: Hash, status: Status, count: nat)

  // ---------- choosing peers ----------

  predicate Concerns(a: Attempt, endpoint: Endpoint, w: WorkspaceId, hash: Hash) {
    a.workspace == w && a.peer.endpoint == endpoint && a.hash == hash
  }

  /** 0: a transfer of this blob to this endpoint succeeded; 2: some were tried, none did; 1: none. */
  ghost function Rank(endpoint: Endpoint, attempts: seq<Attempt>, w: WorkspaceId, hash: Hash): nat {
    if exists a :: a in attempts && a.workspace == w && a.peer.endpoint == endpoint && a.hash == hash && a.status == Succeeded then 0
    else if exists a :: a in attempts && a.workspace == w && a.peer.endpoint == endpoint && a.hash == hash then 2
    else 1
  }

  method RetryRank(peer: Peer, attempts: seq<Attempt>, w: WorkspaceId, hash: Hash) returns (rank: nat)
    ensures rank == Rank(peer.endpoint, attempts, w, hash)
  {
    rank := 1;
    var i := 0;
    while i < |attempts|
      invariant 0 <= i <= |attempts|
      invariant rank == 1 || rank == 2
      invariant forall j :: 0 <= j < i && Concerns(attempts[j], peer.endpoint, w, hash) ==> attempts[j].status != Succeeded
      invariant rank == 2 <==> exists j :: 0 <= j < i && Concerns(attempts[j], peer.endpoint, w, hash)
    {
      if Concerns(attempts[i], peer.endpoint, w, hash) {
        if attempts[i].status == Succeeded {
          return 0;
        }
        rank := 2;
      }
      i := i + 1;
    }
  }

  datatype Candidate = Candidate(rank: nat, index: nat)

  predicate Before(a: Candidate, b: Candidate) {
    a.rank < b.rank || (a.rank == b.rank && a.index <= b.index)
  }

  ghost predicate Ordered(s: seq<Candidate>) {
    forall i, j :: 0 <= i < j < |s| ==> s[i].rank < s[j].rank || (s[i].rank == s[j].rank && s[i].index <= s[j].index)
  }

  function Insert(x: Candidate, s: seq<Candidate>): (r: seq<Candidate>)
    ensures multiset(r) == multiset(s) + multiset{x}
  {
    if s == [] || Before(x, s[0]) then [x] + s
    else
      assert s == [s[0]] + s[1..];
      [s[0]] + Insert(x, s[1..])
  }

  function SortByKey(s: seq<Candidate>): (r: seq<Candidate>)
    ensures multiset(r) == multiset(s)
  {
    if s == [] then []
    else
      assert s == [s[0]] + s[1..];
      Insert(s[0], SortByKey(s[1..]))
  }

  lemma OrderedCons(x: Candidate, s: seq<Candidate>)
    requires Ordered(s) && forall i :: 0 <= i < |s| ==> Before(x, s[i])
    ensures Ordered([x] + s)
  {
    var r := [x] + s;
    forall i, j | 0 <= i < j < |r|
      ensures r[i].rank < r[j].rank || (r[i].rank == r[j].rank && r[i].index <= r[j].index)
    {
      assert r[j] == s[j - 1];
      if i > 0 {
        assert r[i] == s[i - 1];
      } else {
        assert Before(x, s[j - 1]);
      }
    }
  }

  lemma FirstIsBefore(x: Candidate, s: seq<Candidate>)
    requires Ordered(s) && (s != [] ==> Before(x, s[0]))
    ensures forall i :: 0 <= i < |s| ==> Before(x, s[i])
  {
  }

  lemma {:induction false} InsertOrders(x: Candidate, s: seq<Candidate>)
    requires Ordered(s)
    ensures Ordered(Insert(x, s))
  {
    if s == [] || Before(x, s[0]) {
      FirstIsBefore(x, s);
      OrderedCons(x, s);
    } else {
      InsertOrders(x, s[1..]);
      FirstIsBefore(s[0], s);
      var rest := Insert(x, s[1..]);
      forall i | 0 <= i < |rest| ensures Before(s[0], rest[i]) {
        assert rest[i] in multiset(rest);
        if rest[i] != x {
          var k :| 0 <= k < |s[1..]| && s[1..][k] == rest[i];
          assert s[k + 1] == rest[i];
        }
      }
      OrderedCons(s[0], rest);
    }
  }

  lemma {:induction false} SortOrders(s: seq<Candidate>)
    ensures Ordered(SortByKey(s))
  {
    if s != [] {
      SortOrders(s[1..]);
      InsertOrders(s[0], SortByKey(s[1..]));
    }
  }

  /** Is `peers[i]` the first with its endpoint? */
  predicate FirstAtEndpoint(peers: seq<Peer>, i: nat) {
    i < |peers| && forall j :: 0 <= j < i ==> peers[j].endpoint != peers[i].endpoint
  }

  /** `plan` lists the first peer of every endpoint once, best rank first and otherwise as given. */
  ghost predicate PlanOf(plan: seq<Candidate>, peers: seq<Peer>, attempts: seq<Attempt>, w: WorkspaceId, hash: Hash) {
    && (forall k :: 0 <= k < |plan| ==>
          FirstAtEndpoint(peers, plan[k].index)
          && plan[k].rank == Rank(peers[plan[k].index].endpoint, attempts, w, hash))
    && (forall i: nat :: FirstAtEndpoint(peers, i) ==> exists k :: 0 <= k < |plan| && plan[k].index == i)
    && (forall j, k :: 0 <= j < k < |plan| ==> plan[j].index != plan[k].index)
    && Ordered(plan)
  }

  method PlannedRetryPeers(peers: seq<Peer>, attempts: seq<Attempt>, w: WorkspaceId, hash: Hash)
    returns (plan: seq<Candidate>)
    ensures PlanOf(plan, peers, attempts, w, hash)
  {
    var ranked: seq<Candidate> := [];
    var seen: set<Endpoint> := {};
    var i := 0;
    while i < |peers|
      invariant 0 <= i <= |peers|
      invariant seen == set j | 0 <= j < i :: peers[j].endpoint
      invariant forall k :: 0 <= k < |ranked| ==>
                  ranked[k].index < i && FirstAtEndpoint(peers, ranked[k].index)
                  && ranked[k].rank == Rank(peers[ranked[k].index].endpoint, attempts, w, hash)
      invariant forall j: nat :: j < i && FirstAtEndpoint(peers, j) ==> exists k :: 0 <= k < |ranked| && ranked[k].index == j
      invariant forall j, k :: 0 <= j < k < |ranked| ==> ranked[j].index < ranked[k].index
    {
      if peers[i].endpoint !in seen {
        seen := seen + {peers[i].endpoint};
        var rank := RetryRank(peers[i], attempts, w, hash);
        ghost var was := ranked;
        ranked := ranked + [Candidate(rank, i)];
        assert ranked[|was|].index == i && forall k :: 0 <= k < |was| ==> ranked[k] == was[k];
      } else {
        assert !FirstAtEndpoint(peers, i);
      }
      i := i + 1;
    }
    plan := SortByKey(ranked);
    SortedPlan(plan, ranked, peers, attempts, w, hash);
  }

  lemma SortedPlan(plan: seq<Candidate>, ranked: seq<Candidate>, peers: seq<Peer>, attempts: seq<Attempt>,
                   w: WorkspaceId, hash: Hash)
    requires plan == SortByKey(ranked)
    requires forall k :: 0 <= k < |ranked| ==>
               FirstAtEndpoint(peers, ranked[k].index)
               && ranked[k].rank == Rank(peers[ranked[k].index].endpoint, attempts, w, hash)
    requires forall j: nat :: FirstAtEndpoint(peers, j) ==> exists k :: 0 <= k < |ranked| && ranked[k].index == j
    requires forall j, k :: 0 <= j < k < |ranked| ==> ranked[j].index < ranked[k].index
    ensures PlanOf(plan, peers, attempts, w, hash)
  {
    SortOrders(ranked);
    forall k | 0 <= k < |plan| ensures plan[k] in ranked {
      assert plan[k] in multiset(plan);
    }
    forall i: nat | FirstAtEndpoint(peers, i)
      ensures exists k :: 0 <= k < |plan| && plan[k].index == i
    {
      var k :| 0 <= k < |ranked| && ranked[k].index == i;
      assert ranked[k] in multiset(ranked);
      assert ranked[k] in plan;
    }
    forall j, k | 0 <= j < k < |plan|
      ensures plan[j].index != plan[k].index
    {
      SortedDiffer(ranked, j, k);
    }
  }

  lemma SortedDiffer(ranked: seq<Candidate>, j: nat, k: nat)
    requires forall j, k :: 0 <= j < k < |ranked| ==> ranked[j].index < ranked[k].index
    requires j < k < |SortByKey(ranked)|
    ensures SortByKey(ranked)[j].index != SortByKey(ranked)[k].index
  {
    var plan := SortByKey(ranked);
    assert plan[j] in multiset(plan) && plan[k] in multiset(plan);
    if plan[j].index == plan[k].index {
      assert plan[j] in ranked && plan[k] in ranked;
      assert plan[j] == plan[k];
      CountsTwice(plan, j, k);
      DistinctIndices(ranked, plan[j]);
    }
  }

  lemma {:induction false} DistinctIndices(s: seq<Candidate>, x: Candidate)
    requires forall j, k :: 0 <= j < k < |s| ==> s[j].index < s[k].index
    ensures multiset(s)[x] <= 1
  {
    if s != [] {
      var last := |s| - 1;
      DistinctIndices(s[..last], x);
      assert s == s[..last] + [s[last]];
      assert x == s[last] ==> x !in s[..last];
    }
  }

  /** The contacted peers are the head of a plan, and all of it unless one turned out to have the blob. */
  ghost predicate FollowsPlan(contacted: seq<Candidate>, held: bool, peers: seq<Peer>, attempts: seq<Attempt>,
                              w: WorkspaceId, hash: Hash) {
    exists plan :: PlanOf(plan, peers, attempts, w, hash) && contacted <= plan && (!held ==> contacted == plan)
  }

  /** No endpoint is planned twice. */
  lemma PlannedEndpointsDiffer(plan: seq<Candidate>, peers: seq<Peer>, attempts: seq<Attempt>, w: WorkspaceId, hash: Hash)
    requires PlanOf(plan, peers, attempts, w, hash)
    ensures forall j, k :: 0 <= j < k < |plan| ==> peers[plan[j].index].endpoint != peers[plan[k].index].endpoint
  {
    forall j, k | 0 <= j < k < |plan|
      ensures peers[plan[j].index].endpoint != peers[plan[k].index].endpoint
    {
      assert FirstAtEndpoint(peers, plan[j].index) && FirstAtEndpoint(peers, plan[k].index);
    }
  }

  // ---------- which chunks to send ----------

  /** Splits a blob's chunks into those the peer has and those to send, each once. */
  method PlannedChunkUpload(chunks: seq<Hash>, available: set<Hash>) returns (planned: seq<Hash>, remote: seq<Hash>)
    ensures forall c :: c in remote <==> c in chunks && c in available
    ensures forall c :: c in planned <==> c in chunks && c !in available
    ensures NoDuplicates(planned) && NoDuplicates(remote)
  {
    planned, remote := [], [];
    var seenPlanned: set<Hash>, seenRemote: set<Hash> := {}, {};
    var i := 0;
    while i < |chunks|
      invariant 0 <= i <= |chunks|
      invariant forall c :: c in remote <==> c in chunks[..i] && c in available
      invariant forall c :: c in planned <==> c in chunks[..i] && c !in available
      invariant seenPlanned == (set c | c in planned) && seenRemote == set c | c in remote
      invariant NoDuplicates(planned) && NoDuplicates(remote)
    {
      var c := chunks[i];
      assert chunks[..i + 1] == chunks[..i] + [c];
      if c in available {
        if c !in seenRemote {
          seenRemote := seenRemote + {c};
          remote := remote + [c];
        }
      } else if c !in seenPlanned {
        seenPlanned := seenPlanned + {c};
        planned := planned + [c];
      }
      i := i + 1;
    }
    assert chunks[..i] == chunks;
  }

  // ---------- the ledger ----------

  function Newest(entries: seq<Attempt>): (r: seq<Attempt>)
    ensures |r| == (if |entries| < MaxEntries then |entries| else MaxEntries)
    ensures r == entries[|entries| - |r|..]
    ensures forall e :: e in r ==> e in entries
  {
    if |entries| > MaxEntries then entries[|entries| - MaxEntries..] else entries
  }

  /** One more entry, and the oldest dropped from a full ledger. */
  function Pushed(entries: seq<Attempt>, a: Attempt): seq<Attempt> {
    if |entries| < MaxEntries then entries + [a] else entries[1..] + [a]
  }

  /** The first attempt with that id replaced, or a new last entry when there is none. */
  function Replaced(entries: seq<Attempt>, done: Attempt): (r: seq<Attempt>)
    ensures forall e :: e in r ==> e == done || e in entries
    ensures done in r
  {
    if entries == [] then [done]
    else if entries[0].id == done.id then [done] + entries[1..]
    else [entries[0]] + Replaced(entries[1..], done)
  }

  /** Position `k` holds the first attempt with that id. */
  ghost predicate FirstWithId(entries: seq<Attempt>, k: nat, id: string) {
    k < |entries| && entries[k].id == id && forall j :: 0 <= j < k ==> entries[j].id != id
  }

  /** The first attempt with the id is replaced in its place and no other; without one, the finished
      attempt comes last. */
  lemma {:induction false} ReplacedAt(entries: seq<Attempt>, done: Attempt)
    ensures forall k: nat :: FirstWithId(entries, k, done.id) ==> Replaced(entries, done) == entries[k := done]
    ensures (forall e :: e in entries ==> e.id != done.id) ==> Replaced(entries, done) == entries + [done]
  {
    if entries != [] {
      ReplacedAt(entries[1..], done);
      assert entries == [entries[0]] + entries[1..];
      forall k: nat | FirstWithId(entries, k, done.id) ensures Replaced(entries, done) == entries[k := done] {
        if k > 0 {
          assert FirstWithId(entries[1..], k - 1, done.id);
        }
      }
    }
  }

  /** A finished attempt is never the entry that the cap drops. */
  lemma {:induction false} FinishedStays(entries: seq<Attempt>, done: Attempt)
    requires |entries| <= MaxEntries
    ensures done in Newest(Replaced(entries, done))
  {
    ReplacedShape(entries, done);
    var r := Replaced(entries, done);
    if |r| > MaxEntries {
      assert Newest(r)[MaxEntries - 1] == r[|r| - 1];
    }
  }

  lemma {:induction false} ReplacedShape(entries: seq<Attempt>, done: Attempt)
    ensures var r := Replaced(entries, done);
            |r| == |entries| || (|r| == |entries| + 1 && r[|r| - 1] == done)
  {
    if entries != [] {
      ReplacedShape(entries[1..], done);
    }
  }

  predicate Unfinished(e: Attempt, w: WorkspaceId, hash: Hash) {
    e.workspace == w && e.hash == hash && e.status != Succeeded
  }

  function Satisfied(entries: seq<Attempt>, w: WorkspaceId, hash: Hash): (r: seq<Attempt>)
    ensures |r| == |entries|
    ensures forall i :: 0 <= i < |r| ==>
              r[i] == if Unfinished(entries[i], w, hash) then entries[i].(status := Succeeded) else entries[i]
  {
    seq(|entries|, i requires 0 <= i < |entries| =>
      if Unfinished(entries[i], w, hash) then entries[i].(status := Succeeded) else entries[i])
  }

  function Tries(entries: seq<Attempt>, w: WorkspaceId, peer: Peer, hash: Hash): nat {
    |Filter(entries, Sending(w, peer, hash))|
  }

  function Sending(w: WorkspaceId, peer: Peer, hash: Hash): Attempt -> bool {
    (e: Attempt) => e.workspace == w && e.peer == peer && e.hash == hash
  }

  /** The positions of the attempts to send this blob to this peer. */
  ghost function Earlier(entries: seq<Attempt>, w: WorkspaceId, peer: Peer, hash: Hash): set<int> {
    set k | 0 <= k < |entries| && entries[k].workspace == w && entries[k].peer == peer && entries[k].hash == hash
  }

  lemma EarlierSnoc(entries: seq<Attempt>, last: Attempt, w: WorkspaceId, peer: Peer, hash: Hash)
    ensures |Earlier(entries + [last], w, peer, hash)| ==
            |Earlier(entries, w, peer, hash)| + if last.workspace == w && last.peer == peer && last.hash == hash then 1 else 0
  {
    var more := if last.workspace == w && last.peer == peer && last.hash == hash then {|entries|} else {};
    assert Earlier(entries + [last], w, peer, hash) == Earlier(entries, w, peer, hash) + more;
  }

  lemma TriesSnoc(entries: seq<Attempt>, last: Attempt, w: WorkspaceId, peer: Peer, hash: Hash)
    ensures Tries(entries + [last], w, peer, hash) ==
            Tries(entries, w, peer, hash) + if last.workspace == w && last.peer == peer && last.hash == hash then 1 else 0
  {
    FilterSnocs(entries, last, Sending(w, peer, hash));
  }

  lemma {:induction false} TriesCount(entries: seq<Attempt>, w: WorkspaceId, peer: Peer, hash: Hash)
    ensures Tries(entries, w, peer, hash) == |Earlier(entries, w, peer, hash)|
  {
    if entries == [] {
      assert Earlier(entries, w, peer, hash) == {};
    } else {
      var before, last := entries[..|entries| - 1], entries[|entries| - 1];
      TriesCount(before, w, peer, hash);
      assert before + [last] == entries;
      TriesSnoc(before, last, w, peer, hash);
      EarlierSnoc(before, last, w, peer, hash);
    }
  }

  datatype Contact = Unreachable | Complete | Incomplete

  datatype Blob = Present | Absent | Unreadable

  /** What happened at one planned peer: how it answered, and the upload if one was made. */
  datatype Visit = Visit(contact: Contact, upload: Option<Attempt>)

  /** The peer had the blob, or has it now. */
  predicate Served(v: Visit) {
    v.contact == Complete || Delivered(v)
  }

  predicate Delivered(v: Visit) {
    v.upload.Some? && v.upload.value.status == Succeeded
  }

  /** The tried peers were visited in turn, each that answered without having the blob got an upload,
      and none was visited after one that was served. */
  ghost predicate VisitsOf(visits: seq<Visit>, tried: seq<Candidate>, peers: seq<Peer>, w: WorkspaceId, hash: Hash) {
    && |visits| == |tried|
    && (forall i :: 0 <= i < |visits| ==>
          tried[i].index < |peers| && (visits[i].upload.Some? <==> visits[i].contact == Incomplete)
          && (visits[i].upload.Some? ==> UploadedTo(visits[i].upload.value, w, peers[tried[i].index], hash)))
    && (forall i :: 0 <= i < |visits| - 1 ==> !Served(visits[i]))
  }

  predicate UploadedTo(a: Attempt, w: WorkspaceId, peer: Peer, hash: Hash) {
    a.workspace == w && a.peer == peer && a.hash == hash
  }

  /** The last visit delivered the blob. */
  ghost predicate EndsDelivered(visits: seq<Visit>) {
    visits != [] && Delivered(visits[|visits| - 1])
  }

  ghost predicate EndsServed(visits: seq<Visit>) {
    visits != [] && Served(visits[|visits| - 1])
  }

  lemma NextVisit(visits: seq<Visit>, tried: seq<Candidate>, peers: seq<Peer>, w: WorkspaceId, hash: Hash, c: Candidate, v: Visit)
    requires VisitsOf(visits, tried, peers, w, hash) && !EndsServed(visits) && c.index < |peers|
    requires v.upload.Some? <==> v.contact == Incomplete
    requires v.upload.Some? ==> UploadedTo(v.upload.value, w, peers[c.index], hash)
    ensures VisitsOf(visits + [v], tried + [c], peers, w, hash)
    ensures EndsServed(visits + [v]) <==> Served(v)
    ensures EndsDelivered(visits + [v]) <==> Delivered(v)
  {
  }

  datatype Report = Report(pending: seq<string>, retried: seq<Hash>, reconciled: seq<Hash>,
                           missing: seq<Hash>, skipped: seq<Hash>)

  class Ledger {
    var entries: seq<Attempt>

    constructor ()
      ensures Valid() && entries == []
    {
      entries := [];
    }

    ghost predicate Valid()
      reads this
    {
      |entries| <= MaxEntries
    }

    /** Nothing of this blob is left to transfer in this workspace. */
    ghost predicate Settled(w: WorkspaceId, hash: Hash)
      reads this
    {
      forall e :: e in entries ==> !Unfinished(e, w, hash)
    }

    method RecordStarted(id: string, w: WorkspaceId, peer: Peer, hash: Hash) returns (a: Attempt)
      requires Valid()
      modifies this
      ensures Valid()
      ensures a == Attempt(id, w, peer, hash, InProgress, |Earlier(old(entries), w, peer, hash)| + 1)
      ensures entries == Pushed(old(entries), a)
    {
      TriesCount(entries, w, peer, hash);
      a := Attempt(id, w, peer, hash, InProgress, Tries(entries, w, peer, hash) + 1);
      entries := Newest(entries + [a]);
    }

    method RecordFinished(started: Attempt, status: Status) returns (a: Attempt)
      requires Valid()
      modifies this
      ensures Valid()
      ensures a == started.(status := status)
      ensures forall k: nat :: FirstWithId(old(entries), k, started.id) ==> entries == old(entries)[k := a]
      ensures (forall e :: e in old(entries) ==> e.id != started.id) ==>
                entries == Pushed(old(entries), a)
      ensures entries == Newest(Replaced(old(entries), a))
    {
      a := started.(status := status);
      ReplacedAt(entries, a);
      entries := Newest(Replaced(entries, a));
    }

    /** Marks every unfinished attempt of the blob as succeeded and returns those. */
    method ReconcileSatisfied(w: WorkspaceId, hash: Hash) returns (changed: seq<Attempt>)
      requires Valid()
      modifies this
      ensures Valid()
      ensures entries == Satisfied(old(entries), w, hash)
      ensures Settled(w, hash)
      ensures changed == [] <==> old(Settled(w, hash))
    {
      var next := entries;
      changed := [];
      var i := 0;
      while i < |next|
        invariant 0 <= i <= |next| == |entries|
        invariant entries == old(entries)
        invariant forall j :: i <= j < |next| ==> next[j] == entries[j]
        invariant forall j :: 0 <= j < i ==> next[j] == Satisfied(entries, w, hash)[j]
        invariant changed == [] <==> forall j :: 0 <= j < i ==> !Unfinished(entries[j], w, hash)
      {
        if Unfinished(next[i], w, hash) {
          next := next[i := next[i].(status := Succeeded)];
          changed := changed + [next[i]];
        }
        i := i + 1;
      }
      assert next == Satisfied(entries, w, hash);
      if changed != [] {
        entries := next;
      } else {
        assert forall j :: 0 <= j < |entries| ==> Satisfied(entries, w, hash)[j] == entries[j];
      }
    }

    /** One upload to one peer: recorded as started, then as finished. Under an id of its own it is the
        last entry and all others stay as they were, but for the oldest of a full ledger. */
    method Upload(w: WorkspaceId, peer: Peer, hash: Hash) returns (a: Attempt)
      requires Valid()
      modifies this
      ensures Valid()
      ensures a.workspace == w && a.hash == hash && a.peer == peer && a in entries
      ensures a.status != InProgress && a.count == |Earlier(old(entries), w, peer, hash)| + 1
      ensures (forall e :: e in old(entries) ==> e.id != a.id) ==>
                entries == Pushed(old(entries), a)
      ensures forall e :: e in entries ==> e in old(entries) || (e.workspace == w && e.hash == hash)
    {
      var id: string := *;
      var accepted: bool := *;
      var started := RecordStarted(id, w, peer, hash);
      a := RecordFinished(started, if accepted then Succeeded else Failed);
      UploadedLast(old(entries), started, a);
    }

    /** One planned peer: asked, and sent the blob if it answered without having it. */
    method VisitPeer(w: WorkspaceId, peer: Peer, hash: Hash) returns (v: Visit)
      requires Valid()
      modifies this
      ensures Valid()
      ensures v.upload.Some? <==> v.contact == Incomplete
      ensures v.upload.Some? ==> UploadedTo(v.upload.value, w, peer, hash)
      ensures v.upload.None? ==> entries == old(entries)
      ensures v.upload.Some? && !Delivered(v) ==> !Settled(w, hash)
      ensures forall h :: h != hash && old(Settled(w, h)) ==> Settled(w, h)
    {
      var contact: Contact := *;
      v := Visit(contact, None);
      if contact == Incomplete {
        var a := Upload(w, peer, hash);
        v := Visit(contact, Some(a));
      }
    }

    /** Tries the planned peers until one has the blob. The blob counts as retried exactly when the last
        upload succeeded, and as held exactly when the last peer visited has it; then it is settled.
        Otherwise every planned peer was visited. Settled blobs stay settled. */
    method RetryBlob(w: WorkspaceId, hash: Hash, peers: seq<Peer>, plan: seq<Candidate>)
      returns (retried: bool, reconciled: bool, held: bool, ghost tried: seq<Candidate>, ghost visits: seq<Visit>)
      requires Valid() && forall k :: 0 <= k < |plan| ==> plan[k].index < |peers|
      modifies this
      ensures Valid()
      ensures VisitsOf(visits, tried, peers, w, hash) && (retried <==> EndsDelivered(visits)) && (held <==> EndsServed(visits))
      ensures retried || reconciled ==> held
      ensures held ==> Settled(w, hash)
      ensures held && !retried && !reconciled ==> old(Settled(w, hash))
      ensures tried <= plan && (!held ==> tried == plan)
      ensures forall h :: h != hash && old(Settled(w, h)) ==> Settled(w, h)
    {
      retried, reconciled, held, tried, visits := false, false, false, [], [];
      var i := 0;
      while i < |plan|
        invariant 0 <= i <= |plan| && Valid()
        invariant tried == plan[..i] && !retried && !reconciled && !held
        invariant VisitsOf(visits, tried, peers, w, hash) && !EndsServed(visits)
        invariant Settled(w, hash) ==> entries == old(entries)
        invariant forall h :: h != hash && old(Settled(w, h)) ==> Settled(w, h)
      {
        var v := VisitPeer(w, peers[plan[i].index], hash);
        NextVisit(visits, tried, peers, w, hash, plan[i], v);
        tried, visits := plan[..i + 1], visits + [v];
        i := i + 1;
        if v.contact == Complete {
          var changed := ReconcileSatisfied(w, hash);
          reconciled, held := changed != [], true;
          return;
        }
        if Delivered(v) {
          var changed := ReconcileSatisfied(w, hash);
          retried, reconciled, held := true, changed != [], true;
          return;
        }
      }
    }

    ghost predicate AllSettled(w: WorkspaceId, held: set<Hash>)
      reads this
    {
      forall h :: h in held ==> Settled(w, h)
    }

    /** One pending hash: set aside, or retried with the peers its plan names. */
    method RetryHash(w: WorkspaceId, peers: seq<Peer>, before: seq<Attempt>, materialized: set<Hash>, blobs: Hash -> Blob,
                     hash: Hash, report: Report, ghost trace: Trace, ghost processed: set<Hash>)
      returns (next: Option<Report>, ghost trace': Trace)
      requires Valid() && hash !in processed && AllSettled(w, trace.held)
      requires Accounted(w, peers, before, report, trace, processed, materialized, blobs)
      modifies this
      ensures Valid() && AllSettled(w, trace'.held) && PlansFollowed(w, peers, before, trace')
      ensures next.Some? ==> next.value.pending == report.pending
      ensures next.Some? ==> Accounted(w, peers, before, next.value, trace', processed + {hash}, materialized, blobs)
    {
      trace' := trace;
      AccountedAside(w, peers, before, report, trace, processed, materialized, blobs, hash);
      if hash !in materialized {
        return Some(report.(skipped := report.skipped + [hash])), trace;
      }
      var blob := blobs(hash);
      if blob == Unreadable {
        return None, trace;
      }
      if blob == Absent {
        return Some(report.(missing := report.missing + [hash])), trace;
      }
      next, trace' := RetryPresent(w, peers, before, materialized, blobs, hash, report, trace, processed);
    }

    /** One pending hash whose blob is here. */
    method RetryPresent(w: WorkspaceId, peers: seq<Peer>, before: seq<Attempt>, ghost materialized: set<Hash>, ghost blobs: Hash -> Blob,
                        hash: Hash, report: Report, ghost trace: Trace, ghost processed: set<Hash>)
      returns (next: Option<Report>, ghost trace': Trace)
      requires Valid() && hash !in processed && AllSettled(w, trace.held) && hash in materialized && blobs(hash) == Present
      requires Accounted(w, peers, before, report, trace, processed, materialized, blobs)
      modifies this
      ensures Valid() && AllSettled(w, trace'.held)
      ensures next.Some? && next.value.pending == report.pending
      ensures Accounted(w, peers, before, next.value, trace', processed + {hash}, materialized, blobs)
    {
      var retried, reconciled, complete;
      ghost var contacted, visited;
      NotYetTried(w, peers, before, report, trace, processed, materialized, blobs, hash);
      retried, reconciled, complete, contacted, visited := RetryByPlan(w, hash, peers, before, trace.held);
      AccountedOne(w, peers, before, report, trace, processed, materialized, blobs, hash, retried, reconciled, complete, contacted, visited);
      trace' := Traced(trace, hash, complete, contacted, visited);
      next := Some(WithOutcome(report, hash, retried, reconciled));
    }

    /** Retries by plan; what was settled before stays so, and so is this blob if a peer has it now. */
    method RetryByPlan(w: WorkspaceId, hash: Hash, peers: seq<Peer>, before: seq<Attempt>, ghost settled: set<Hash>)
      returns (retried: bool, reconciled: bool, held: bool, ghost tried: seq<Candidate>, ghost visits: seq<Visit>)
      requires Valid() && AllSettled(w, settled) && hash !in settled
      modifies this
      ensures Valid() && AllSettled(w, if held then settled + {hash} else settled)
      ensures VisitsOf(visits, tried, peers, w, hash) && (retried <==> EndsDelivered(visits)) && (held <==> EndsServed(visits))
      ensures retried || reconciled ==> held
      ensures FollowsPlan(tried, held, peers, before, w, hash)
    {
      var plan := PlannedRetryPeers(peers, before, w, hash);
      retried, reconciled, held, tried, visits := RetryBlob(w, hash, peers, plan);
    }

    /** The whole run. Every hash reported as retried or reconciled is settled at the end; retried are
        exactly those whose last upload succeeded; skipped hashes are exactly the pending ones no
        materialized event refers to, missing ones are not stored locally, and neither was contacted
        for; no list repeats a hash; each blob visits a prefix of its plan. */
    method RetryPending(w: WorkspaceId, peers: seq<Peer>, materialized: set<Hash>, blobs: Hash -> Blob)
      returns (r: Option<Report>, ghost trace: Trace, ghost processed: set<Hash>)
      requires Valid()
      modifies this
      ensures Valid() && AllSettled(w, trace.held) && PlansFollowed(w, peers, old(entries), trace)
      ensures r.Some? ==> PendingIds(r.value.pending, old(entries), w)
      ensures r.Some? ==> AllPending(processed, old(entries), w)
      ensures r.Some? ==> Accounted(w, peers, old(entries), r.value, trace, processed, materialized, blobs)
    {
      var before := entries;
      var pending := Filter(before, Pending(w));
      var pendingIds := seq(|pending|, i requires 0 <= i < |pending| => pending[i].id);
      var report := Report(pendingIds, [], [], [], []);
      var done: set<Hash> := {};
      trace, processed := Trace(map[], {}, map[]), {};
      var i := 0;
      while i < |pending|
        invariant 0 <= i <= |pending| && Valid() && AllSettled(w, trace.held)
        invariant processed == done == set j | 0 <= j < i :: pending[j].hash
        invariant report.pending == pendingIds
        invariant Accounted(w, peers, before, report, trace, processed, materialized, blobs)
      {
        var hash := pending[i].hash;
        i := i + 1;
        if hash in done {
          continue;
        }
        var next;
        next, trace := RetryHash(w, peers, before, materialized, blobs, hash, report, trace, processed);
        if next.None? {
          return None, trace, processed;
        }
        report := next.value;
        done := done + {hash};
        processed := done;
      }
      AllPendingDone(before, pending, w, processed);
      PendingIdsOf(before, w);
      r := Some(report);
    }
  }

  /** An attempt started and finished: under an id of its own it ends up last. */
  lemma UploadedLast(entries: seq<Attempt>, started: Attempt, a: Attempt)
    requires |entries| <= MaxEntries && a.id == started.id
    ensures var r := Newest(Replaced(Pushed(entries, started), a));
            && a in r && (forall e :: e in r ==> e in entries || e == a || e == started)
            && ((forall e :: e in entries ==> e.id != a.id) ==> r == Pushed(entries, a))
  {
    PushedShape(entries, started);
    FinishedStays(Pushed(entries, started), a);
    UploadedInPlace(entries, started, a);
  }

  lemma UploadedInPlace(entries: seq<Attempt>, started: Attempt, a: Attempt)
    requires |entries| <= MaxEntries && a.id == started.id
    ensures (forall e :: e in entries ==> e.id != a.id) ==>
              Newest(Replaced(Pushed(entries, started), a)) == Pushed(entries, a)
  {
    var begun := Pushed(entries, started);
    PushedShape(entries, started);
    OwnIdIsLast(begun, a);
    LastReplaced(entries, started, a);
    assert forall j :: 0 <= j < |begun| - 1 ==> begun[j] in entries;
  }

  lemma LastReplaced(entries: seq<Attempt>, x: Attempt, y: Attempt)
    requires |entries| <= MaxEntries
    ensures var r := Pushed(entries, x); r != [] && r[..|r| - 1] + [y] == Pushed(entries, y)
  {
    PushedShape(entries, x);
  }

  lemma PushedShape(entries: seq<Attempt>, a: Attempt)
    requires |entries| <= MaxEntries
    ensures var r := Pushed(entries, a);
            && 0 < |r| <= MaxEntries && r[|r| - 1] == a && r[..|r| - 1] == (if |entries| < MaxEntries then entries else entries[1..])
            && (forall j :: 0 <= j < |r| - 1 ==> r[j] in entries) && (forall e :: e in r ==> e in entries || e == a)
  {
    var r := Pushed(entries, a);
    forall j | 0 <= j < |r| - 1 ensures r[j] in entries {
      assert r[j] == if |entries| < MaxEntries then entries[j] else entries[j + 1];
    }
  }

  /** Finishing the last entry, when no other has its id. */
  lemma OwnIdIsLast(begun: seq<Attempt>, a: Attempt)
    requires begun != [] && |begun| <= MaxEntries && begun[|begun| - 1].id == a.id
    ensures (forall j :: 0 <= j < |begun| - 1 ==> begun[j].id != a.id) ==>
              Newest(Replaced(begun, a)) == begun[..|begun| - 1] + [a]
  {
    ReplacedAt(begun, a);
    if forall j :: 0 <= j < |begun| - 1 ==> begun[j].id != a.id {
      assert FirstWithId(begun, |begun| - 1, a.id);
      assert begun[|begun| - 1 := a] == begun[..|begun| - 1] + [a];
    }
  }

  /** The ids of the unfinished attempts of the workspace, in ledger order. */
  ghost predicate PendingIds(ids: seq<string>, entries: seq<Attempt>, w: WorkspaceId) {
    exists ks: seq<nat> ::
      && Positions(ks, entries, Pending(w)) && |ids| == |ks|
      && forall j :: 0 <= j < |ks| ==> ks[j] < |entries| && ids[j] == entries[ks[j]].id
  }

  function Pending(w: WorkspaceId): Attempt -> bool {
    (e: Attempt) => e.workspace == w && e.status != Succeeded
  }

  lemma PendingIdsOf(entries: seq<Attempt>, w: WorkspaceId)
    ensures var pending := Filter(entries, Pending(w));
            PendingIds(seq(|pending|, i requires 0 <= i < |pending| => pending[i].id), entries, w)
  {
    var ks := FilterPositions(entries, Pending(w));
  }

  /** The hashes of the unfinished attempts of the workspace. */
  ghost predicate AllPending(hashes: set<Hash>, entries: seq<Attempt>, w: WorkspaceId) {
    forall h :: h in hashes <==> exists e :: e in entries && Unfinished(e, w, h)
  }

  lemma AllPendingDone(before: seq<Attempt>, pending: seq<Attempt>, w: WorkspaceId, hashes: set<Hash>)
    requires forall e :: e in pending <==> e in before && e.workspace == w && e.status != Succeeded
    requires hashes == set j | 0 <= j < |pending| :: pending[j].hash
    ensures AllPending(hashes, before, w)
  {
    forall h ensures h in hashes <==> exists e :: e in before && Unfinished(e, w, h) {
      PendingHashes(before, pending, w, h);
    }
  }

  lemma PendingHashes(before: seq<Attempt>, pending: seq<Attempt>, w: WorkspaceId, h: Hash)
    requires forall e :: e in pending <==> e in before && e.workspace == w && e.status != Succeeded
    ensures (exists j :: 0 <= j < |pending| && pending[j].hash == h) <==> exists e :: e in before && Unfinished(e, w, h)
  {
    if exists e :: e in before && Unfinished(e, w, h) {
      var e :| e in before && Unfinished(e, w, h);
      assert e in pending;
    }
    if exists j :: 0 <= j < |pending| && pending[j].hash == h {
      var j :| 0 <= j < |pending| && pending[j].hash == h;
      assert pending[j] in before && Unfinished(pending[j], w, h);
    }
  }

  function WithOutcome(r: Report, hash: Hash, retried: bool, reconciled: bool): Report {
    r.(retried := if retried then r.retried + [hash] else r.retried,
       reconciled := if reconciled then r.reconciled + [hash] else r.reconciled)
  }

  /** Which peers were tried for which hash, for which one of them has the blob, and what happened. */
  datatype Trace = Trace(tried: map<Hash, seq<Candidate>>, held: set<Hash>, visits: map<Hash, seq<Visit>>)

  function Traced(t: Trace, hash: Hash, complete: bool, contacted: seq<Candidate>, visited: seq<Visit>): Trace {
    Trace(t.tried[hash := contacted], if complete then t.held + {hash} else t.held, t.visits[hash := visited])
  }

  ghost predicate PlansFollowed(w: WorkspaceId, peers: seq<Peer>, before: seq<Attempt>, t: Trace) {
    forall h :: h in t.tried ==> FollowsPlan(t.tried[h], h in t.held, peers, before, w, h)
  }

  /** A hash is reported as retried exactly when its last upload succeeded, and held exactly when the
      last peer visited for it has the blob. */
  ghost predicate VisitsOk(w: WorkspaceId, peers: seq<Peer>, r: Report, t: Trace) {
    && t.visits.Keys == t.tried.Keys && t.held <= t.tried.Keys
    && (forall h :: h in t.tried ==> VisitOk(w, peers, t, h))
    && (forall h :: h in r.retried <==> h in t.visits && EndsDelivered(t.visits[h]))
  }

  ghost predicate VisitOk(w: WorkspaceId, peers: seq<Peer>, t: Trace, h: Hash)
    requires h in t.tried && h in t.visits
  {
    VisitsOf(t.visits[h], t.tried[h], peers, w, h) && (h in t.held <==> EndsServed(t.visits[h]))
  }

  /** Every processed hash is in the list it belongs to, each once. */
  ghost predicate Sorted(r: Report, t: Trace, processed: set<Hash>, materialized: set<Hash>, blobs: Hash -> Blob) {
    && (forall h :: h in r.retried || h in r.reconciled ==> h in t.held)
    && (forall h :: h in r.skipped <==> h in processed && h !in materialized)
    && (forall h :: h in r.missing <==> h in processed && h in materialized && blobs(h) == Absent)
    && (forall h :: h in t.tried <==> h in processed && h in materialized && blobs(h) == Present)
    && NoDuplicates(r.retried) && NoDuplicates(r.reconciled)
    && NoDuplicates(r.missing) && NoDuplicates(r.skipped)
  }

  /** What the run has reported after processing some of the pending hashes. */
  ghost predicate Accounted(w: WorkspaceId, peers: seq<Peer>, before: seq<Attempt>, r: Report, t: Trace, processed: set<Hash>,
                            materialized: set<Hash>, blobs: Hash -> Blob) {
    PlansFollowed(w, peers, before, t) && VisitsOk(w, peers, r, t) && Sorted(r, t, processed, materialized, blobs)
  }

  lemma NotYetTried(w: WorkspaceId, peers: seq<Peer>, before: seq<Attempt>, r: Report, t: Trace, processed: set<Hash>,
                    materialized: set<Hash>, blobs: Hash -> Blob, hash: Hash)
    requires Accounted(w, peers, before, r, t, processed, materialized, blobs) && hash !in processed
    ensures hash !in t.tried && hash !in t.held
  {
  }

  lemma SortedAside(r: Report, t: Trace, processed: set<Hash>, materialized: set<Hash>, blobs: Hash -> Blob, hash: Hash)
    requires Sorted(r, t, processed, materialized, blobs) && hash !in processed
    ensures hash !in materialized ==> Sorted(r.(skipped := r.skipped + [hash]), t, processed + {hash}, materialized, blobs)
    ensures hash in materialized && blobs(hash) == Absent ==>
              Sorted(r.(missing := r.missing + [hash]), t, processed + {hash}, materialized, blobs)
  {
  }

  lemma AccountedAside(w: WorkspaceId, peers: seq<Peer>, before: seq<Attempt>, r: Report, t: Trace, processed: set<Hash>,
                       materialized: set<Hash>, blobs: Hash -> Blob, hash: Hash)
    requires Accounted(w, peers, before, r, t, processed, materialized, blobs) && hash !in processed
    ensures hash !in materialized ==>
              Accounted(w, peers, before, r.(skipped := r.skipped + [hash]), t, processed + {hash}, materialized, blobs)
    ensures hash in materialized && blobs(hash) == Absent ==>
              Accounted(w, peers, before, r.(missing := r.missing + [hash]), t, processed + {hash}, materialized, blobs)
  {
    SortedAside(r, t, processed, materialized, blobs, hash);
  }

  lemma VisitsOne(w: WorkspaceId, peers: seq<Peer>, r: Report, t: Trace, hash: Hash, retried: bool, reconciled: bool, complete: bool,
                  contacted: seq<Candidate>, visited: seq<Visit>)
    requires VisitsOk(w, peers, r, t) && hash !in t.tried
    requires VisitsOf(visited, contacted, peers, w, hash) && (retried <==> EndsDelivered(visited)) && (complete <==> EndsServed(visited))
    ensures VisitsOk(w, peers, WithOutcome(r, hash, retried, reconciled), Traced(t, hash, complete, contacted, visited))
  {
    var u := Traced(t, hash, complete, contacted, visited);
    forall h | h in u.tried ensures VisitOk(w, peers, u, h) {
      assert h != hash ==> VisitOk(w, peers, t, h);
    }
    RetriedOne(r, t, hash, retried, reconciled, visited);
  }

  lemma RetriedOne(r: Report, t: Trace, hash: Hash, retried: bool, reconciled: bool, visited: seq<Visit>)
    requires hash !in t.visits && (retried <==> EndsDelivered(visited))
    requires forall h :: h in r.retried <==> h in t.visits && EndsDelivered(t.visits[h])
    ensures var visits := t.visits[hash := visited];
            forall h :: h in WithOutcome(r, hash, retried, reconciled).retried <==> h in visits && EndsDelivered(visits[h])
  {
  }

  lemma SortedOne(r: Report, t: Trace, processed: set<Hash>, materialized: set<Hash>, blobs: Hash -> Blob, hash: Hash,
                  retried: bool, reconciled: bool, complete: bool, contacted: seq<Candidate>, visited: seq<Visit>)
    requires Sorted(r, t, processed, materialized, blobs) && t.held <= t.tried.Keys
    requires hash !in processed && hash in materialized && blobs(hash) == Present
    requires retried || reconciled ==> complete
    ensures Sorted(WithOutcome(r, hash, retried, reconciled), Traced(t, hash, complete, contacted, visited), processed + {hash},
                   materialized, blobs)
  {
  }

  lemma AccountedOne(w: WorkspaceId, peers: seq<Peer>, before: seq<Attempt>, r: Report, t: Trace, processed: set<Hash>,
                     materialized: set<Hash>, blobs: Hash -> Blob, hash: Hash, retried: bool, reconciled: bool, complete: bool,
                     contacted: seq<Candidate>, visited: seq<Visit>)
    requires Accounted(w, peers, before, r, t, processed, materialized, blobs)
    requires hash !in processed && hash in materialized && blobs(hash) == Present
    requires VisitsOf(visited, contacted, peers, w, hash) && (retried <==> EndsDelivered(visited)) && (complete <==> EndsServed(visited))
    requires (retried || reconciled ==> complete) && FollowsPlan(contacted, complete, peers, before, w, hash)
    ensures Accounted(w, peers, before, WithOutcome(r, hash, retried, reconciled), Traced(t, hash, complete, contacted, visited),
                      processed + {hash}, materialized, blobs)
  {
    VisitsOne(w, peers, r, t, hash, retried, reconciled, complete, contacted, visited);
    SortedOne(r, t, processed, materialized, blobs, hash, retried, reconciled, complete, contacted, visited);
  }
}
