/** The causal past of an event, and the history that member removal looks at: the materialized
    events followed by the stored OpenMLS commits that are authorized in their own causal past. */
module CausalHistory {
  import opened Events
  import opened Workspace
  import M = Materialization
  import opened MlsIndex

  /** The stored event of each id; a later row of the same id wins. */
  function ById(raw: seq<Event>): (m: map<EventId, Event>)
    ensures forall id :: id in m ==> m[id] in raw && m[id].id == id
    ensures forall e :: e in raw ==> e.id in m
  {
    if raw == [] then map[]
    else
      var m := ById(raw[..|raw| - 1]);
      assert forall e :: e in raw ==> e in raw[..|raw| - 1] || e == raw[|raw| - 1];
      m[raw[|raw| - 1].id := raw[|raw| - 1]]
  }

  /** Each id of the path is a parent named by the stored event before it. */
  ghost predicate ParentPath(store: map<EventId, Event>, path: seq<EventId>) {
    |path| > 0 && forall i :: 0 <= i < |path| - 1 ==> path[i] in store && path[i + 1] in store[path[i]].parents
  }

  /** `x` is one of the roots or is reached from them through stored events. */
  ghost predicate Ancestor(store: map<EventId, Event>, roots: seq<EventId>, x: EventId) {
    exists path :: ParentPath(store, path) && path[0] in roots && path[|path| - 1] == x
  }

  lemma RootIsAncestor(store: map<EventId, Event>, roots: seq<EventId>, x: EventId)
    requires x in roots
    ensures Ancestor(store, roots, x)
  {
    assert ParentPath(store, [x]);
  }

  lemma ParentIsAncestor(store: map<EventId, Event>, roots: seq<EventId>, x: EventId, p: EventId)
    requires Ancestor(store, roots, x) && x in store && p in store[x].parents
    ensures Ancestor(store, roots, p)
  {
    var path :| ParentPath(store, path) && path[0] in roots && path[|path| - 1] == x;
    assert ParentPath(store, path + [p]);
  }

  /** A set that holds the roots and the parents of its members holds every ancestor. */
  lemma {:induction false} ClosedHoldsPath(store: map<EventId, Event>, closed: set<EventId>, path: seq<EventId>)
    requires forall x, p :: x in closed && x in store && p in store[x].parents ==> p in closed
    requires ParentPath(store, path) && path[0] in closed
    ensures path[|path| - 1] in closed
    decreases |path|
  {
    if |path| > 1 {
      assert ParentPath(store, path[1..]);
      ClosedHoldsPath(store, closed, path[1..]);
    }
  }

  lemma ClosedHoldsAncestors(store: map<EventId, Event>, roots: seq<EventId>, closed: set<EventId>, x: EventId)
    requires forall r :: r in roots ==> r in closed
    requires forall x, p :: x in closed && x in store && p in store[x].parents ==> p in closed
    requires Ancestor(store, roots, x)
    ensures x in closed
  {
    var path :| ParentPath(store, path) && path[0] in roots && path[|path| - 1] == x;
    ClosedHoldsPath(store, closed, path);
  }

  ghost predicate AllPresent(store: map<EventId, Event>, roots: seq<EventId>) {
    forall x :: Ancestor(store, roots, x) ==> x in store
  }

  function Elements(s: seq<EventId>): set<EventId> {
    set x | x in s
  }

  lemma PopElements(s: seq<EventId>)
    requires s != []
    ensures Elements(s) == Elements(s[..|s| - 1]) + {s[|s| - 1]}
  {
  }

  lemma ExtendElements(s: seq<EventId>, t: seq<EventId>)
    ensures Elements(s + t) == Elements(s) + Elements(t)
  {
  }

  /** Ids that a walk from the roots can meet. */
  ghost function Named(store: map<EventId, Event>, roots: seq<EventId>): set<EventId> {
    Elements(roots) + (set k, p | k in store && p in store[k].parents :: p)
  }

  ghost predicate Sound(store: map<EventId, Event>, roots: seq<EventId>, ids: set<EventId>) {
    forall x :: x in ids ==> x in Named(store, roots) && Ancestor(store, roots, x)
  }

  /** Everything known so far: visited ids are stored, and what they name is visited or waiting. */
  ghost predicate Walk(store: map<EventId, Event>, roots: seq<EventId>, visited: set<EventId>, waiting: set<EventId>) {
    && Sound(store, roots, visited + waiting)
    && Elements(roots) <= visited + waiting
    && visited <= store.Keys
    && forall x :: x in visited ==> Elements(store[x].parents) <= visited + waiting
  }

  lemma WalkStarts(store: map<EventId, Event>, roots: seq<EventId>)
    ensures Walk(store, roots, {}, Elements(roots))
  {
    forall r | r in roots { RootIsAncestor(store, roots, r); }
  }

  lemma WalkVisits(store: map<EventId, Event>, roots: seq<EventId>, visited: set<EventId>, waiting: set<EventId>, id: EventId)
    requires Walk(store, roots, visited, waiting + {id}) && id in store
    ensures Walk(store, roots, visited + {id}, waiting + Elements(store[id].parents))
  {
    forall p | p in store[id].parents { ParentIsAncestor(store, roots, id, p); }
  }

  lemma WalkEnds(store: map<EventId, Event>, roots: seq<EventId>, visited: set<EventId>, x: EventId)
    requires Walk(store, roots, visited, {}) && Ancestor(store, roots, x)
    ensures x in visited
  {
    ClosedHoldsAncestors(store, roots, visited, x);
  }

  /** The worklist. It stops on cycles and repeated parents; it reports completeness exactly when no
      ancestor is absent, and then holds exactly the ancestors. */
  method CollectAncestors(store: map<EventId, Event>, roots: seq<EventId>) returns (visited: set<EventId>, complete: bool)
    ensures complete <==> AllPresent(store, roots)
    ensures complete ==> forall x :: x in visited <==> Ancestor(store, roots, x)
  {
    visited, complete := {}, true;
    var pending := roots;
    WalkStarts(store, roots);
    while pending != []
      invariant Walk(store, roots, visited, Elements(pending))
      decreases Named(store, roots) - visited, |pending|
    {
      PopElements(pending);
      var id := pending[|pending| - 1];
      pending := pending[..|pending| - 1];
      if id !in visited {
        if id !in store {
          assert Ancestor(store, roots, id);
          return visited + {id}, false;
        }
        WalkVisits(store, roots, visited, Elements(pending), id);
        ExtendElements(pending, store[id].parents);
        visited := visited + {id};
        pending := pending + store[id].parents;
      } else {
        assert visited + (Elements(pending) + {id}) == visited + Elements(pending);
      }
    }
    forall x | Ancestor(store, roots, x) { WalkEnds(store, roots, visited, x); }
  }

  ghost function CausalPast(raw: seq<Event>, e: Event): seq<Event> {
    Filter(raw, (x: Event) => Ancestor(ById(raw), e.parents, x.id))
  }

  /** A stored commit that did not materialize but is authorized by its own complete causal past. */
  ghost predicate Admitted(raw: seq<Event>, materialized: seq<Event>, authorize: (seq<Event>, Event) -> bool, e: Event) {
    && CommitBody(e.body) && e.id !in Ids(materialized)
    && AllPresent(ById(raw), e.parents) && authorize(CausalPast(raw, e), e)
  }

  lemma {:induction false} FilterAgrees(s: seq<Event>, p: Event -> bool, q: Event -> bool)
    requires forall x :: x in s ==> p(x) == q(x)
    ensures Filter(s, p) == Filter(s, q)
  {
    if s != [] {
      FilterAgrees(s[1..], p, q);
    }
  }

  lemma FilterSnoc(s: seq<Event>, e: Event, p: Event -> bool)
    ensures Filter(s + [e], p) == Filter(s, p) + if p(e) then [e] else []
  {
    FilterSnocs(s, e, p);
  }

  /** May `candidate` join the removal history? */
  method Admits(raw: seq<Event>, materialized: seq<Event>, authorize: (seq<Event>, Event) -> bool, candidate: Event)
    returns (ok: bool)
    ensures ok <==> Admitted(raw, materialized, authorize, candidate)
  {
    if !CommitBody(candidate.body) || candidate.id in Ids(materialized) {
      return false;
    }
    var ancestors, complete := CollectAncestors(ById(raw), candidate.parents);
    if !complete {
      return false;
    }
    var past := Filter(raw, (x: Event) => x.id in ancestors);
    FilterAgrees(raw, (x: Event) => x.id in ancestors, (x: Event) => Ancestor(ById(raw), candidate.parents, x.id));
    return authorize(past, candidate);
  }

  ghost function Admission(raw: seq<Event>, materialized: seq<Event>, authorize: (seq<Event>, Event) -> bool): Event -> bool {
    e => Admitted(raw, materialized, authorize, e)
  }

  /** The history behind every removal decision. */
  method RemovalHistory(raw: seq<Event>, materialized: seq<Event>, authorize: (seq<Event>, Event) -> bool)
    returns (indexed: seq<Event>)
    ensures indexed == materialized + Filter(raw, Admission(raw, materialized, authorize))
  {
    indexed := materialized;
    ghost var p := Admission(raw, materialized, authorize);
    ghost var admitted: seq<Event> := [];
    for i := 0 to |raw|
      invariant admitted == Filter(raw[..i], p)
      invariant indexed == materialized + admitted
    {
      var ok := Admits(raw, materialized, authorize, raw[i]);
      assert ok <==> p(raw[i]);
      FilterTake(raw, i, p);
      if ok {
        Associate(materialized, admitted, raw[i]);
        indexed := indexed + [raw[i]];
        admitted := admitted + [raw[i]];
      }
    }
    assert raw[..|raw|] == raw;
  }

  lemma Associate<T>(a: seq<T>, b: seq<T>, x: T)
    ensures a + b + [x] == a + (b + [x])
  {
  }

  lemma FilterTake(s: seq<Event>, i: nat, p: Event -> bool)
    requires i < |s|
    ensures Filter(s[..i + 1], p) == Filter(s[..i], p) + if p(s[i]) then [s[i]] else []
  {
    assert s[..i + 1] == s[..i] + [s[i]];
    FilterSnoc(s[..i], s[i], p);
  }

  // ---------- appending a materialized row ----------

  /** Authorization of an event by a history of its own. */
  function Authorizing(): (seq<Event>, Event) -> bool {
    (past: seq<Event>, e: Event) => Authorized(M.Materialize(past).state, e)
  }

  /** No path of parents leaves the store. */
  ghost predicate PathsStored(store: map<EventId, Event>, roots: seq<EventId>) {
    forall path :: ParentPath(store, path) && path[0] in roots ==> path[|path| - 1] in store
  }

  lemma PathsReachAncestors(store: map<EventId, Event>, roots: seq<EventId>)
    ensures AllPresent(store, roots) <==> PathsStored(store, roots)
  {
    if AllPresent(store, roots) {
      forall path | ParentPath(store, path) && path[0] in roots ensures path[|path| - 1] in store {
        assert Ancestor(store, roots, path[|path| - 1]);
      }
    }
  }

  lemma CommitsNeedMembers(s: State, e: Event)
    requires CommitBody(e.body)
    ensures Authorized(s, e) <==> IsMember(s, e.author)
  {
  }

  lemma AuthorizingMeans(past: seq<Event>, e: Event)
    ensures Authorizing()(past, e) <==> Authorized(M.Materialize(past).state, e)
  {
  }

  /** A candidate joins the removal history exactly when it is a group commit that is not materialized,
      no row on any path of parents from it is missing, and the rows on these paths, materialized on
      their own, make its author a member. */
  lemma AdmittedExactly(raw: seq<Event>, materialized: seq<Event>, e: Event)
    ensures Admitted(raw, materialized, Authorizing(), e) <==>
            && (e.body.GroupMemberAdded? || e.body.GroupSelfUpdated? || e.body.GroupMemberRemoved?)
            && e.id !in Ids(materialized)
            && PathsStored(ById(raw), e.parents)
            && IsMember(M.Materialize(CausalPast(raw, e)).state, e.author)
  {
    PathsReachAncestors(ById(raw), e.parents);
    var past := CausalPast(raw, e);
    AuthorizingMeans(past, e);
    if CommitBody(e.body) {
      CommitsNeedMembers(M.Materialize(past).state, e);
    }
  }

  /** The stored commits that are indexed behind the materialized events. */
  ghost function Extra(raw: seq<Event>): seq<Event> {
    Filter(raw, Admission(raw, M.Materialize(raw).events, Authorizing()))
  }

  ghost function Indexed(raw: seq<Event>): seq<Event> {
    M.Materialize(raw).events + Extra(raw)
  }

  /** The same, when the rows and the materialized events are read one after the other and `later`
      is what the store holds at the second read. */
  ghost function IndexedFrom(rows: seq<Event>, later: seq<Event>): seq<Event> {
    M.Materialize(later).events + Filter(rows, Admission(rows, M.Materialize(later).events, Authorizing()))
  }

  /** Events that change neither members nor links nor persons. */
  predicate Neutral(b: Body) {
    b.ContentKeyEpochPublished? || CommitBody(b)
  }

  lemma NeutralAuthorizesNothing(s: State, e: Event, x: Event)
    requires Neutral(e.body) && Authorized(Apply(s, e), x)
    ensures Authorized(s, x)
  {
  }

  /** A neutral event is all that is added. */
  lemma NeutralIsAllThatIsApplied(raw: seq<Event>, e: Event)
    requires M.WrittenNow(raw, e) && Neutral(e.body)
    ensures M.Materialize(raw + [e]).events == M.Materialize(raw).events + [e]
  {
    var c := M.Materialize(raw);
    var d := M.Applied(c, e);
    M.WrittenIsApplied(raw, e);
    M.Materialized(raw);
    forall x | x in raw + [e] ensures !M.Applicable(d, x) {
      StillWaiting(c, e, x, raw);
    }
    M.IdlePass(d, raw + [e]);
  }

  /** It changes neither the members nor the root. */
  lemma NeutralKeepsMembers(raw: seq<Event>, e: Event)
    requires M.WrittenNow(raw, e) && Neutral(e.body)
    ensures M.Materialize(raw + [e]).state.members == M.Materialize(raw).state.members
    ensures M.Materialize(raw + [e]).state.root == M.Materialize(raw).state.root
  {
    NeutralIsAllThatIsApplied(raw, e);
    M.MaterializedInBrief(raw);
    M.MaterializedInBrief(raw + [e]);
    M.FoldSnoc(Empty, M.Materialize(raw).events, e);
  }

  lemma StillWaiting(c: M.Context, e: Event, x: Event, raw: seq<Event>)
    requires M.Unmentioned(raw, e.id) && Neutral(e.body) && x in raw + [e] && (x in raw ==> !M.Applicable(c, x))
    ensures !M.Applicable(M.Applied(c, e), x)
  {
    var d := M.Applied(c, e);
    assert M.IdSet(d.events) == M.IdSet(c.events) + {e.id};
    assert x in raw && M.Ready(d, x) ==> M.Ready(c, x);
    if x in raw && M.Applicable(d, x) {
      NeutralAuthorizesNothing(c.state, e, x);
    }
  }

  // ---------- the admitted commits stay the same ----------

  lemma ByIdSnoc(raw: seq<Event>, e: Event)
    ensures ById(raw + [e]) == ById(raw)[e.id := e]
  {
    assert (raw + [e])[..|raw|] == raw;
  }

  /** No path through stored rows reaches an id that none of them names. */
  lemma {:induction false} PathAvoids(store: map<EventId, Event>, e: Event, path: seq<EventId>)
    requires forall k :: k in store ==> e.id !in store[k].parents
    requires path != [] && path[0] != e.id
    ensures ParentPath(store, path) <==> ParentPath(store[e.id := e], path)
    ensures ParentPath(store, path) ==> path[|path| - 1] != e.id
    decreases |path|
  {
    if |path| > 1 {
      var rest := path[1..];
      PathCons(store, path);
      PathCons(store[e.id := e], path);
      if path[0] in store && path[1] in store[path[0]].parents {
        PathAvoids(store, e, rest);
      }
    }
  }

  lemma PathCons(store: map<EventId, Event>, path: seq<EventId>)
    requires |path| > 1
    ensures ParentPath(store, path) <==> path[0] in store && path[1] in store[path[0]].parents && ParentPath(store, path[1..])
  {
    var rest := path[1..];
    assert forall i :: 0 <= i < |rest| ==> rest[i] == path[i + 1];
    if path[0] in store && path[1] in store[path[0]].parents && ParentPath(store, rest) {
      forall i | 0 <= i < |path| - 1 ensures path[i] in store && path[i + 1] in store[path[i]].parents {
        if i > 0 {
          assert rest[i - 1] in store && rest[i] in store[rest[i - 1]].parents;
        }
      }
    }
    if ParentPath(store, path) {
      forall i | 0 <= i < |rest| - 1 ensures rest[i] in store && rest[i + 1] in store[rest[i]].parents {
        assert path[i + 1] in store && path[i + 2] in store[path[i + 1]].parents;
      }
    }
  }

  lemma AncestorsStay(store: map<EventId, Event>, e: Event, roots: seq<EventId>, x: EventId)
    requires (forall k :: k in store ==> e.id !in store[k].parents) && e.id !in roots
    ensures Ancestor(store[e.id := e], roots, x) <==> Ancestor(store, roots, x)
    ensures Ancestor(store, roots, x) ==> x != e.id
  {
    if Ancestor(store, roots, x) {
      var path :| ParentPath(store, path) && path[0] in roots && path[|path| - 1] == x;
      PathAvoids(store, e, path);
    }
    if Ancestor(store[e.id := e], roots, x) {
      var path :| ParentPath(store[e.id := e], path) && path[0] in roots && path[|path| - 1] == x;
      PathAvoids(store, e, path);
    }
  }

  lemma StoreNamesNot(raw: seq<Event>, id: EventId)
    requires M.Unmentioned(raw, id)
    ensures id !in ById(raw) && forall k :: k in ById(raw) ==> id !in ById(raw)[k].parents
  {
  }

  lemma PastStays(raw: seq<Event>, e: Event, x: Event)
    requires M.Unmentioned(raw, e.id) && x in raw
    ensures AllPresent(ById(raw + [e]), x.parents) <==> AllPresent(ById(raw), x.parents)
    ensures CausalPast(raw + [e], x) == CausalPast(raw, x)
  {
    var store := ById(raw);
    ByIdSnoc(raw, e);
    StoreNamesNot(raw, e.id);
    forall y
      ensures Ancestor(ById(raw + [e]), x.parents, y) <==> Ancestor(store, x.parents, y)
      ensures Ancestor(store, x.parents, y) ==> y != e.id
    {
      AncestorsStay(store, e, x.parents, y);
    }
    var p := (y: Event) => Ancestor(ById(raw + [e]), x.parents, y.id);
    FilterSnoc(raw, e, p);
    FilterAgrees(raw, p, (y: Event) => Ancestor(ById(raw), x.parents, y.id));
  }

  lemma AdmissionStays(raw: seq<Event>, e: Event, x: Event)
    requires M.WrittenNow(raw, e) && Neutral(e.body) && x in raw
    ensures Admitted(raw + [e], M.Materialize(raw + [e]).events, Authorizing(), x)
            <==> Admitted(raw, M.Materialize(raw).events, Authorizing(), x)
  {
    PastStays(raw, e, x);
    NeutralIsAllThatIsApplied(raw, e);
    IdsSnoc(M.Materialize(raw).events, e, x.id);
  }

  lemma IdsSnoc(events: seq<Event>, e: Event, id: EventId)
    ensures id in Ids(events + [e]) <==> id in Ids(events) || id == e.id
  {
    assert Ids(events + [e]) == Ids(events) + [e.id];
  }

  /** Appending a neutral event on the heads, which no stored row names as a parent, leaves the
      admitted commits exactly as they were. */
  lemma ExtraStays(raw: seq<Event>, e: Event)
    requires M.WrittenNow(raw, e) && Neutral(e.body)
    ensures Extra(raw + [e]) == Extra(raw)
  {
    var p := Admission(raw + [e], M.Materialize(raw + [e]).events, Authorizing());
    NeutralIsAllThatIsApplied(raw, e);
    IdsSnoc(M.Materialize(raw).events, e, e.id);
    assert !p(e);
    FilterSnoc(raw, e, p);
    forall x | x in raw ensures p(x) == Admission(raw, M.Materialize(raw).events, Authorizing())(x) {
      AdmissionStays(raw, e, x);
    }
    FilterAgrees(raw, p, Admission(raw, M.Materialize(raw).events, Authorizing()));
  }
}
