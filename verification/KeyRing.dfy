/** The rotating ring of content keys of a workspace or of one private channel.

    A key id names the ring and the epoch. Rotation keeps the old key under its id, so that content
    encrypted before stays readable.
 */
module KeyRing {
  import opened Events

  const KeyLength: nat := 32
  const SchemaVersion: nat := 2

  type Bytes = seq<int>
  type Key = b: Bytes | |b| == KeyLength witness seq(KeyLength, i => 0)

  datatype Ring = Ring(owner: RingOwner, epoch: nat, keyId: string, key: Key, previous: seq<Material>)

  datatype RingOwner = OfWorkspace(workspace: string) | OfChannel(workspace: string, channel: ChannelId)

  datatype Material = Material(keyId: string, key: Key)

  // ---------- key ids ----------

  function Digit(n: nat): (c: char)
    requires n < 10
  {
    (n + '0' as int) as char
  }

  function Decimal(n: nat): (r: string)
    ensures r != []
  {
    if n < 10 then [Digit(n)] else Decimal(n / 10) + [Digit(n % 10)]
  }

  lemma {:induction false} DecimalInjective(m: nat, n: nat)
    requires Decimal(m) == Decimal(n)
    ensures m == n
  {
    var a, b := Decimal(m), Decimal(n);
    assert a[|a| - 1] == Digit(m % 10) && b[|b| - 1] == Digit(n % 10);
    if m >= 10 && n >= 10 {
      assert a[..|a| - 1] == Decimal(m / 10) && b[..|b| - 1] == Decimal(n / 10);
      DecimalInjective(m / 10, n / 10);
    } else {
      assert m < 10 <==> |a| == 1;
      assert n < 10 <==> |b| == 1;
    }
  }

  function Prefix(owner: RingOwner): string {
    match owner
    case OfWorkspace(w) => w + ":content:v"
    case OfChannel(w, c) => w + ":" + c + ":content:v"
  }

  function KeyIdFor(owner: RingOwner, epoch: nat): string {
    Prefix(owner) + Decimal(epoch)
  }

  lemma KeyIdsDiffer(owner: RingOwner, m: nat, n: nat)
    ensures KeyIdFor(owner, m) == KeyIdFor(owner, n) <==> m == n
  {
    if KeyIdFor(owner, m) == KeyIdFor(owner, n) {
      assert KeyIdFor(owner, m)[|Prefix(owner)|..] == Decimal(m);
      assert KeyIdFor(owner, n)[|Prefix(owner)|..] == Decimal(n);
      DecimalInjective(m, n);
    }
  }

  lemma {:induction false} DecimalHoldsDigits(n: nat)
    ensures 'v' !in Decimal(n)
  {
    if n >= 10 {
      DecimalHoldsDigits(n / 10);
    }
  }

  lemma LastV(a: string, n: nat)
    ensures var s := a + "v" + Decimal(n); s[|a|] == 'v' && forall i :: |a| < i < |s| ==> s[i] != 'v'
  {
    DecimalHoldsDigits(n);
    var s := a + "v" + Decimal(n);
    forall i | |a| < i < |s| ensures s[i] != 'v' {
      assert s[i] == Decimal(n)[i - |a| - 1];
    }
  }

  /** The epoch is what follows the last `v`. */
  lemma EpochIsSuffix(a: string, m: nat, b: string, n: nat)
    requires a + "v" + Decimal(m) == b + "v" + Decimal(n)
    ensures a == b && m == n
  {
    var s, t := a + "v" + Decimal(m), b + "v" + Decimal(n);
    LastV(a, m);
    LastV(b, n);
    assert |a| == |b|;
    assert s[..|a|] == a && t[..|b|] == b;
    assert s[|a| + 1..] == Decimal(m) && t[|b| + 1..] == Decimal(n);
    DecimalInjective(m, n);
  }

  lemma ChannelInPrefix(w: string, c: ChannelId)
    ensures var a := w + ":" + c + ":content:v"; |a| == |w| + |c| + 11 && a[|w| + 1..|a| - 10] == c
  {
    var a := w + ":" + c + ":content:v";
    assert a == (w + ":") + c + ":content:v";
  }

  /** Within one workspace no two rings ever use the same id, whatever their epochs and whatever the
      channels are called. */
  lemma RingsDiffer(o: RingOwner, m: nat, p: RingOwner, n: nat)
    requires o.workspace == p.workspace
    ensures KeyIdFor(o, m) == KeyIdFor(p, n) <==> o == p && m == n
  {
    if KeyIdFor(o, m) == KeyIdFor(p, n) {
      var a, b := Prefix(o)[..|Prefix(o)| - 1], Prefix(p)[..|Prefix(p)| - 1];
      assert Prefix(o) == a + "v" && Prefix(p) == b + "v";
      EpochIsSuffix(a, m, b, n);
      if o.OfChannel? && p.OfChannel? {
        ChannelInPrefix(o.workspace, o.channel);
        ChannelInPrefix(p.workspace, p.channel);
      }
    }
  }

  // ---------- generate, rotate, resolve ----------

  function Generate(owner: RingOwner, key: Key): Ring {
    Ring(owner, 1, KeyIdFor(owner, 1), key, [])
  }

  function Rotated(r: Ring, next: Key): Ring {
    Ring(r.owner, r.epoch + 1, KeyIdFor(r.owner, r.epoch + 1), next, r.previous + [Material(r.keyId, r.key)])
  }

  function FindKey(keys: seq<Material>, id: string): (r: Option<Material>)
    ensures r.Some? ==> r.value in keys && r.value.keyId == id
    ensures r.None? ==> forall m :: m in keys ==> m.keyId != id
  {
    if keys == [] then None
    else if keys[0].keyId == id then Some(keys[0])
    else FindKey(keys[1..], id)
  }

  function Resolve(r: Ring, id: string): Option<Material> {
    if r.keyId == id then Some(Material(r.keyId, r.key)) else FindKey(r.previous, id)
  }

  lemma {:induction false} FindKeyConcat(a: seq<Material>, b: seq<Material>, id: string)
    ensures FindKey(a + b, id) == if FindKey(a, id).Some? then FindKey(a, id) else FindKey(b, id)
  {
    if a == [] {
      assert a + b == b;
    } else {
      assert (a + b)[1..] == a[1..] + b;
      FindKeyConcat(a[1..], b, id);
    }
  }

  /** What rotation does to every id, for any ring at all. */
  lemma RotatedResolves(r: Ring, next: Key, id: string)
    ensures Resolve(Rotated(r, next), id) ==
            if id == KeyIdFor(r.owner, r.epoch + 1) then Some(Material(id, next))
            else if FindKey(r.previous, id).Some? then FindKey(r.previous, id)
            else Resolve(r, id)
  {
    FindKeyConcat(r.previous, [Material(r.keyId, r.key)], id);
  }

  /** Does no old key stand under the current id or under the id that comes next? */
  predicate Unshadowed(r: Ring, next: Key) {
    && (var m := FindKey(r.previous, r.keyId); m.Some? ==> m.value.key == r.key)
    && (var m := Resolve(r, KeyIdFor(r.owner, r.epoch + 1)); m.Some? ==> m.value.key == next)
  }

  ghost predicate KeepsAll(r: Ring, s: Ring) {
    forall id :: Resolve(r, id).Some? ==> Resolve(s, id) == Resolve(r, id)
  }

  /** A ring read from disk may hold anything in its list of old keys. Rotating it keeps every key
      under its id exactly when that list does not shadow the current or the next id. */
  lemma RotationKeepsExactly(r: Ring, next: Key)
    requires Consistent(r)
    ensures KeepsAll(r, Rotated(r, next)) <==> Unshadowed(r, next)
  {
    var nextId := KeyIdFor(r.owner, r.epoch + 1);
    KeyIdsDiffer(r.owner, r.epoch, r.epoch + 1);
    forall id
      ensures Unshadowed(r, next) && Resolve(r, id).Some? ==> Resolve(Rotated(r, next), id) == Resolve(r, id)
    {
      RotatedResolves(r, next, id);
    }
    RotatedResolves(r, next, nextId);
    RotatedResolves(r, next, r.keyId);
  }

  // ---------- runs of rotations ----------

  function Rotations(r: Ring, keys: seq<Key>): Ring {
    if keys == [] then r else Rotated(Rotations(r, keys[..|keys| - 1]), keys[|keys| - 1])
  }

  /** The ring holds key `keys[i]` under the id of epoch `i + 1` and nothing else. */
  ghost predicate Holds(r: Ring, owner: RingOwner, keys: seq<Key>) {
    && keys != []
    && r.owner == owner && r.epoch == |keys|
    && r.keyId == KeyIdFor(owner, |keys|) && r.key == keys[|keys| - 1]
    && |r.previous| == |keys| - 1
    && forall i :: 0 <= i < |r.previous| ==> r.previous[i] == Material(KeyIdFor(owner, i + 1), keys[i])
  }

  lemma RotatedHolds(r: Ring, owner: RingOwner, keys: seq<Key>, next: Key)
    requires Holds(r, owner, keys)
    ensures Holds(Rotated(r, next), owner, keys + [next])
  {
  }

  lemma {:induction false} RotationsHold(owner: RingOwner, first: Key, keys: seq<Key>)
    ensures Holds(Rotations(Generate(owner, first), keys), owner, [first] + keys)
  {
    if keys != [] {
      var last := |keys| - 1;
      RotationsHold(owner, first, keys[..last]);
      RotatedHolds(Rotations(Generate(owner, first), keys[..last]), owner, [first] + keys[..last], keys[last]);
      assert [first] + keys == [first] + keys[..last] + [keys[last]];
    }
  }

  lemma {:induction false} FindUnique(keys: seq<Material>, k: nat)
    requires k < |keys| && forall i :: 0 <= i < k ==> keys[i].keyId != keys[k].keyId
    ensures FindKey(keys, keys[k].keyId) == Some(keys[k])
  {
    if k > 0 {
      FindUnique(keys[1..], k - 1);
    }
  }

  /** Each epoch's id resolves to that epoch's key. */
  lemma HeldKeyResolves(r: Ring, owner: RingOwner, keys: seq<Key>, i: nat)
    requires Holds(r, owner, keys) && i < |keys|
    ensures Resolve(r, KeyIdFor(owner, i + 1)) == Some(Material(KeyIdFor(owner, i + 1), keys[i]))
  {
    KeyIdsDiffer(owner, i + 1, |keys|);
    if i < |keys| - 1 {
      forall j | 0 <= j < i ensures r.previous[j].keyId != r.previous[i].keyId {
        KeyIdsDiffer(owner, j + 1, i + 1);
      }
      FindUnique(r.previous, i);
    }
  }

  /** After any number of rotations every id that was ever current resolves to exactly the key it
      named, no other id resolves, ids are distinct and the epoch counts the rotations. */
  lemma EveryKeyStaysResolvable(owner: RingOwner, first: Key, keys: seq<Key>)
    ensures var r := Rotations(Generate(owner, first), keys); var all := [first] + keys;
            && r.epoch == |keys| + 1
            && (forall e, f :: 1 <= e < f <= |all| ==> KeyIdFor(owner, e) != KeyIdFor(owner, f))
            && (forall e :: 1 <= e <= |all| ==>
                  Resolve(r, KeyIdFor(owner, e)) == Some(Material(KeyIdFor(owner, e), all[e - 1])))
            && (forall id :: Resolve(r, id).Some? ==> exists e :: 1 <= e <= |all| && id == KeyIdFor(owner, e))
  {
    var r, all := Rotations(Generate(owner, first), keys), [first] + keys;
    RotationsHold(owner, first, keys);
    forall e, f | 1 <= e < f <= |all|
      ensures KeyIdFor(owner, e) != KeyIdFor(owner, f)
    {
      KeyIdsDiffer(owner, e, f);
    }
    forall e | 1 <= e <= |all|
      ensures Resolve(r, KeyIdFor(owner, e)) == Some(Material(KeyIdFor(owner, e), all[e - 1]))
    {
      HeldKeyResolves(r, owner, all, e - 1);
    }
    forall id | Resolve(r, id).Some?
      ensures exists e :: 1 <= e <= |all| && id == KeyIdFor(owner, e)
    {
      if id == r.keyId {
        assert id == KeyIdFor(owner, |keys| + 1);
      } else {
        var m := FindKey(r.previous, id).value;
        var i :| 0 <= i < |r.previous| && r.previous[i] == m;
        assert id == KeyIdFor(owner, i + 1);
      }
    }
  }

  /** Rings that grew by rotation never shadow a key, whatever key comes next. */
  lemma HeldRingsRotateSafely(r: Ring, owner: RingOwner, keys: seq<Key>, next: Key)
    requires Holds(r, owner, keys)
    ensures Unshadowed(r, next) && KeepsAll(r, Rotated(r, next))
  {
    forall m | m in r.previous
      ensures m.keyId != r.keyId && m.keyId != KeyIdFor(owner, r.epoch + 1)
    {
      var i :| 0 <= i < |r.previous| && r.previous[i] == m;
      KeyIdsDiffer(owner, i + 1, r.epoch);
      KeyIdsDiffer(owner, i + 1, r.epoch + 1);
    }
    KeyIdsDiffer(owner, r.epoch, r.epoch + 1);
    RotationKeepsExactly(r, next);
  }

  // ---------- persisted and exported form ----------

  datatype RawMaterial = RawMaterial(keyId: string, key: Bytes)

  /** The stored record and the exported record carry the same fields. */
  datatype Record = Record(schema: nat, owner: RingOwner, epoch: nat, keyId: string, key: Bytes,
                           previous: seq<RawMaterial>)

  datatype Error = InvalidKey | UnsupportedExport

  datatype Result<T> = Ok(value: T) | Err(error: Error)

  function ToRecord(r: Ring): Record {
    Record(SchemaVersion, r.owner, r.epoch, r.keyId, r.key,
           seq(|r.previous|, i requires 0 <= i < |r.previous| => RawMaterial(r.previous[i].keyId, r.previous[i].key)))
  }

  function DecodeMaterial(m: RawMaterial): Result<Material> {
    if |m.key| != KeyLength then Err(InvalidKey) else Ok(Material(m.keyId, m.key))
  }

  function DecodeAll(keys: seq<RawMaterial>): (r: Result<seq<Material>>)
    ensures r.Ok? <==> forall i :: 0 <= i < |keys| ==> |keys[i].key| == KeyLength
    ensures r.Ok? ==> |r.value| == |keys|
                      && forall i :: 0 <= i < |keys| ==> keys[i] == RawMaterial(r.value[i].keyId, r.value[i].key)
    ensures r.Err? ==> r.error == InvalidKey
  {
    if keys == [] then Ok([])
    else
      match DecodeMaterial(keys[0])
      case Err(e) => Err(e)
      case Ok(m) =>
        match DecodeAll(keys[1..])
        case Err(e) => Err(e)
        case Ok(rest) => Ok([m] + rest)
  }

  function AtLeastOne(n: nat): nat {
    if n == 0 then 1 else n
  }

  /** Reads a stored or exported record; the two differ in the error for an unknown schema. */
  function FromRecord(p: Record, unsupported: Error): (r: Result<Ring>)
    ensures r.Ok? ==> Consistent(r.value)
  {
    if p.schema != 1 && p.schema != SchemaVersion then Err(unsupported)
    else
      var epoch := AtLeastOne(p.epoch);
      if p.keyId != KeyIdFor(p.owner, epoch) then Err(InvalidKey)
      else if |p.key| != KeyLength then Err(InvalidKey)
      else
        match DecodeAll(p.previous)
        case Err(e) => Err(e)
        case Ok(previous) => Ok(Ring(p.owner, epoch, p.keyId, p.key, previous))
  }

  /** The key id is the one of the epoch. */
  predicate Consistent(r: Ring) {
    r.epoch >= 1 && r.keyId == KeyIdFor(r.owner, r.epoch)
  }

  ghost predicate Readable(p: Record) {
    && (p.schema == 1 || p.schema == SchemaVersion)
    && p.keyId == KeyIdFor(p.owner, AtLeastOne(p.epoch))
    && |p.key| == KeyLength
    && forall i :: 0 <= i < |p.previous| ==> |p.previous[i].key| == KeyLength
  }

  /** Storing and loading gives back the same ring exactly for consistent rings. */
  lemma RingRoundTrip(r: Ring, unsupported: Error)
    ensures FromRecord(ToRecord(r), unsupported) == Ok(r) <==> Consistent(r)
  {
    if Consistent(r) {
      var back := DecodeAll(ToRecord(r).previous);
      forall i | 0 <= i < |r.previous| ensures back.value[i] == r.previous[i] {
        assert ToRecord(r).previous[i] == RawMaterial(back.value[i].keyId, back.value[i].key);
      }
      assert back.value == r.previous;
    }
  }

  /** A record is accepted exactly when it is readable, and is written back with the current
      schema and an epoch of at least one, every key unchanged. */
  lemma RecordRoundTrip(p: Record, unsupported: Error)
    ensures FromRecord(p, unsupported).Ok? <==> Readable(p)
    ensures Readable(p) ==>
              ToRecord(FromRecord(p, unsupported).value)
              == p.(schema := SchemaVersion, epoch := AtLeastOne(p.epoch))
  {
    if Readable(p) {
      var r := FromRecord(p, unsupported).value;
      assert ToRecord(r).previous == p.previous;
    }
  }

  lemma HeldIsConsistent(r: Ring, owner: RingOwner, keys: seq<Key>)
    requires Holds(r, owner, keys)
    ensures Consistent(r)
  {
  }

  /** Rotating, storing and loading in any order loses no key: a reloaded ring is the ring. */
  lemma ReloadedRingKeepsRotating(owner: RingOwner, first: Key, keys: seq<Key>, more: seq<Key>, unsupported: Error)
    ensures var stored := FromRecord(ToRecord(Rotations(Generate(owner, first), keys)), unsupported);
            stored.Ok? && Rotations(stored.value, more) == Rotations(Generate(owner, first), keys + more)
  {
    var r := Rotations(Generate(owner, first), keys);
    RotationsHold(owner, first, keys);
    HeldIsConsistent(r, owner, [first] + keys);
    RingRoundTrip(r, unsupported);
    RotationsConcat(Generate(owner, first), keys, more);
  }

  lemma {:induction false} RotationsConcat(r: Ring, a: seq<Key>, b: seq<Key>)
    ensures Rotations(Rotations(r, a), b) == Rotations(r, a + b)
  {
    if b == [] {
      assert a + b == a;
    } else {
      assert (a + b)[..|a + b| - 1] == a + b[..|b| - 1];
      RotationsConcat(r, a, b[..|b| - 1]);
    }
  }

  function Filled(b: int): (k: Key)
    ensures forall i :: 0 <= i < |k| ==> k[i] == b
  {
    seq(KeyLength, i => b)
  }

  /** A stored ring of epoch one whose list of old keys already names the id of epoch two. */
  function ShadowingRecord(owner: RingOwner): Record {
    Record(SchemaVersion, owner, 1, KeyIdFor(owner, 1), Filled(1), [RawMaterial(KeyIdFor(owner, 2), Filled(2))])
  }

  /** It is accepted, resolves the id of epoch two, and loses that key when it rotates. */
  lemma RotationCanLoseAKey(owner: RingOwner)
    ensures var p := ShadowingRecord(owner); var id := KeyIdFor(owner, 2);
            && Readable(p) && FromRecord(p, InvalidKey).Ok?
            && var r := FromRecord(p, InvalidKey).value;
               && Resolve(r, id) == Some(Material(id, Filled(2)))
               && Resolve(Rotated(r, Filled(3)), id) == Some(Material(id, Filled(3)))
               && !KeepsAll(r, Rotated(r, Filled(3))) && !Unshadowed(r, Filled(3))
  {
    var p := ShadowingRecord(owner);
    RecordRoundTrip(p, InvalidKey);
    var r := FromRecord(p, InvalidKey).value;
    var id := KeyIdFor(owner, 2);
    KeyIdsDiffer(owner, 1, 2);
    assert r.previous == [Material(id, Filled(2))];
    assert Resolve(r, id) == Some(Material(id, Filled(2)));
    RotatedResolves(r, Filled(3), id);
    assert Filled(2)[0] != Filled(3)[0];
    RotationKeepsExactly(r, Filled(3));
  }

  // ---------- the ring object ----------

  class ContentKeys {
    const owner: RingOwner
    var epoch: nat
    var keyId: string
    var key: Key
    var previous: seq<Material>

    constructor (owner: RingOwner, key: Key)
      ensures View() == Generate(owner, key)
    {
      this.owner, epoch, keyId, this.key, previous := owner, 1, KeyIdFor(owner, 1), key, [];
    }

    function View(): Ring
      reads this
    {
      Ring(owner, epoch, keyId, key, previous)
    }

    method Rotate(next: Key)
      modifies this
      ensures View() == Rotated(old(View()), next)
    {
      var nextEpoch := epoch + 1;
      var old' := Material(keyId, key);
      keyId := KeyIdFor(owner, nextEpoch);
      key := next;
      previous := previous + [old'];
      epoch := nextEpoch;
    }

    method ResolveKey(id: string) returns (r: Option<Material>)
      ensures r == Resolve(View(), id)
    {
      if keyId == id {
        return Some(Material(keyId, key));
      }
      var i := 0;
      while i < |previous|
        invariant 0 <= i <= |previous|
        invariant FindKey(previous, id) == FindKey(previous[i..], id)
      {
        if previous[i].keyId == id {
          return Some(previous[i]);
        }
        i := i + 1;
      }
      r := None;
    }
  }
}
