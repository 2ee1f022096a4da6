/** Fingerprints of event inventories: every id is written as its length in eight little-endian bytes
    followed by its bytes, and the stream is hashed. Strings stand for their bytes.

    BLAKE3 is taken as an ideal hash: a digest determines the stream it was computed from.
 */
module Fingerprints {
  import opened Events

  datatype Digest = Digest(stream: seq<int>)

  // ---------- the length-prefixed encoding ----------

  const Width: nat := 8

  function Pow256(k: nat): (p: nat)
    ensures p >= 1
  {
    if k == 0 then 1 else 256 * Pow256(k - 1)
  }

  /** The `k` low bytes of `n`, least significant first. */
  function LittleEndian(n: nat, k: nat): (r: seq<int>)
    ensures |r| == k
  {
    if k == 0 then [] else [n % 256] + LittleEndian(n / 256, k - 1)
  }

  function FromLittleEndian(s: seq<int>): int {
    if s == [] then 0 else s[0] + 256 * FromLittleEndian(s[1..])
  }

  lemma {:induction false} LittleEndianRoundTrip(n: nat, k: nat)
    requires n < Pow256(k)
    ensures FromLittleEndian(LittleEndian(n, k)) == n
  {
    if k > 0 {
      LittleEndianRoundTrip(n / 256, k - 1);
      var r := LittleEndian(n, k);
      assert r[1..] == LittleEndian(n / 256, k - 1) && r[0] == n % 256;
    }
  }

  lemma LittleEndianInjective(m: nat, n: nat, k: nat)
    requires m < Pow256(k) && n < Pow256(k) && LittleEndian(m, k) == LittleEndian(n, k)
    ensures m == n
  {
    LittleEndianRoundTrip(m, k);
    LittleEndianRoundTrip(n, k);
  }

  function Codes(s: string): (r: seq<int>)
    ensures |r| == |s| && forall i :: 0 <= i < |s| ==> r[i] == s[i] as int
  {
    seq(|s|, i requires 0 <= i < |s| => s[i] as int)
  }

  lemma CodesInjective(s: string, t: string)
    requires Codes(s) == Codes(t)
    ensures s == t
  {
    assert |s| == |t|;
    forall i | 0 <= i < |s|
      ensures s[i] == t[i]
    {
      assert Codes(s)[i] == Codes(t)[i];
    }
  }

  function Prefixed(id: string): (r: seq<int>)
    ensures |r| == Width + |id|
  {
    LittleEndian(|id|, Width) + Codes(id)
  }

  function Encode(ids: seq<string>): seq<int> {
    if ids == [] then [] else Prefixed(ids[0]) + Encode(ids[1..])
  }

  ghost predicate Representable(ids: seq<string>) {
    forall i :: 0 <= i < |ids| ==> |ids[i]| < Pow256(Width)
  }

  /** The length prefix makes one id readable in front of anything. */
  lemma PrefixedIsReadable(a: string, b: string, x: seq<int>, y: seq<int>)
    requires |a| < Pow256(Width) && |b| < Pow256(Width)
    requires Prefixed(a) + x == Prefixed(b) + y
    ensures a == b && x == y
  {
    var left, right := Prefixed(a) + x, Prefixed(b) + y;
    assert left[..Width] == LittleEndian(|a|, Width) && right[..Width] == LittleEndian(|b|, Width);
    LittleEndianInjective(|a|, |b|, Width);
    assert left[Width..Width + |a|] == Codes(a) && right[Width..Width + |a|] == Codes(b);
    CodesInjective(a, b);
    assert left[Width + |a|..] == x && right[Width + |a|..] == y;
  }

  /** The stream identifies the sequence of ids, however they are cut. */
  lemma {:induction false} EncodeInjective(a: seq<string>, b: seq<string>)
    requires Representable(a) && Representable(b) && Encode(a) == Encode(b)
    ensures a == b
  {
    if a == [] || b == [] {
      assert a != [] ==> |Encode(a)| >= Width;
      assert b != [] ==> |Encode(b)| >= Width;
    } else {
      PrefixedIsReadable(a[0], b[0], Encode(a[1..]), Encode(b[1..]));
      EncodeInjective(a[1..], b[1..]);
      assert a == [a[0]] + a[1..] && b == [b[0]] + b[1..];
    }
  }

  // ---------- sorting ids ----------

  predicate Le(a: string, b: string) {
    if a == [] then true
    else if b == [] then false
    else a[0] < b[0] || (a[0] == b[0] && Le(a[1..], b[1..]))
  }

  lemma {:induction false} LeTotal(a: string, b: string)
    ensures Le(a, b) || Le(b, a)
  {
    if a != [] && b != [] {
      LeTotal(a[1..], b[1..]);
    }
  }

  lemma {:induction false} LeAntisymmetric(a: string, b: string)
    requires Le(a, b) && Le(b, a)
    ensures a == b
  {
    if a != [] && b != [] {
      LeAntisymmetric(a[1..], b[1..]);
      assert a == [a[0]] + a[1..] && b == [b[0]] + b[1..];
    }
  }

  lemma {:induction false} LeTransitive(a: string, b: string, c: string)
    requires Le(a, b) && Le(b, c)
    ensures Le(a, c)
  {
    if a != [] && b != [] && c != [] && a[0] == b[0] == c[0] {
      LeTransitive(a[1..], b[1..], c[1..]);
    }
  }

  ghost predicate Sorted(s: seq<string>) {
    forall i, j :: 0 <= i < j < |s| ==> Le(s[i], s[j])
  }

  function Insert(x: string, s: seq<string>): (r: seq<string>)
    ensures multiset(r) == multiset(s) + multiset{x}
  {
    if s == [] || Le(x, s[0]) then [x] + s
    else
      assert s == [s[0]] + s[1..];
      [s[0]] + Insert(x, s[1..])
  }

  function Sort(s: seq<string>): (r: seq<string>)
    ensures multiset(r) == multiset(s)
  {
    if s == [] then []
    else
      assert s == [s[0]] + s[1..];
      Insert(s[0], Sort(s[1..]))
  }

  lemma {:induction false} InsertSorts(x: string, s: seq<string>)
    requires Sorted(s)
    ensures Sorted(Insert(x, s))
  {
    if s != [] {
      if Le(x, s[0]) {
        forall i | 0 <= i < |s| ensures Le(x, s[i]) {
          if i > 0 { LeTransitive(x, s[0], s[i]); }
        }
      } else {
        LeTotal(x, s[0]);
        InsertSorts(x, s[1..]);
        var rest := Insert(x, s[1..]);
        forall i | 0 <= i < |rest| ensures Le(s[0], rest[i]) {
          assert rest[i] in multiset(rest);
          assert rest[i] == x || rest[i] in s[1..];
        }
      }
    }
  }

  lemma {:induction false} SortSorts(s: seq<string>)
    ensures Sorted(Sort(s))
  {
    if s != [] {
      SortSorts(s[1..]);
      InsertSorts(s[0], Sort(s[1..]));
    }
  }

  lemma HeadIsLeast(a: seq<string>, x: string)
    requires Sorted(a) && x in a
    ensures Le(a[0], x)
  {
    LeReflexive(x);
  }

  lemma SortedHeadsAgree(a: seq<string>, b: seq<string>)
    requires Sorted(a) && Sorted(b) && multiset(a) == multiset(b) && a != [] && b != []
    ensures a[0] == b[0]
  {
    assert a[0] in multiset(a) && b[0] in multiset(b);
    assert a[0] in b && b[0] in a;
    HeadIsLeast(b, a[0]);
    HeadIsLeast(a, b[0]);
    LeAntisymmetric(a[0], b[0]);
  }

  lemma TailsPermute(a: seq<string>, b: seq<string>)
    requires multiset(a) == multiset(b) && a != [] && b != [] && a[0] == b[0]
    ensures multiset(a[1..]) == multiset(b[1..])
  {
    assert a == [a[0]] + a[1..] && b == [b[0]] + b[1..];
    assert multiset(a[1..]) == multiset(a) - multiset{a[0]};
    assert multiset(b[1..]) == multiset(b) - multiset{b[0]};
  }

  /** Two sorted sequences of the same ids are one sequence. */
  lemma {:induction false} SortedUnique(a: seq<string>, b: seq<string>)
    requires Sorted(a) && Sorted(b) && multiset(a) == multiset(b)
    ensures a == b
  {
    assert |a| == |multiset(a)| == |multiset(b)| == |b|;
    if a != [] {
      SortedHeadsAgree(a, b);
      TailsPermute(a, b);
      SortedUnique(a[1..], b[1..]);
      assert a == [a[0]] + a[1..] && b == [b[0]] + b[1..];
    }
  }

  lemma LeReflexive(x: string)
    ensures Le(x, x)
  {
    LeTotal(x, x);
  }

  // ---------- fingerprints ----------

  function SequenceFingerprint(ids: seq<string>): Digest {
    Digest(Encode(ids))
  }

  function InventoryFingerprint(ids: seq<string>): Digest {
    Digest(Encode(Sort(ids)))
  }

  /** The unsorted fingerprint identifies the exact sequence. */
  lemma SequenceFingerprintIdentifies(a: seq<string>, b: seq<string>)
    requires Representable(a) && Representable(b)
    ensures SequenceFingerprint(a) == SequenceFingerprint(b) <==> a == b
  {
    if Encode(a) == Encode(b) {
      EncodeInjective(a, b);
    }
  }

  lemma RepresentablePermutes(a: seq<string>, b: seq<string>)
    requires multiset(a) == multiset(b) && Representable(a)
    ensures Representable(b)
  {
    forall i | 0 <= i < |b| ensures |b[i]| < Pow256(Width) {
      assert b[i] in multiset(a);
      assert b[i] in a;
    }
  }

  /** The sorted fingerprint identifies exactly the multiset of ids. */
  lemma InventoryFingerprintIdentifies(a: seq<string>, b: seq<string>)
    requires Representable(a) && Representable(b)
    ensures InventoryFingerprint(a) == InventoryFingerprint(b) <==> multiset(a) == multiset(b)
  {
    SortSorts(a);
    SortSorts(b);
    RepresentablePermutes(a, Sort(a));
    RepresentablePermutes(b, Sort(b));
    if Encode(Sort(a)) == Encode(Sort(b)) {
      EncodeInjective(Sort(a), Sort(b));
    }
    if multiset(a) == multiset(b) {
      SortedUnique(Sort(a), Sort(b));
    }
  }
}
