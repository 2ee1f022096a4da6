/** Names of the files in a portable export: sanitised components joined with a digest, so that
    distinct attachments and channels never share a path.

    `hex` is the hash in hexadecimal; what is needed of it is stated for the inputs used.
 */
module ArchiveNames {
  import opened Events
  import opened Fingerprints
  import KeyRing

  type Hex = seq<int> -> string

  const DigestLength: nat := 64
  const ShortLength: nat := 24

  // ---------- sanitised components ----------

  predicate Kept(c: char) {
    'a' <= c <= 'z' || 'A' <= c <= 'Z' || '0' <= c <= '9' || Edge(c)
  }

  predicate Edge(c: char) {
    c == '-' || c == '_' || c == '.'
  }

  function Lower(c: char): (r: char)
    requires Kept(c)
    ensures Kept(r) && !('A' <= r <= 'Z')
  {
    if 'A' <= c <= 'Z' then (c as int - 'A' as int + 'a' as int) as char else c
  }

  /** Allowed characters in lower case; a run of others becomes one dash between kept ones. */
  function Scan(value: string, done: string, gap: bool, max: nat): (r: string)
    ensures done <= r
    decreases |value|
  {
    if value == [] || |done| >= max then done
    else if Kept(value[0]) then
      Scan(value[1..], Extended(done, gap, value[0]), false, max)
    else Scan(value[1..], done, true, max)
  }

  function TrimStart(s: string): (r: string)
    ensures |r| <= |s| && r == s[|s| - |r|..]
    ensures r != [] ==> !Edge(r[0])
  {
    if s != [] && Edge(s[0]) then TrimStart(s[1..]) else s
  }

  function TrimEnd(s: string): (r: string)
    ensures r <= s
    ensures r != [] ==> !Edge(r[|r| - 1])
  {
    if s != [] && Edge(s[|s| - 1]) then TrimEnd(s[..|s| - 1]) else s
  }

  function SafeComponent(value: string, fallback: string, max: nat): string {
    var r := TrimEnd(TrimStart(Scan(value, [], false, max)));
    if r == [] then fallback else r
  }

  predicate Plain(s: string) {
    forall i :: 0 <= i < |s| ==> Kept(s[i]) && !('A' <= s[i] <= 'Z')
  }

  lemma {:induction false} ScanIsPlain(value: string, done: string, gap: bool, max: nat)
    requires Plain(done)
    ensures Plain(Scan(value, done, gap, max))
    ensures |done| <= max + 1 ==> |Scan(value, done, gap, max)| <= max + 1
    decreases |value|
  {
    if value != [] && |done| < max {
      if Kept(value[0]) {
        ScanIsPlain(value[1..], Extended(done, gap, value[0]), false, max);
      } else {
        ScanIsPlain(value[1..], done, true, max);
      }
    }
  }

  lemma TrimStartIsPlain(s: string)
    requires Plain(s)
    ensures Plain(TrimStart(s))
  {
    var r := TrimStart(s);
    assert forall i :: 0 <= i < |r| ==> r[i] == s[|s| - |r| + i];
  }

  lemma TrimEndIsPlain(s: string)
    requires Plain(s) && (s != [] ==> !Edge(s[0]))
    ensures var r := TrimEnd(s);
            Plain(r) && |r| <= |s| && (r != [] ==> !Edge(r[0]) && !Edge(r[|r| - 1]))
  {
    var r := TrimEnd(s);
    assert forall i :: 0 <= i < |r| ==> r[i] == s[i];
  }

  predicate FallbackOk(fallback: string) {
    fallback != [] && Plain(fallback) && !Edge(fallback[0]) && !Edge(fallback[|fallback| - 1])
  }

  /** A component is never empty and holds only lower-case letters, digits, '-', '_' and '.'; it
      neither starts nor ends with one of the last three, so it is never "." or "..". */
  lemma ComponentIsSafe(value: string, fallback: string, max: nat)
    requires FallbackOk(fallback)
    ensures var r := SafeComponent(value, fallback, max);
            r != [] && Plain(r) && !Edge(r[0]) && !Edge(r[|r| - 1]) && (r != fallback ==> |r| <= max + 1)
  {
    ScanIsPlain(value, [], false, max);
    var raw := Scan(value, [], false, max);
    TrimStartIsPlain(raw);
    TrimEndIsPlain(TrimStart(raw));
  }

  /** The character in lower case. */
  function AsLower(c: char): char {
    if 'A' <= c <= 'Z' then ['a', 'b', 'c', 'd', 'e', 'f', 'g', 'h', 'i', 'j', 'k', 'l', 'm', 'n', 'o', 'p', 'q', 'r', 's', 't',
                             'u', 'v', 'w', 'x', 'y', 'z'][c as int - 'A' as int]
    else c
  }

  lemma {:induction false} ScanKept(value: string, done: string, max: nat)
    requires (forall i :: 0 <= i < |value| ==> Kept(value[i])) && |done| + |value| <= max
    ensures |Scan(value, done, false, max)| == |done| + |value|
    ensures forall i :: 0 <= i < |value| ==> Scan(value, done, false, max)[|done| + i] == AsLower(value[i])
    decreases |value|
  {
    if value != [] {
      ScanKept(value[1..], done + [Lower(value[0])], max);
      assert Extended(done, false, value[0]) == done + [Lower(value[0])];
      assert forall i :: 1 <= i < |value| ==> value[i] == value[1..][i - 1];
    }
  }

  /** A name of allowed characters within the limit keeps every one of them, in lower case; so a
      component that was made once is never changed again. */
  lemma AllowedNameIsKept(value: string, fallback: string, max: nat)
    requires value != [] && |value| <= max && forall i :: 0 <= i < |value| ==> Kept(value[i])
    requires !Edge(value[0]) && !Edge(value[|value| - 1])
    ensures |SafeComponent(value, fallback, max)| == |value|
    ensures forall i :: 0 <= i < |value| ==> SafeComponent(value, fallback, max)[i] == AsLower(value[i])
  {
    ScanKept(value, [], max);
    var r := Scan(value, [], false, max);
    assert r[0] == AsLower(value[0]) && r[|r| - 1] == AsLower(value[|value| - 1]);
    assert !Edge(r[0]) && !Edge(r[|r| - 1]);
  }

  predicate Word(s: string) {
    forall i :: 0 <= i < |s| ==> 'a' <= s[i] <= 'z'
  }

  lemma {:induction false} ScanWord(word: string, rest: string, done: string, max: nat)
    requires Word(word) && |done| + |word| <= max
    ensures Scan(word + rest, done, false, max) == Scan(rest, done + word, false, max)
  {
    if word == [] {
      assert word + rest == rest && done + word == done;
    } else {
      assert word + rest == [word[0]] + (word[1..] + rest);
      ScanStep(word[0], word[1..] + rest, done, false, max);
      ScanWord(word[1..], rest, done + [word[0]], max);
      assert done + [word[0]] + word[1..] == done + word;
    }
  }

  /** The stated maximum can be exceeded by one: when one place is left, a separator and a
      character are still added together. */
  lemma ComponentCanExceedMaximum(word: string, c: char, fallback: string, max: nat)
    requires Word(word) && 'a' <= c <= 'z' && |word| == max - 1 && max >= 2
    ensures SafeComponent(word + [' ', c], fallback, max) == word + ['-', c]
    ensures |SafeComponent(word + [' ', c], fallback, max)| == max + 1
  {
    ScanWord(word, [' ', c], [], max);
    assert [] + word == word;
    ScanStep(' ', [c], word, false, max);
    assert [' '] + [c] == [' ', c];
    ScanStep(c, [], word, true, max);
    assert [c] + [] == [c];
    var r := word + ['-', c];
    assert Scan([], r, false, max) == r;
    assert !Edge(r[0]) && !Edge(r[|r| - 1]);
  }

  // ---------- exactly when a component is too long ----------

  /** The component text without any limit. */
  function Collapse(value: string, done: string, gap: bool): string
    decreases |value|
  {
    if value == [] then done
    else if Kept(value[0]) then Collapse(value[1..], Extended(done, gap, value[0]), false)
    else Collapse(value[1..], done, true)
  }

  /** Exactly `max - 1` characters are collected when a run of dropped characters, between positions
      `i` and `j`, is followed by one more kept character. */
  ghost predicate OverflowsAt(value: string, done: string, gap: bool, max: nat, i: nat, j: nat) {
    && i <= j < |value| && Kept(value[j])
    && (forall k :: i <= k < j ==> !Kept(value[k]))
    && (i > 0 ==> Kept(value[i - 1]))
    && (i < j || (i == 0 && gap))
    && var before := Collapse(value[..i], done, gap); before != [] && |before| + 1 == max
  }

  ghost predicate Overflows(value: string, done: string, gap: bool, max: nat) {
    exists i: nat, j: nat :: OverflowsAt(value, done, gap, max, i, j)
  }

  lemma KeptStepOverflows(value: string, done: string, gap: bool, max: nat)
    requires value != [] && Kept(value[0]) && |done| < max
    ensures Overflows(value, done, gap, max) <==>
            (gap && done != [] && |done| + 1 == max) || Overflows(value[1..], Extended(done, gap, value[0]), false, max)
  {
    var rest, more := value[1..], Extended(done, gap, value[0]);
    if Overflows(rest, more, false, max) {
      var i: nat, j: nat :| OverflowsAt(rest, more, false, max, i, j);
      CollapseCons(value, done, gap, i + 1);
      assert OverflowsAt(value, done, gap, max, i + 1, j + 1) by {
        assert forall k :: i + 1 <= k < j + 1 ==> value[k] == rest[k - 1];
      }
    }
    if gap && done != [] && |done| + 1 == max {
      assert value[..0] == [];
      assert OverflowsAt(value, done, gap, max, 0, 0);
    }
    if Overflows(value, done, gap, max) {
      var i: nat, j: nat :| OverflowsAt(value, done, gap, max, i, j);
      if i == 0 {
        assert value[..0] == [];
      } else {
        CollapseCons(value, done, gap, i);
        assert OverflowsAt(rest, more, false, max, i - 1, j - 1) by {
          assert forall k :: i - 1 <= k < j - 1 ==> rest[k] == value[k + 1];
        }
      }
    }
  }

  lemma CollapseCons(value: string, done: string, gap: bool, i: nat)
    requires 0 < i <= |value|
    ensures Collapse(value[..i], done, gap) ==
            if Kept(value[0]) then Collapse(value[1..][..i - 1], Extended(done, gap, value[0]), false)
            else Collapse(value[1..][..i - 1], done, true)
  {
    assert value[..i][1..] == value[1..][..i - 1];
  }

  lemma DroppedStepOverflows(value: string, done: string, gap: bool, max: nat)
    requires value != [] && !Kept(value[0])
    ensures Overflows(value, done, gap, max) <==> Overflows(value[1..], done, true, max)
  {
    var rest := value[1..];
    if Overflows(rest, done, true, max) {
      var i: nat, j: nat :| OverflowsAt(rest, done, true, max, i, j);
      if i == 0 {
        assert rest[..0] == [] && value[..0] == [];
        assert OverflowsAt(value, done, gap, max, 0, j + 1) by {
          assert forall k :: 1 <= k < j + 1 ==> value[k] == rest[k - 1];
        }
      } else {
        CollapseCons(value, done, gap, i + 1);
        assert OverflowsAt(value, done, gap, max, i + 1, j + 1) by {
          assert forall k :: i + 1 <= k < j + 1 ==> value[k] == rest[k - 1];
        }
      }
    }
    if Overflows(value, done, gap, max) {
      var i: nat, j: nat :| OverflowsAt(value, done, gap, max, i, j);
      if i == 0 {
        assert rest[..0] == [] && value[..0] == [];
        assert OverflowsAt(rest, done, true, max, 0, j - 1) by {
          assert forall k :: 0 <= k < j - 1 ==> rest[k] == value[k + 1];
        }
      } else {
        CollapseCons(value, done, gap, i);
        assert OverflowsAt(rest, done, true, max, i - 1, j - 1) by {
          assert forall k :: i - 1 <= k < j - 1 ==> rest[k] == value[k + 1];
        }
      }
    }
  }

  /** The scan stops one over the limit exactly when it overflows. */
  lemma {:induction false} ScanOverflowsExactly(value: string, done: string, gap: bool, max: nat)
    requires |done| <= max
    ensures |done| < max ==> (|Scan(value, done, gap, max)| == max + 1 <==> Overflows(value, done, gap, max))
    decreases |value|
  {
    if |done| < max && value != [] {
      if Kept(value[0]) {
        var more := Extended(done, gap, value[0]);
        KeptStepOverflows(value, done, gap, max);
        if |more| <= max {
          ScanOverflowsExactly(value[1..], more, false, max);
          if |more| == max {
            FullCollectsNoMore(value[1..], more, max);
          }
        }
      } else {
        DroppedStepOverflows(value, done, gap, max);
        ScanOverflowsExactly(value[1..], done, true, max);
      }
    }
  }

  lemma FullCollectsNoMore(value: string, done: string, max: nat)
    requires |done| == max
    ensures !Overflows(value, done, false, max)
  {
    forall i: nat, j: nat ensures !OverflowsAt(value, done, false, max, i, j) {
      if i <= |value| {
        CollapseGrows(value[..i], done, false);
      }
    }
  }

  lemma {:induction false} CollapseGrows(value: string, done: string, gap: bool)
    ensures |done| <= |Collapse(value, done, gap)| && done <= Collapse(value, done, gap)
    decreases |value|
  {
    if value != [] {
      if Kept(value[0]) {
        CollapseGrows(value[1..], Extended(done, gap, value[0]), false);
      } else {
        CollapseGrows(value[1..], done, true);
      }
    }
  }

  /** What the scan then returns. */
  lemma {:induction false} OverflowResult(value: string, done: string, gap: bool, max: nat, i: nat, j: nat)
    requires OverflowsAt(value, done, gap, max, i, j) && |done| < max
    ensures Scan(value, done, gap, max) == Collapse(value[..i], done, gap) + ['-', Lower(value[j])]
    decreases |value|
  {
    var rest := value[1..];
    if j == 0 {
      assert value[..0] == [];
      assert Extended(done, gap, value[0]) == done + ['-', Lower(value[0])];
    } else if i == 0 {
      assert value[..0] == [] && rest[..0] == [];
      assert OverflowsAt(rest, done, true, max, 0, j - 1) by {
        assert forall k :: 0 <= k < j - 1 ==> rest[k] == value[k + 1];
      }
      OverflowResult(rest, done, true, max, 0, j - 1);
    } else {
      CollapseCons(value, done, gap, i);
      var more := if Kept(value[0]) then Extended(done, gap, value[0]) else done;
      CollapseGrows(rest[..i - 1], more, !Kept(value[0]));
      assert OverflowsAt(rest, more, !Kept(value[0]), max, i - 1, j - 1) by {
        assert forall k :: i - 1 <= k < j - 1 ==> rest[k] == value[k + 1];
      }
      OverflowResult(rest, more, !Kept(value[0]), max, i - 1, j - 1);
    }
  }

  /** The name overflows the limit between two letters or digits that are not trimmed away. */
  ghost predicate TooLong(value: string, max: nat) {
    exists i: nat, j: nat ::
      OverflowsAt(value, [], false, max, i, j) && !Edge(value[j]) && !Edge(Collapse(value[..i], [], false)[0])
  }

  lemma {:induction false} TrimmedLength(s: string)
    ensures |TrimEnd(TrimStart(s))| == |s| <==> s == [] || (!Edge(s[0]) && !Edge(s[|s| - 1]))
    ensures |TrimEnd(TrimStart(s))| <= |s|
  {
    if s != [] {
      if Edge(s[0]) {
        assert |TrimStart(s)| <= |s[1..]|;
      } else {
        assert TrimStart(s) == s;
        if Edge(s[|s| - 1]) {
          assert |TrimEnd(s)| <= |s[..|s| - 1]|;
        }
      }
    }
  }

  lemma LowerKeepsEdge(c: char)
    requires Kept(c)
    ensures Edge(Lower(c)) <==> Edge(c)
  {
  }

  lemma LongScan(value: string, max: nat)
    ensures |Scan(value, [], false, max)| <= max + 1
    ensures var raw := Scan(value, [], false, max);
            (|raw| == max + 1 && !Edge(raw[0]) && !Edge(raw[|raw| - 1])) <==> TooLong(value, max)
  {
    ScanIsPlain(value, [], false, max);
    if max > 0 {
      ScanOverflowsExactly(value, [], false, max);
      forall i: nat, j: nat | OverflowsAt(value, [], false, max, i, j)
        ensures Scan(value, [], false, max) == Collapse(value[..i], [], false) + ['-', Lower(value[j])]
        ensures Edge(Lower(value[j])) <==> Edge(value[j])
      {
        OverflowResult(value, [], false, max, i, j);
        LowerKeepsEdge(value[j]);
      }
    }
  }

  /** A component is longer than its maximum if and only if the collected text reaches one place
      before it, dropped characters follow, then a letter or digit, and the text starts with one. */
  lemma ComponentExceedsExactly(value: string, fallback: string, max: nat)
    requires |fallback| <= max
    ensures |SafeComponent(value, fallback, max)| > max <==> TooLong(value, max)
  {
    LongScan(value, max);
    TrimmedLength(Scan(value, [], false, max));
  }

  function Extended(done: string, gap: bool, c: char): string
    requires Kept(c)
  {
    if gap && done != [] then done + ['-', Lower(c)] else done + [Lower(c)]
  }

  lemma ScanStep(c: char, rest: string, done: string, gap: bool, max: nat)
    requires |done| < max
    ensures Scan([c] + rest, done, gap, max) ==
            if Kept(c) then Scan(rest, Extended(done, gap, c), false, max) else Scan(rest, done, true, max)
  {
    assert ([c] + rest)[1..] == rest;
  }

  /** Builds a component character by character, in one loop over the name. */
  method BuildComponent(value: string, fallback: string, max: nat) returns (r: string)
    ensures r == SafeComponent(value, fallback, max)
  {
    var result := "";
    var gap := false;
    var i := 0;
    while i < |value|
      invariant 0 <= i <= |value|
      invariant Scan(value, [], false, max) == Scan(value[i..], result, gap, max)
    {
      if |result| >= max {
        break;
      }
      var c := value[i];
      assert value[i..] == [c] + value[i + 1..];
      ScanStep(c, value[i + 1..], result, gap, max);
      ghost var was, hadGap := result, gap;
      if Kept(c) {
        if gap && result != [] && |result| < max {
          result := result + ['-'];
        }
        gap := false;
        result := result + [Lower(c)];
        assert result == Extended(was, hadGap, c);
      } else {
        gap := true;
      }
      i := i + 1;
    }
    result := TrimEnd(TrimStart(result));
    r := if result == [] then fallback else result;
  }

  // ---------- ids and paths ----------

  function AttachmentInput(c: ChannelId, m: string, index: nat): seq<int> {
    Prefixed(c) + Prefixed(m) + LittleEndian(index, Width)
  }

  function AttachmentId(hex: Hex, c: ChannelId, m: string, index: nat): string {
    "att_" + hex(AttachmentInput(c, m, index))
  }

  function Padded(index: nat): (r: string)
  {
    var d := KeyRing.Decimal(index);
    if |d| == 1 then "00" + d else if |d| == 2 then "0" + d else d
  }

  function Short(hex: Hex, input: seq<int>): string {
    if |hex(input)| < ShortLength then hex(input) else hex(input)[..ShortLength]
  }

  function AttachmentPath(hex: Hex, c: ChannelId, m: string, index: nat, name: string): string {
    InFolder(ChannelPart(c), MessagePart(m),
             FileName(index, Short(hex, AttachmentInput(c, m, index)), SafeComponent(name, "attachment", 96)))
  }

  function ChannelPart(c: ChannelId): string {
    SafeComponent(c, "channel", 64)
  }

  function MessagePart(m: string): string {
    SafeComponent(m, "message", 64)
  }

  function InFolder(channel: string, message: string, file: string): string {
    "files/" + (channel + "/" + (message + "/" + file))
  }

  function FileName(index: nat, short: string, name: string): string {
    Padded(index) + "-" + (short + ("-" + name))
  }

  function ChannelPath(hex: Hex, name: string, c: ChannelId): string {
    "html/channels/" + SafeComponent(name, "conversation", 72) + "-" + (Short(hex, Codes(c)) + ".html")
  }

  lemma {:induction false} DecimalDigits(n: nat)
    ensures forall i :: 0 <= i < |KeyRing.Decimal(n)| ==> '0' <= KeyRing.Decimal(n)[i] <= '9'
  {
    if n >= 10 {
      DecimalDigits(n / 10);
    }
  }

  /** A separator that occurs in neither first part splits both sides at the same place. */
  lemma SplitAtSeparator(a: string, b: string, x: string, y: string, sep: char)
    requires a + [sep] + x == b + [sep] + y && sep !in a && sep !in b
    ensures a == b && x == y
  {
    var s, t := a + [sep] + x, b + [sep] + y;
    assert s[|a|] == sep && t[|b|] == sep;
    assert forall k :: 0 <= k < |a| ==> s[k] == a[k];
    assert forall k :: 0 <= k < |b| ==> t[k] == b[k];
    assert |a| == |b|;
    assert s[..|a|] == a && t[..|a|] == b;
    assert s[|a| + 1..] == x && t[|a| + 1..] == y;
  }

  lemma DropPrefix(p: string, x: string, y: string)
    requires p + x == p + y
    ensures x == y
  {
    assert (p + x)[|p|..] == x && (p + y)[|p|..] == y;
  }

  lemma TakeSameLength(a: string, b: string, x: string, y: string)
    requires a + x == b + y && |a| == |b|
    ensures a == b && x == y
  {
    assert (a + x)[..|a|] == a && (b + y)[..|a|] == b;
    assert (a + x)[|a|..] == x && (b + y)[|a|..] == y;
  }

  lemma PlainHasNoSlash(value: string, fallback: string, max: nat)
    requires FallbackOk(fallback)
    ensures '/' !in SafeComponent(value, fallback, max)
  {
    ComponentIsSafe(value, fallback, max);
    NoSlashIn(SafeComponent(value, fallback, max));
  }

  lemma NoSlashIn(s: string)
    requires Plain(s)
    ensures '/' !in s
  {
  }

  lemma ChannelHasNoSlash(c: ChannelId)
    ensures '/' !in ChannelPart(c)
  {
    PlainHasNoSlash(c, "channel", 64);
  }

  lemma MessageHasNoSlash(m: string)
    ensures '/' !in MessagePart(m)
  {
    PlainHasNoSlash(m, "message", 64);
  }

  /** The hashed bytes identify channel, message and position. */
  lemma InputIdentifies(c: ChannelId, m: string, i: nat, d: ChannelId, n: string, j: nat)
    requires |c| < Pow256(Width) && |m| < Pow256(Width) && i < Pow256(Width)
    requires |d| < Pow256(Width) && |n| < Pow256(Width) && j < Pow256(Width)
    requires AttachmentInput(c, m, i) == AttachmentInput(d, n, j)
    ensures c == d && m == n && i == j
  {
    TwoIdsAreReadable(c, m, LittleEndian(i, Width), d, n, LittleEndian(j, Width));
    LittleEndianInjective(i, j, Width);
  }

  lemma TwoIdsAreReadable(c: string, m: string, x: seq<int>, d: string, n: string, y: seq<int>)
    requires |c| < Pow256(Width) && |m| < Pow256(Width) && |d| < Pow256(Width) && |n| < Pow256(Width)
    requires Prefixed(c) + Prefixed(m) + x == Prefixed(d) + Prefixed(n) + y
    ensures c == d && m == n && x == y
  {
    assert Prefixed(c) + Prefixed(m) + x == Prefixed(c) + (Prefixed(m) + x);
    assert Prefixed(d) + Prefixed(n) + y == Prefixed(d) + (Prefixed(n) + y);
    PrefixedIsReadable(c, d, Prefixed(m) + x, Prefixed(n) + y);
    PrefixedIsReadable(m, n, x, y);
  }

  lemma FileNamesAgree(i: nat, j: nat, s: string, t: string, name: string, other: string)
    requires |s| == |t|
    requires FileName(i, s, name) == FileName(j, t, other)
    ensures s == t
  {
    DecimalDigits(i);
    DecimalDigits(j);
    SplitAtSeparator(Padded(i), Padded(j), s + ("-" + name), t + ("-" + other), '-');
    TakeSameLength(s, t, "-" + name, "-" + other);
  }

  /** Equal archive paths mean equal digests, whatever sanitising did to the names. */
  lemma PathsAgree(hex: Hex, c: ChannelId, m: string, i: nat, name: string, d: ChannelId, n: string, j: nat, other: string)
    requires AttachmentPath(hex, c, m, i, name) == AttachmentPath(hex, d, n, j, other)
    requires |Short(hex, AttachmentInput(c, m, i))| == |Short(hex, AttachmentInput(d, n, j))|
    ensures Short(hex, AttachmentInput(c, m, i)) == Short(hex, AttachmentInput(d, n, j))
  {
    ChannelHasNoSlash(c);
    ChannelHasNoSlash(d);
    MessageHasNoSlash(m);
    MessageHasNoSlash(n);
    var s, t := Short(hex, AttachmentInput(c, m, i)), Short(hex, AttachmentInput(d, n, j));
    var shown, shown' := SafeComponent(name, "attachment", 96), SafeComponent(other, "attachment", 96);
    FoldersAgree(ChannelPart(c), MessagePart(m), FileName(i, s, shown),
                 ChannelPart(d), MessagePart(n), FileName(j, t, shown'));
    FileNamesAgree(i, j, s, t, shown, shown');
  }

  lemma FoldersAgree(c: string, m: string, file: string, d: string, n: string, other: string)
    requires InFolder(c, m, file) == InFolder(d, n, other)
    requires '/' !in c && '/' !in m && '/' !in d && '/' !in n
    ensures file == other
  {
    DropPrefix("files/", c + "/" + (m + "/" + file), d + "/" + (n + "/" + other));
    SplitAtSeparator(c, d, m + "/" + file, n + "/" + other, '/');
    SplitAtSeparator(m, n, file, other, '/');
  }

  /** Equal channel pages mean equal digests of the channel ids. */
  lemma ChannelPathsAgree(hex: Hex, name: string, c: ChannelId, other: string, d: ChannelId)
    requires ChannelPath(hex, name, c) == ChannelPath(hex, other, d)
    requires |Short(hex, Codes(c))| == |Short(hex, Codes(d))|
    ensures Short(hex, Codes(c)) == Short(hex, Codes(d))
  {
    var a := "html/channels/" + SafeComponent(name, "conversation", 72) + "-";
    var b := "html/channels/" + SafeComponent(other, "conversation", 72) + "-";
    var x, y := Short(hex, Codes(c)) + ".html", Short(hex, Codes(d)) + ".html";
    assert |a| == |a + x| - |x| && |b| == |b + y| - |y| && |x| == |y|;
    TakeSameLength(a, b, x, y);
    TakeSameLength(Short(hex, Codes(c)), Short(hex, Codes(d)), ".html", ".html");
  }
}
