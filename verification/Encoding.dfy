/** Byte-level identifiers of the system: length-prefixed hash preimages and
    dot-separated deduplication ids. A Go string is modelled as a `string`
    whose characters are its bytes; a SHA-256 digest is modelled by its preimage. */
module Encoding {

  // ---------------------------------------------------------------- framing

  function Pow256(k: nat): (p: nat)
    ensures p >= 1
  {
    if k == 0 then 1 else 256 * Pow256(k - 1)
  }

  /** The `k` low bytes of `n`, most significant first (binary.BigEndian). */
  function BigEndian(n: nat, k: nat): (r: string)
    ensures |r| == k
  {
    if k == 0 then "" else BigEndian(n / 256, k - 1) + [(n % 256) as char]
  }

  lemma {:induction false} BigEndianInjective(m: nat, n: nat, k: nat)
    requires m < Pow256(k) && n < Pow256(k)
    requires BigEndian(m, k) == BigEndian(n, k)
    ensures m == n
  {
    if k > 0 {
      var a, b := BigEndian(m / 256, k - 1), BigEndian(n / 256, k - 1);
      assert BigEndian(m, k)[..k - 1] == a && BigEndian(n, k)[..k - 1] == b;
      assert BigEndian(m, k)[k - 1] == (m % 256) as char && BigEndian(n, k)[k - 1] == (n % 256) as char;
      BigEndianInjective(m / 256, n / 256, k - 1);
    }
  }

  const UINT64: nat := 0x1_0000_0000_0000_0000

  lemma Pow256Of8()
    ensures Pow256(8) == UINT64
  {
    assert Pow256(2) == 0x1_0000;
    assert Pow256(4) == 0x1_0000_0000;
    assert Pow256(6) == 0x1_0000_0000_0000;
  }

  /** A uint64, written big-endian: the eight low bytes. */
  function Word(n: nat): (r: string)
    ensures |r| == 8
  {
    BigEndian(n, 8)
  }

  lemma WordInjective(m: nat, n: nat)
    requires m < UINT64 && n < UINT64 && Word(m) == Word(n)
    ensures m == n
  {
    Pow256Of8();
    var k := 8;
    BigEndianInjective(m, n, k);
  }

  /** One hash part: its 8-byte length, then its bytes. */
  function Frame(part: string): (r: string)
    ensures |r| == 8 + |part|
  {
    Word(|part|) + part
  }

  function Frames(parts: seq<string>): string {
    if parts == [] then "" else Frame(parts[0]) + Frames(parts[1..])
  }

  ghost predicate Addressable(parts: seq<string>) {
    forall i :: 0 <= i < |parts| ==> |parts[i]| < UINT64
  }

  lemma HeadersAlign(h: string, p: string, x: string, g: string, q: string, y: string)
    requires |h| == |g| && h + p + x == g + q + y
    ensures h == g
    ensures |p| == |q| ==> p == q && x == y
  {
    var s, t := h + p + x, g + q + y;
    assert s[..|h|] == h && t[..|g|] == g;
    if |p| == |q| {
      assert s[|h|..|h| + |p|] == p && t[|h|..|h| + |p|] == q;
      assert s[|h| + |p|..] == x && t[|h| + |p|..] == y;
    }
  }

  /** A framed part splits off the front of a preimage in one way only. */
  lemma FrameSplits(p: string, x: string, q: string, y: string)
    requires |p| < UINT64 && |q| < UINT64
    requires Frame(p) + x == Frame(q) + y
    ensures p == q && x == y
  {
    HeadersAlign(Word(|p|), p, x, Word(|q|), q, y);
    WordInjective(|p|, |q|);
  }

  /** Two part lists with the same preimage are the same list. */
  lemma {:induction false} FramesInjective(a: seq<string>, b: seq<string>)
    requires Addressable(a) && Addressable(b)
    requires Frames(a) == Frames(b)
    ensures a == b
  {
    if a != [] && b != [] {
      FrameSplits(a[0], Frames(a[1..]), b[0], Frames(b[1..]));
      FramesInjective(a[1..], b[1..]);
      assert a == [a[0]] + a[1..] && b == [b[0]] + b[1..];
    }
  }

  // ---------------------------------------------------------------- decimals

  function Digit(d: nat): (c: char)
    requires d < 10
    ensures '0' <= c <= '9'
  {
    (48 + d) as char
  }

  /** fmt's %d. */
  function Decimal(n: int): (r: string)
    decreases if n < 0 then 1 - n else n
    ensures |r| > 0
    ensures forall i :: 0 <= i < |r| ==> r[i] == '-' || '0' <= r[i] <= '9'
    ensures n >= 0 <==> r[0] != '-'
  {
    if n < 0 then "-" + Decimal(-n)
    else if n < 10 then [Digit(n)]
    else Decimal(n / 10) + [Digit(n % 10)]
  }

  lemma {:induction false} DecimalInjective(m: int, n: int)
    requires Decimal(m) == Decimal(n)
    ensures m == n
  {
    if m < 0 {
      assert Decimal(m)[1..] == Decimal(-m) && Decimal(n)[1..] == Decimal(-n);
      NaturalInjective(-m, -n);
    } else {
      NaturalInjective(m, n);
    }
  }

  lemma {:induction false} NaturalInjective(m: nat, n: nat)
    requires Decimal(m) == Decimal(n)
    ensures m == n
  {
    DecimalLength(m);
    DecimalLength(n);
    if m < 10 {
      assert Decimal(m) == [Digit(m)] && Decimal(n) == [Digit(n)];
      DigitInjective(m, n);
    } else {
      DecimalSplits(m);
      DecimalSplits(n);
      NaturalInjective(m / 10, n / 10);
      DigitInjective(m % 10, n % 10);
    }
  }

  lemma DigitInjective(d: nat, e: nat)
    requires d < 10 && e < 10 && Digit(d) == Digit(e)
    ensures d == e
  {
  }

  lemma {:induction false} DecimalLength(n: nat)
    ensures n >= 10 <==> |Decimal(n)| > 1
  {
  }

  /** All but the last digit, and the last digit. */
  lemma {:induction false} DecimalSplits(n: nat)
    requires n >= 10
    ensures var r := Decimal(n); r[..|r| - 1] == Decimal(n / 10) && r[|r| - 1] == Digit(n % 10)
  {
    var p := Decimal(n / 10);
    assert Decimal(n) == p + [Digit(n % 10)];
  }

  // ---------------------------------------------------------------- dotted ids

  predicate DotFree(s: string) {
    '.' !in s
  }

  /** The first dot separates a dot-free head from the rest in one way only. */
  lemma SplitAtFirstDot(a: string, x: string, b: string, y: string)
    requires DotFree(a) && DotFree(b)
    requires a + "." + x == b + "." + y
    ensures a == b && x == y
  {
    var s, t := a + "." + x, b + "." + y;
    assert s[|a|] == '.' && t[|b|] == '.';
    assert forall i :: 0 <= i < |a| ==> s[i] == a[i];
    assert forall i :: 0 <= i < |b| ==> t[i] == b[i];
    assert s[..|a|] == a && t[..|b|] == b;
    assert s[|a| + 1..] == x && t[|b| + 1..] == y;
  }

  /** The last dot separates a dot-free tail in one way only. */
  lemma SplitAtLastDot(x: string, a: string, y: string, b: string)
    requires DotFree(a) && DotFree(b)
    requires x + "." + a == y + "." + b
    ensures a == b && x == y
  {
    var s, t := x + "." + a, y + "." + b;
    assert s[|x|] == '.' && t[|y|] == '.';
    assert s[|x| + 1..] == a && t[|y| + 1..] == b;
    assert forall i :: |x| < i < |s| ==> s[i] == a[i - |x| - 1];
    assert forall i :: |y| < i < |t| ==> t[i] == b[i - |y| - 1];
    assert |x| == |y|;
    assert s[..|x|] == x;
    assert t[..|y|] == y;
  }

  /** The router's broker deduplication id. */
  function CommandDedupId(tenant: string, iid: string, commandId: string): string {
    tenant + "." + iid + "." + commandId
  }

  lemma CommandDedupIdInjective(t: string, i: string, c: string, t': string, i': string, c': string)
    requires DotFree(t) && DotFree(i) && DotFree(t') && DotFree(i')
    requires CommandDedupId(t, i, c) == CommandDedupId(t', i', c')
    ensures t == t' && i == i' && c == c'
  {
    assert CommandDedupId(t, i, c) == t + "." + (i + "." + c);
    assert CommandDedupId(t', i', c') == t' + "." + (i' + "." + c');
    SplitAtFirstDot(t, i + "." + c, t', i' + "." + c');
    SplitAtFirstDot(i, c, i', c');
  }

  /** The projector's feed deduplication ids: a fact, and the tombstone of a leave. */
  function FeedDedupId(tenant: string, agent: string, iid: string, sequence: int, tombstone: bool): string {
    var fact := tenant + "." + agent + "." + iid + "." + Decimal(sequence);
    if tombstone then fact + ".revoked" else fact
  }

  lemma {:induction false} DecimalDotFree(n: int)
    ensures DotFree(Decimal(n))
  {
    assert forall i :: 0 <= i < |Decimal(n)| ==> Decimal(n)[i] != '.';
  }

  lemma {:induction false} FactAndTombstoneDiffer(x: string, n: int, y: string)
    ensures x + "." + Decimal(n) != y + "." + "revoked"
  {
    DecimalDotFree(n);
    assert Decimal(n)[0] != "revoked"[0];
    if x + "." + Decimal(n) == y + "." + "revoked" {
      SplitAtLastDot(x, Decimal(n), y, "revoked");
    }
  }

  lemma FactIdInjective(t: string, a: string, i: string, n: int, t': string, a': string, i': string, n': int)
    requires DotFree(t) && DotFree(i) && DotFree(t') && DotFree(i')
    requires FeedDedupId(t, a, i, n, false) == FeedDedupId(t', a', i', n', false)
    ensures t == t' && a == a' && i == i' && n == n'
  {
    DecimalDotFree(n);
    DecimalDotFree(n');
    SplitAtLastDot(t + "." + a + "." + i, Decimal(n), t' + "." + a' + "." + i', Decimal(n'));
    DecimalInjective(n, n');
    SplitAtLastDot(t + "." + a, i, t' + "." + a', i');
    SplitAtFirstDot(t, a, t', a');
  }

  /** Agents are free text; tenant and interaction are dot-free subject tokens. */
  lemma FeedDedupIdInjective(t: string, a: string, i: string, n: int, z: bool,
                             t': string, a': string, i': string, n': int, z': bool)
    requires DotFree(t) && DotFree(i) && DotFree(t') && DotFree(i')
    requires FeedDedupId(t, a, i, n, z) == FeedDedupId(t', a', i', n', z')
    ensures t == t' && a == a' && i == i' && n == n' && z == z'
  {
    var p, q := FeedDedupId(t, a, i, n, false), FeedDedupId(t', a', i', n', false);
    assert p + ".revoked" == p + "." + "revoked" && q + ".revoked" == q + "." + "revoked";
    if z && !z' {
      FactAndTombstoneDiffer(t' + "." + a' + "." + i', n', p);
    } else if z' && !z {
      FactAndTombstoneDiffer(t + "." + a + "." + i, n, q);
    } else {
      if z {
        SplitAtLastDot(p, "revoked", q, "revoked");
      }
      FactIdInjective(t, a, i, n, t', a', i', n');
    }
  }
}
