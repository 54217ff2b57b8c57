/**
 The key strings of the hierarchical checksum database, ordered as the stores order them, and the
 alignment arithmetic that decides which entries a checksum covers.
 */
module ChecksumKeys {
  import opened KeyOrder

  function Pow(b: nat, e: nat): nat {
    if e == 0 then 1 else b * Pow(b, e - 1)
  }

  function Digit(d: nat): char
    requires d < 10
  {
    (d + '0' as int) as char
  }

  /** "%.<w>d": the last `w` decimal digits of n. */
  function Padded(n: nat, w: nat): (s: string)
    ensures |s| == w
  {
    if w == 0 then [] else Padded(n / 10, w - 1) + [Digit(n % 10)]
  }

  /** "%d" */
  function Decimal(n: nat): string {
    if n < 10 then [Digit(n)] else Decimal(n / 10) + [Digit(n % 10)]
  }

  /** The first key of the group of F^level keys that `key` belongs to. */
  function Aligned(fanout: nat, level: nat, key: nat): nat
    requires fanout > 0
  {
    PowPositive(fanout, level);
    Pow(fanout, level) * (key / Pow(fanout, level))
  }

  /** The last key of that group. */
  function LastOfGroup(fanout: nat, level: nat, key: nat): nat
    requires fanout > 0
  {
    PowPositive(fanout, level);
    Aligned(fanout, level, key) + Pow(fanout, level) - 1
  }

  function LevelPrefix(level: nat): string {
    if level == 0 then "k." else "c." + Decimal(level) + "."
  }

  /** dbFormatKey */
  function FormatKey(fanout: nat, level: nat, key: nat): string
    requires fanout > 0
  {
    LevelPrefix(level) + Padded(Aligned(fanout, level, key), 10)
  }

  predicate SameGroup(fanout: nat, level: nat, a: nat, b: nat)
    requires fanout > 0
  {
    PowPositive(fanout, level);
    a / Pow(fanout, level) == b / Pow(fanout, level)
  }

  // ------------------------------------------------------------------------------------------
  // String order
  // ------------------------------------------------------------------------------------------

  lemma {:induction false} LeqPrefix(p: string, x: string, y: string)
    ensures Leq(p + x, p + y) <==> Leq(x, y)
  {
    if p == [] {
      assert p + x == x && p + y == y;
    } else {
      LeqPrefix(p[1..], x, y);
      assert (p + x)[1..] == p[1..] + x && (p + y)[1..] == p[1..] + y;
    }
  }

  /** Everything between two strings with a common prefix has that prefix. */
  lemma {:induction false} BetweenPrefix(p: string, x: string, s: string, y: string)
    requires Leq(p + x, s) && Leq(s, p + y)
    ensures p <= s
  {
    if p != [] {
      assert (p + x)[0] == p[0] && (p + y)[0] == p[0];
      assert (p + x)[1..] == p[1..] + x && (p + y)[1..] == p[1..] + y;
      assert s != [] && s[0] == p[0];
      BetweenPrefix(p[1..], x, s[1..], y);
      assert s == [s[0]] + s[1..] && p == [p[0]] + p[1..];
    }
  }

  lemma {:induction false} LeqSnoc(x: string, y: string, c: char, d: char)
    requires |x| == |y|
    ensures Leq(x + [c], y + [d]) <==> if x == y then c <= d else Leq(x, y)
  {
    if x == [] {
      assert x + [c] == [c] && y + [d] == [d];
      assert Leq([c][1..], [d][1..]);
    } else {
      LeqSnoc(x[1..], y[1..], c, d);
      assert (x + [c])[1..] == x[1..] + [c] && (y + [d])[1..] == y[1..] + [d];
      assert x == y <==> x[0] == y[0] && x[1..] == y[1..] by {
        assert x == [x[0]] + x[1..] && y == [y[0]] + y[1..];
      }
    }
  }

  lemma {:induction false} PaddedInjective(a: nat, b: nat, w: nat)
    requires a < Pow(10, w) && b < Pow(10, w)
    ensures Padded(a, w) == Padded(b, w) <==> a == b
  {
    if w > 0 {
      assert a / 10 < Pow(10, w - 1) && b / 10 < Pow(10, w - 1);
      PaddedInjective(a / 10, b / 10, w - 1);
      if Padded(a, w) == Padded(b, w) {
        assert Padded(a, w)[..w - 1] == Padded(a / 10, w - 1) && Padded(b, w)[..w - 1] == Padded(b / 10, w - 1);
        assert Padded(a, w)[w - 1] == Digit(a % 10) && Padded(b, w)[w - 1] == Digit(b % 10);
      }
    }
  }

  /** Zero-padded numbers sort as numbers. */
  lemma {:induction false} PaddedOrder(a: nat, b: nat, w: nat)
    requires a < Pow(10, w) && b < Pow(10, w)
    ensures Leq(Padded(a, w), Padded(b, w)) <==> a <= b
  {
    if w > 0 {
      assert a / 10 < Pow(10, w - 1) && b / 10 < Pow(10, w - 1);
      PaddedOrder(a / 10, b / 10, w - 1);
      PaddedInjective(a / 10, b / 10, w - 1);
      LeqSnoc(Padded(a / 10, w - 1), Padded(b / 10, w - 1), Digit(a % 10), Digit(b % 10));
    }
  }

  lemma {:induction false} DecimalHasNoDot(n: nat)
    ensures '.' !in Decimal(n) && |Decimal(n)| > 0
  {
    if n >= 10 {
      DecimalHasNoDot(n / 10);
    }
  }

  lemma {:induction false} DecimalInjective(a: nat, b: nat)
    ensures Decimal(a) == Decimal(b) ==> a == b
  {
    if Decimal(a) == Decimal(b) {
      if a >= 10 && b >= 10 {
        var n := |Decimal(a)| - 1;
        assert Decimal(a)[n] == Digit(a % 10) && Decimal(b)[n] == Digit(b % 10);
        assert Decimal(a)[..n] == Decimal(a / 10) && Decimal(b)[..n] == Decimal(b / 10);
        DecimalInjective(a / 10, b / 10);
      } else if a >= 10 {
        DecimalHasNoDot(a / 10);
      } else if b >= 10 {
        DecimalHasNoDot(b / 10);
      }
    }
  }

  lemma DotNotBefore(x: string, y: string, u: string, v: string)
    requires '.' !in y && x + "." + u == y + "." + v
    ensures |x| >= |y|
  {
    var s := x + "." + u;
    forall i | 0 <= i < |y|
      ensures s[i] != '.'
    {
      assert s[i] == (y + "." + v)[i] == y[i];
      assert y[i] in y;
    }
    assert s[|x|] == '.';
  }

  /** A dot-terminated word without dots is determined by any string it starts. */
  lemma DotSplits(x: string, y: string, u: string, v: string)
    requires '.' !in x && '.' !in y && x + "." + u == y + "." + v
    ensures x == y
  {
    DotNotBefore(x, y, u, v);
    DotNotBefore(y, x, v, u);
    assert (x + "." + u)[..|x|] == x && (y + "." + v)[..|y|] == y;
  }

  /** The same for words behind a common beginning. */
  lemma WordTells(c: string, x: string, y: string, v: string)
    requires '.' !in x && '.' !in y && c + (x + ".") <= c + (y + ".") + v
    ensures x == y
  {
    var s := c + (y + ".") + v;
    var u := s[|c + (x + ".")|..];
    assert s == c + (x + ".") + u;
    assert s[|c|..] == x + "." + u && s[|c|..] == y + "." + v;
    DotSplits(x, y, u, v);
  }

  lemma PrefixForm(level: nat)
    requires level > 0
    ensures LevelPrefix(level) == "c." + (Decimal(level) + ".")
  {
  }

  /** A key string starts with the prefix of its own level and of no other. */
  lemma PrefixTellsLevel(level: nat, level': nat, digits: string)
    requires LevelPrefix(level) <= LevelPrefix(level') + digits
    ensures level == level'
  {
    assert LevelPrefix(level)[0] == (LevelPrefix(level') + digits)[0] == LevelPrefix(level')[0];
    if level > 0 && level' > 0 {
      PrefixForm(level);
      PrefixForm(level');
      DecimalHasNoDot(level);
      DecimalHasNoDot(level');
      WordTells("c.", Decimal(level), Decimal(level'), digits);
      DecimalInjective(level, level');
    }
  }

  // ------------------------------------------------------------------------------------------
  // Alignment
  // ------------------------------------------------------------------------------------------

  lemma {:induction false} PowPositive(b: nat, e: nat)
    requires b > 0
    ensures Pow(b, e) > 0
  {
    if e > 0 {
      PowPositive(b, e - 1);
    }
  }

  lemma Recompose(a: nat, g: nat, n: nat, q: nat, r: nat, q2: nat, r2: nat)
    requires g > 0 && n > 0 && a == g * q + r && r < g && q == n * q2 + r2 && r2 < n
    ensures g * n > 0 && a == g * n * q2 + (g * r2 + r) && g * r2 + r < g * n
  {
    Distribute(g, n, q2, r2);
    MulBound(g, r2, n);
  }

  /** a / g / n == a / (g * n) */
  lemma DivDiv(a: nat, g: nat, n: nat)
    requires g > 0 && n > 0
    ensures g * n > 0 && a / g / n == a / (g * n)
  {
    var q, r := a / g, a % g;
    Recompose(a, g, n, q, r, q / n, q % n);
    Quotient(a, g * n, q / n, g * (q % n) + r);
  }

  lemma Distribute(g: nat, n: nat, a: nat, b: nat)
    ensures g * (n * a + b) == g * n * a + g * b
  {
  }

  lemma MulBound(g: nat, a: nat, n: nat)
    requires g > 0 && a < n
    ensures g * n > 0 && g * a <= g * n - g
  {
    assert g * (n - 1) == g * n - g;
    assert g * a <= g * (n - 1);
  }

  lemma Quotient(a: nat, d: nat, q: nat, r: nat)
    requires d > 0 && a == d * q + r && r < d
    ensures a / d == q
  {
    var q', r' := a / d, a % d;
    assert d * q' + r' == d * q + r;
    assert q' < q ==> d * q >= d * (q' + 1);
    assert q < q' ==> d * q' >= d * (q + 1);
  }

  /** Within groups of F^i keys split into F groups of F^(i-1): the aligned start of `k` one level
      down lies between the starts of the first and last such group of `key` exactly when both keys
      are in the same group of F^i. */
  lemma AlignmentNests(fanout: nat, i: nat, k: nat, key: nat)
    requires fanout > 0 && i > 0
    ensures var first, last := Aligned(fanout, i, key), LastOfGroup(fanout, i, key);
            (Aligned(fanout, i - 1, first) <= Aligned(fanout, i - 1, k) <= Aligned(fanout, i - 1, last)) <==>
            SameGroup(fanout, i, k, key)
  {
    PowPositive(fanout, i - 1);
    PowPositive(fanout, i);
    BlocksNest(Pow(fanout, i - 1), fanout, k, key / Pow(fanout, i), Pow(fanout, i));
  }

  /** The same for groups of `g` and of n * g keys. */
  lemma BlocksNest(g: nat, n: nat, k: nat, q: nat, whole: nat)
    requires g > 0 && n > 0 && whole == n * g
    ensures whole > 0
    ensures (g * (whole * q / g) <= g * (k / g) <= g * ((whole * q + whole - 1) / g)) <==> k / whole == q
  {
    Commute(n, g);
    DivDiv(k, g, n);
    SubgroupEnds(g, n, q);
    NestsBy(g, n, k / g, q, whole * q / g, (whole * q + whole - 1) / g);
  }

  lemma Commute(a: nat, b: nat)
    ensures a * b == b * a
  {
  }

  lemma NestsBy(g: nat, n: nat, x: nat, q: nat, first: nat, last: nat)
    requires g > 0 && n > 0 && first == n * q && last == n * q + n - 1
    ensures g * first <= g * x <= g * last <==> x / n == q
  {
    MultiplesOrder(g, first, x, last);
    BlockOf(x, n, q);
  }

  /** The first and last key of the q-th group of g*n keys, counted in groups of g. */
  lemma SubgroupEnds(g: nat, n: nat, q: nat)
    requires g > 0 && n > 0
    ensures g * n > 0
    ensures g * n * q / g == n * q
    ensures (g * n * q + g * n - 1) / g == n * q + n - 1
  {
    Assoc(g, n, q);
    Quotient(g * n * q, g, n * q, 0);
    LastSubgroup(g, n, n * q);
    Quotient(g * n * q + g * n - 1, g, n * q + n - 1, g - 1);
  }

  lemma Assoc(a: nat, b: nat, c: nat)
    ensures a * b * c == a * (b * c)
    ensures a > 0 && b > 0 ==> a * b > 0
  {
  }

  lemma LastSubgroup(g: nat, n: nat, m: nat)
    requires g > 0 && n > 0
    ensures g * m + g * n - 1 == g * (m + n - 1) + (g - 1)
  {
  }

  lemma MultiplesOrder(g: nat, a: nat, x: nat, b: nat)
    requires g > 0
    ensures g * a <= g * x <= g * b <==> a <= x <= b
  {
    if a <= x {
      assert g * a <= g * x;
    } else {
      assert g * x < g * a;
    }
    if x <= b {
      assert g * x <= g * b;
    } else {
      assert g * b < g * x;
    }
  }

  lemma EqualMultiples(g: nat, a: nat, b: nat)
    requires g > 0
    ensures g * a == g * b <==> a == b
  {
    MultiplesOrder(g, a, b, a);
  }

  lemma BlockOf(x: nat, n: nat, q: nat)
    requires n > 0
    ensures n * q <= x <= n * q + n - 1 <==> x / n == q
  {
    var q', r := x / n, x % n;
    assert x == n * q' + r;
    if n * q <= x <= n * q + n - 1 {
      Quotient(x, n, q, x - n * q);
    }
  }

  // ------------------------------------------------------------------------------------------
  // Which keys a checksum covers
  // ------------------------------------------------------------------------------------------

  /** The bounds that dbComputeCksum scans for the level-i checksum of `key`. */
  function ScanFirst(fanout: nat, i: nat, key: nat): string
    requires fanout > 0 && i > 0
  {
    FormatKey(fanout, i - 1, Aligned(fanout, i, key))
  }

  function ScanLast(fanout: nat, i: nat, key: nat): string
    requires fanout > 0 && i > 0
  {
    FormatKey(fanout, i - 1, LastOfGroup(fanout, i, key))
  }

  /** Keys whose groups stay within ten decimal digits at levels up to `max`, as 32-bit ints do. */
  ghost predicate TenDigits(fanout: nat, max: nat) {
    fanout > 0 && Pow(fanout, max) <= Pow(10, 10)
  }

  lemma AlignedBelow(fanout: nat, i: nat, key: nat)
    requires fanout > 0
    ensures Aligned(fanout, i, key) <= key <= LastOfGroup(fanout, i, key)
  {
    PowPositive(fanout, i);
  }

  /** A group lies within the whole key space. */
  lemma GroupBelow(fanout: nat, i: nat, max: nat, key: nat)
    requires fanout > 0 && i <= max && key < Pow(fanout, max)
    ensures LastOfGroup(fanout, i, key) < Pow(fanout, max)
    decreases max - i
  {
    PowPositive(fanout, i);
    PowMultiple(fanout, i, max - i);
    LastBlock(Pow(fanout, i), Pow(fanout, max - i), key);
  }

  lemma LastBlock(f: nat, n: nat, key: nat)
    requires f > 0 && key < f * n
    ensures f * (key / f) + f <= f * n
  {
    var q := key / f;
    assert f * q <= key;
    assert q >= n ==> f * q >= f * n;
    assert f * (q + 1) <= f * n;
  }

  lemma {:induction false} PowMultiple(b: nat, i: nat, j: nat)
    ensures Pow(b, i) * Pow(b, j) == Pow(b, i + j)
    decreases j
  {
    if j > 0 {
      PowMultiple(b, i, j - 1);
      Assoc(Pow(b, i), b, Pow(b, j - 1));
      Assoc(b, Pow(b, i), Pow(b, j - 1));
    }
  }

  /** The entry of `k` at level `j` lies in the range scanned for the level-i checksum of `key`
      exactly when j is the level below and both keys are in the same level-i group. */
  lemma ScanCovers(fanout: nat, max: nat, i: nat, key: nat, j: nat, k: nat)
    requires TenDigits(fanout, max) && 0 < i <= max && j <= max
    requires key < Pow(fanout, max) && k < Pow(fanout, max)
    ensures Within(FormatKey(fanout, j, k), ScanFirst(fanout, i, key), ScanLast(fanout, i, key)) <==>
            j == i - 1 && SameGroup(fanout, i, k, key)
  {
    var first, last := Aligned(fanout, i, key), LastOfGroup(fanout, i, key);
    var p, s := LevelPrefix(i - 1), FormatKey(fanout, j, k);
    var lo, hi := Padded(Aligned(fanout, i - 1, first), 10), Padded(Aligned(fanout, i - 1, last), 10);
    if Within(s, p + lo, p + hi) {
      BetweenPrefix(p, lo, s, hi);
      PrefixTellsLevel(i - 1, j, Padded(Aligned(fanout, j, k), 10));
    }
    if j == i - 1 {
      var mid := Aligned(fanout, j, k);
      GroupBelow(fanout, i, max, key);
      AlignedBelow(fanout, i, key);
      AlignedBelow(fanout, j, first);
      AlignedBelow(fanout, j, last);
      AlignedBelow(fanout, j, k);
      LeqPrefix(p, lo, Padded(mid, 10));
      LeqPrefix(p, Padded(mid, 10), hi);
      PaddedOrder(Aligned(fanout, j, first), mid, 10);
      PaddedOrder(mid, Aligned(fanout, j, last), 10);
      AlignmentNests(fanout, i, k, key);
    }
  }

  lemma LevelAndNumber(i: nat, j: nat, a: nat, b: nat)
    requires a < Pow(10, 10) && b < Pow(10, 10)
    ensures LevelPrefix(i) + Padded(a, 10) == LevelPrefix(j) + Padded(b, 10) <==> i == j && a == b
  {
    var s, t := LevelPrefix(i) + Padded(a, 10), LevelPrefix(j) + Padded(b, 10);
    if s == t {
      PrefixTellsLevel(i, j, Padded(b, 10));
      assert s[|LevelPrefix(i)|..] == Padded(a, 10) && t[|LevelPrefix(j)|..] == Padded(b, 10);
      PaddedInjective(a, b, 10);
    }
  }

  /** Two entries have the same key string exactly when they are the same group. */
  lemma FormatKeyInjective(fanout: nat, max: nat, i: nat, key: nat, j: nat, k: nat)
    requires TenDigits(fanout, max) && i <= max && j <= max
    requires key < Pow(fanout, max) && k < Pow(fanout, max)
    ensures FormatKey(fanout, i, key) == FormatKey(fanout, j, k) <==> i == j && SameGroup(fanout, i, key, k)
  {
    AlignedBelow(fanout, i, key);
    AlignedBelow(fanout, j, k);
    LevelAndNumber(i, j, Aligned(fanout, i, key), Aligned(fanout, j, k));
    if i == j {
      SameStart(fanout, i, key, k);
    }
  }

  lemma SameStart(fanout: nat, i: nat, key: nat, k: nat)
    requires fanout > 0
    ensures Aligned(fanout, i, key) == Aligned(fanout, i, k) <==> SameGroup(fanout, i, key, k)
  {
    PowPositive(fanout, i);
    EqualMultiples(Pow(fanout, i), key / Pow(fanout, i), k / Pow(fanout, i));
  }

  /** Keys of one group have the same bounds. */
  lemma SameBounds(fanout: nat, i: nat, key: nat, k: nat)
    requires fanout > 0 && i > 0 && SameGroup(fanout, i, key, k)
    ensures ScanFirst(fanout, i, key) == ScanFirst(fanout, i, k)
    ensures ScanLast(fanout, i, key) == ScanLast(fanout, i, k)
    ensures FormatKey(fanout, i, key) == FormatKey(fanout, i, k)
  {
  }
}
