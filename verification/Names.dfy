/** Pod names: printing an ordinal into a name, reading it back, and how names compare. */
module Names {
  import opened Wrappers

  const MAX_INT: nat := 0x7fff_ffff_ffff_ffff

  predicate IsDigit(c: char) { '0' <= c <= '9' }

  predicate AllDigits(s: string) { forall i :: 0 <= i < |s| ==> IsDigit(s[i]) }

  function Digit(d: nat): (c: char)
    requires d < 10
    ensures IsDigit(c) && c as int == '0' as int + d
  {
    ('0' as int + d) as char
  }

  /** `%d` of a number that is not negative. */
  function Decimal(n: nat): (s: string)
    ensures |s| > 0 && AllDigits(s)
  {
    if n < 10 then [Digit(n)] else Decimal(n / 10) + [Digit(n % 10)]
  }

  function Value(s: string): nat
    requires AllDigits(s)
  {
    if s == "" then 0 else Value(s[..|s| - 1]) * 10 + (s[|s| - 1] as int - '0' as int)
  }

  /** `strconv.Atoi`: an optional sign, then digits, within the range of a 64-bit int. */
  function Atoi(s: string): Option<int> {
    var negative := s != "" && s[0] == '-';
    var digits := if s != "" && (s[0] == '-' || s[0] == '+') then s[1..] else s;
    if digits == "" || !AllDigits(digits) then None
    else
      var v := if negative then 0 - Value(digits) else Value(digits);
      if 0 - MAX_INT - 1 <= v <= MAX_INT then Some(v) else None
  }

  /** `strings.Split` by one character. */
  function Split(s: string, sep: char): (parts: seq<string>)
    ensures |parts| >= 1
  {
    if s == "" then [""]
    else
      var rest := Split(s[1..], sep);
      if s[0] == sep then [""] + rest else [[s[0]] + rest[0]] + rest[1..]
  }

  function PodName(name: string, i: nat): string {
    name + "-" + Decimal(i)
  }

  function PodIndex(podName: string): Option<int> {
    var parts := Split(podName, '-');
    Atoi(parts[|parts| - 1])
  }

  /** `PodShortFQDNWithServiceAndNamespace`. */
  function PodHost(name: string, i: nat, service: string, namespace: string): string {
    PodName(name, i) + "." + service + "." + namespace
  }

  lemma {:induction false} ValueOfDecimal(n: nat)
    ensures Value(Decimal(n)) == n
  {
    if n >= 10 {
      ValueOfDecimal(n / 10);
      var s := Decimal(n);
      assert s[..|s| - 1] == Decimal(n / 10);
    } else {
      assert Value("") == 0;
      assert Decimal(n)[..0] == "";
    }
  }

  lemma {:induction false} SplitWithoutSeparator(s: string, sep: char)
    requires sep !in s
    ensures Split(s, sep) == [s]
  {
    if s != "" {
      SplitWithoutSeparator(s[1..], sep);
      assert [s[0]] + s[1..] == s;
    }
  }

  lemma {:induction false} LastPartOfJoin(a: string, b: string, sep: char)
    requires sep !in b
    ensures var parts := Split(a + [sep] + b, sep); parts[|parts| - 1] == b
    ensures |Split(a + [sep] + b, sep)| >= 2
  {
    var s := a + [sep] + b;
    if a == "" {
      assert s[1..] == b;
      SplitWithoutSeparator(b, sep);
    } else {
      assert s[1..] == a[1..] + [sep] + b;
      LastPartOfJoin(a[1..], b, sep);
    }
  }

  lemma {:induction false} AtoiOfDecimal(n: nat)
    requires n <= MAX_INT
    ensures Atoi(Decimal(n)) == Some(n)
  {
    ValueOfDecimal(n);
    assert IsDigit(Decimal(n)[0]);
  }

  /** A sign is read, and what does not fit 64 bits is refused. */
  lemma {:induction false} AtoiOfNegative(n: nat)
    ensures Atoi("-" + Decimal(n)) == if n <= MAX_INT + 1 then Some(0 - n) else None
  {
    ValueOfDecimal(n);
    assert ("-" + Decimal(n))[1..] == Decimal(n);
  }

  lemma {:induction false} AtoiOfPositive(n: nat)
    ensures Atoi("+" + Decimal(n)) == if n <= MAX_INT then Some(n) else None
  {
    ValueOfDecimal(n);
    assert ("+" + Decimal(n))[1..] == Decimal(n);
  }

  /** Reading an ordinal back from a pod name gives the ordinal, whatever dashes the cluster's name has. */
  lemma PodIndexOfPodName(name: string, i: nat)
    requires i <= MAX_INT
    ensures PodIndex(PodName(name, i)) == Some(i)
  {
    LastPartOfJoin(name, Decimal(i), '-');
    AtoiOfDecimal(i);
  }

  lemma DecimalInjective(i: nat, j: nat)
    requires Decimal(i) == Decimal(j)
    ensures i == j
  {
    ValueOfDecimal(i);
    ValueOfDecimal(j);
  }

  lemma PodNameInjective(name: string, i: nat, j: nat)
    requires PodName(name, i) == PodName(name, j)
    ensures i == j
  {
    assert PodName(name, i)[|name| + 1..] == Decimal(i);
    assert PodName(name, j)[|name| + 1..] == Decimal(j);
    DecimalInjective(i, j);
  }

  /** Digits end at a dot: of two numbers each followed by a dot, one text starts the other only if they are equal. */
  lemma PrefixUpToDot(a: string, b: string, p: string, r: string, q: string)
    requires AllDigits(a) && AllDigits(b)
    requires p + a + "." + r <= p + b + "." + q
    ensures a == b
  {
    var s, t := p + a + "." + r, p + b + "." + q;
    assert forall k :: 0 <= k < |a| ==> s[|p| + k] == a[k];
    assert forall k :: 0 <= k < |b| ==> t[|p| + k] == b[k];
    assert s[|p| + |a|] == '.' && t[|p| + |b|] == '.';
    assert forall k :: 0 <= k < |s| ==> s[k] == t[k];
    assert |a| == |b|;
    forall k | 0 <= k < |a| ensures a[k] == b[k] {
      assert s[|p| + k] == t[|p| + k];
    }
  }

  /** One peer host name is a prefix of another only if they name the same pod. */
  lemma PodHostPrefixFree(name: string, i: nat, j: nat, service: string, namespace: string)
    requires PodHost(name, i, service, namespace) <= PodHost(name, j, service, namespace)
    ensures i == j
  {
    var p, r := name + "-", service + "." + namespace;
    assert PodHost(name, i, service, namespace) == p + Decimal(i) + "." + r;
    assert PodHost(name, j, service, namespace) == p + Decimal(j) + "." + r;
    PrefixUpToDot(Decimal(i), Decimal(j), p, r, r);
    DecimalInjective(i, j);
  }

  // ----- order

  /** Go's `<` on strings. */
  predicate Less(a: string, b: string) {
    if b == "" then false
    else if a == "" then true
    else a[0] < b[0] || (a[0] == b[0] && Less(a[1..], b[1..]))
  }

  lemma {:induction false} LessAfterPrefix(p: string, a: string, b: string)
    ensures Less(p + a, p + b) == Less(a, b)
  {
    if p == "" {
      assert p + a == a && p + b == b;
    } else {
      assert (p + a)[1..] == p[1..] + a && (p + b)[1..] == p[1..] + b;
      LessAfterPrefix(p[1..], a, b);
    }
  }

  lemma {:induction false} LessWithLast(a: string, b: string, c: char, d: char)
    requires |a| == |b|
    ensures Less(a + [c], b + [d]) <==> Less(a, b) || (a == b && c < d)
  {
    if a == "" {
      assert a + [c] == [c] && b + [d] == [d];
    } else {
      assert (a + [c])[1..] == a[1..] + [c] && (b + [d])[1..] == b[1..] + [d];
      LessWithLast(a[1..], b[1..], c, d);
      assert a == b <==> a[0] == b[0] && a[1..] == b[1..] by {
        assert a == [a[0]] + a[1..] && b == [b[0]] + b[1..];
      }
    }
  }

  lemma {:induction false} LessOnDecimals(i: nat, j: nat)
    requires |Decimal(i)| == |Decimal(j)|
    ensures Less(Decimal(i), Decimal(j)) <==> i < j
  {
    if i >= 10 && j >= 10 {
      LessOnDecimals(i / 10, j / 10);
      LessWithLast(Decimal(i / 10), Decimal(j / 10), Digit(i % 10), Digit(j % 10));
      if Decimal(i / 10) == Decimal(j / 10) {
        DecimalInjective(i / 10, j / 10);
      }
    } else {
      assert i < 10 && j < 10;
      LessWithLast("", "", Digit(i), Digit(j));
      assert "" + [Digit(i)] == Decimal(i) && "" + [Digit(j)] == Decimal(j);
    }
  }

  /** Between ordinals of equal length, name order is ordinal order. */
  lemma NameOrderIsOrdinalOrder(name: string, i: nat, j: nat)
    requires |Decimal(i)| == |Decimal(j)|
    ensures Less(PodName(name, i), PodName(name, j)) <==> i < j
  {
    LessAfterPrefix(name + "-", Decimal(i), Decimal(j));
    LessOnDecimals(i, j);
  }

  /** Across lengths it is not: the eleventh pod sorts before the third. */
  lemma TenSortsBeforeTwo(name: string)
    ensures Less(PodName(name, 10), PodName(name, 2))
  {
    LessAfterPrefix(name + "-", Decimal(10), Decimal(2));
    assert Decimal(10) == Decimal(1) + [Digit(0)];
  }
}
