/** Lists of pod ordinals, and the order the operator lists pods in. */
module Ordinals {
  import opened Names

  ghost predicate Ascending(l: seq<nat>) {
    forall i, j :: 0 <= i < j < |l| ==> l[i] < l[j]
  }

  predicate NameLess(name: string, a: nat, b: nat) {
    Less(PodName(name, a), PodName(name, b))
  }

  ghost predicate SortedByName(name: string, l: seq<nat>) {
    forall i, j :: 0 <= i < j < |l| ==> NameLess(name, l[i], l[j])
  }

  ghost predicate Distinct(l: seq<nat>) {
    forall i, j :: 0 <= i < j < |l| ==> l[i] != l[j]
  }

  // ----- `sortPodList`

  lemma {:induction false} LessTransitive(a: string, b: string, c: string)
    requires Less(a, b) && Less(b, c)
    ensures Less(a, c)
  {
    if a != "" && a[0] == b[0] == c[0] {
      LessTransitive(a[1..], b[1..], c[1..]);
    }
  }

  lemma {:induction false} LessIrreflexive(a: string)
    ensures !Less(a, a)
  {
    if a != "" {
      LessIrreflexive(a[1..]);
    }
  }

  lemma {:induction false} LessTotal(a: string, b: string)
    ensures a == b || Less(a, b) || Less(b, a)
  {
    if a != "" && b != "" && a[0] == b[0] {
      LessTotal(a[1..], b[1..]);
      assert a == [a[0]] + a[1..] && b == [b[0]] + b[1..];
    }
  }

  lemma NameLessTotal(name: string, a: nat, b: nat)
    requires a != b && !NameLess(name, a, b)
    ensures NameLess(name, b, a)
  {
    LessTotal(PodName(name, a), PodName(name, b));
    if PodName(name, a) == PodName(name, b) {
      PodNameInjective(name, a, b);
    }
  }

  function Insert(name: string, x: nat, l: seq<nat>): (r: seq<nat>)
    ensures multiset(r) == multiset(l) + multiset{x}
  {
    if l == [] then [x]
    else if NameLess(name, x, l[0]) then [x] + l
    else
      assert l == [l[0]] + l[1..];
      [l[0]] + Insert(name, x, l[1..])
  }

  /** The listing in name order. */
  function SortByName(name: string, l: seq<nat>): (r: seq<nat>)
    ensures multiset(r) == multiset(l)
  {
    if l == [] then []
    else
      assert l == [l[0]] + l[1..];
      Insert(name, l[0], SortByName(name, l[1..]))
  }

  lemma MultisetMembers(a: seq<nat>, b: seq<nat>, x: nat)
    requires multiset(a) == multiset(b)
    ensures x in a <==> x in b
  {
    assert x in multiset(a) <==> x in multiset(b);
  }

  lemma {:induction false} InsertSorts(name: string, x: nat, l: seq<nat>)
    requires SortedByName(name, l) && x !in l
    ensures SortedByName(name, Insert(name, x, l))
  {
    var r := Insert(name, x, l);
    if l != [] && NameLess(name, x, l[0]) {
      forall j | 0 <= j < |l| ensures NameLess(name, x, l[j]) {
        if j > 0 {
          LessTransitive(PodName(name, x), PodName(name, l[0]), PodName(name, l[j]));
        }
      }
    } else if l != [] {
      var rest := Insert(name, x, l[1..]);
      InsertSorts(name, x, l[1..]);
      NameLessTotal(name, x, l[0]);
      forall j | 0 <= j < |rest| ensures NameLess(name, l[0], rest[j]) {
        assert rest[j] in multiset(rest);
        assert rest[j] == x || rest[j] in l[1..];
      }
    }
  }

  lemma {:induction false} SortByNameSorts(name: string, l: seq<nat>)
    requires Distinct(l)
    ensures SortedByName(name, SortByName(name, l))
  {
    if l != [] {
      SortByNameSorts(name, l[1..]);
      MultisetMembers(SortByName(name, l[1..]), l[1..], l[0]);
      InsertSorts(name, l[0], SortByName(name, l[1..]));
    }
  }

  /** The members of `l` whose name comes before that of `o`. */
  ghost function Preceding(name: string, l: seq<nat>, o: nat): set<nat> {
    set x | x in l && NameLess(name, x, o)
  }

  ghost function Members(l: seq<nat>): set<nat> {
    set x | x in l
  }

  lemma {:induction false} MembersOfDistinct(l: seq<nat>)
    requires Distinct(l)
    ensures |Members(l)| == |l|
  {
    if l != [] {
      var n := |l| - 1;
      MembersOfDistinct(l[..n]);
      assert Members(l) == Members(l[..n]) + {l[n]};
    }
  }

  lemma NameLessAsymmetric(name: string, a: nat, b: nat)
    requires NameLess(name, a, b)
    ensures !NameLess(name, b, a) && a != b
  {
    LessIrreflexive(PodName(name, a));
    if NameLess(name, b, a) {
      LessTransitive(PodName(name, a), PodName(name, b), PodName(name, a));
    }
  }

  /** In a list in name order an element sits at the number of members that precede it by name. */
  lemma RankByName(name: string, l: seq<nat>, i: nat)
    requires SortedByName(name, l) && i < |l|
    ensures |Preceding(name, l, l[i])| == i
  {
    forall a, b | 0 <= a < b < |l| ensures !NameLess(name, l[b], l[a]) && l[a] != l[b] {
      NameLessAsymmetric(name, l[a], l[b]);
    }
    LessIrreflexive(PodName(name, l[i]));
    forall x ensures x in Preceding(name, l, l[i]) <==> x in Members(l[..i]) {
      if x in l && NameLess(name, x, l[i]) {
        var j :| 0 <= j < |l| && l[j] == x;
        assert j < i;
        assert l[..i][j] == x;
      }
    }
    assert Preceding(name, l, l[i]) == Members(l[..i]);
    MembersOfDistinct(l[..i]);
  }

  // ----- ascending lists

  lemma {:induction false} AscendingAtLeastIndex(l: seq<nat>, i: nat)
    requires Ascending(l) && i < |l|
    ensures i <= l[i]
  {
    if i > 0 {
      AscendingAtLeastIndex(l, i - 1);
    }
  }

  lemma {:induction false} AscendingRoom(l: seq<nat>, n: nat, i: nat)
    requires Ascending(l) && (forall x :: x in l ==> x < n) && i < |l|
    ensures l[i] + (|l| - i) <= n
    decreases |l| - i
  {
    assert l[i] in l;
    if i < |l| - 1 {
      AscendingRoom(l, n, i + 1);
    }
  }

  /** With at most ten pods the name order of all of them is 0, 1, 2, ... */
  lemma NameOrderOfUpToTen(name: string, l: seq<nat>, n: nat)
    requires n <= 10 && |l| == n && Distinct(l) && forall x :: x in l ==> x < n
    ensures SortByName(name, l) == seq(n, i => i)
  {
    var s := SortByName(name, l);
    SortByNameSorts(name, l);
    assert |s| == |multiset(s)| == |multiset(l)| == n;
    forall x | x in s ensures x < n {
      MultisetMembers(s, l, x);
    }
    forall i, j | 0 <= i < j < |s| ensures s[i] < s[j] {
      assert s[i] in s && s[j] in s;
      assert |Decimal(s[i])| == 1 && |Decimal(s[j])| == 1;
      NameOrderIsOrdinalOrder(name, s[i], s[j]);
    }
    forall i | 0 <= i < n ensures s[i] == i {
      AscendingAtLeastIndex(s, i);
      AscendingRoom(s, n, i);
    }
  }

  /** In an ascending list an element sits at its own index exactly when no smaller number is missing. */
  lemma {:induction false} RankIsOrdinalIff(l: seq<nat>, i: nat)
    requires Ascending(l) && i < |l|
    ensures l[i] == i <==> forall o: nat :: o < l[i] ==> o in l
  {
    if l[i] == i {
      forall o: nat | o < i ensures o in l {
        AscendingAtLeastIndex(l, o);
        AscendingRoom(l[..i], i, o);
        assert l[o] == o;
      }
    } else {
      AscendingAtLeastIndex(l, i);
      if forall o: nat :: o < l[i] ==> o in l {
        AllBelowPresent(l, i, l[i]);
      }
    }
  }

  /** If every number below `m` occurs before position `i`, there are at least `m` positions before `i`. */
  lemma {:induction false} AllBelowPresent(l: seq<nat>, i: nat, m: nat)
    requires Ascending(l) && i < |l| && m <= l[i]
    requires forall o: nat :: o < m ==> o in l
    ensures m <= i
  {
    if m > 0 {
      assert m - 1 in l;
      var k :| 0 <= k < |l| && l[k] == m - 1;
      assert k < i;
      AllBelowPresent(l, k, m - 1);
    }
  }

  /** An ascending list is determined by its members. */
  lemma {:induction false} SameMembersSameList(a: seq<nat>, b: seq<nat>)
    requires Ascending(a) && Ascending(b) && forall x: nat :: x in a <==> x in b
    ensures a == b
  {
    if b != [] {
      assert b[0] in b;
    }
    if a != [] {
      var m, n := |a| - 1, |b| - 1;
      assert a[m] in a;
      assert b != [];
      assert b[n] in b;
      assert a[m] == b[n];
      forall x: nat ensures x in a[..m] <==> x in b[..n] {
        assert x in a[..m] <==> x in a && x != a[m];
        assert x in b[..n] <==> x in b && x != b[n];
      }
      SameMembersSameList(a[..m], b[..n]);
      assert a == a[..m] + [a[m]] && b == b[..n] + [b[n]];
    }
  }
}
