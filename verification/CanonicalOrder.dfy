/** The canonical placement order: radius descending, category name ascending, ties kept in input order. */
module CanonicalOrder {
  import opened Seqs
  import opened Wire

  /** Byte-wise string order. */
  predicate LexLess(a: string, b: string) {
    b != [] && (a == [] || a[0] < b[0] || (a[0] == b[0] && LexLess(a[1..], b[1..])))
  }

  lemma {:induction false} LexTrichotomy(a: string, b: string)
    ensures LexLess(a, b) || a == b || LexLess(b, a)
    ensures !(LexLess(a, b) && LexLess(b, a))
    ensures !LexLess(a, a)
  {
    if a != [] {
      LexTrichotomy(a[1..], a[1..]);
    }
    if a != [] && b != [] {
      LexTrichotomy(a[1..], b[1..]);
      if a[0] == b[0] && a[1..] == b[1..] {
        assert a == [a[0]] + a[1..] == b;
      }
    }
  }

  /** a stops where b goes on, or is smaller at k, where the two first differ. */
  predicate SmallerAt(a: string, b: string, k: nat) {
    && k <= |a| && k < |b| && a[..k] == b[..k]
    && (k < |a| ==> a[k] < b[k])
  }

  lemma {:induction false} LessFindsSmaller(a: string, b: string) returns (k: nat)
    requires LexLess(a, b)
    ensures SmallerAt(a, b, k)
  {
    k := 0;
    if a != [] && a[0] == b[0] {
      var j := LessFindsSmaller(a[1..], b[1..]);
      k := j + 1;
      assert a == [a[0]] + a[1..] && b == [b[0]] + b[1..];
      assert a[..k] == [a[0]] + a[1..][..j] && b[..k] == [b[0]] + b[1..][..j];
    }
  }

  lemma {:induction false} SmallerIsLess(a: string, b: string, k: nat)
    requires SmallerAt(a, b, k)
    ensures LexLess(a, b)
  {
    if k > 0 {
      assert a[..k][0] == a[0] && b[..k][0] == b[0];
      assert a[1..][..k - 1] == a[..k][1..] && b[1..][..k - 1] == b[..k][1..];
      SmallerIsLess(a[1..], b[1..], k - 1);
    }
  }

  /** The order is the dictionary's: decided at the first difference, a prefix before what it begins. */
  lemma LexIsDictionary(a: string, b: string)
    ensures LexLess(a, b) <==> exists k: nat :: SmallerAt(a, b, k)
  {
    if LexLess(a, b) {
      var k := LessFindsSmaller(a, b);
    }
    forall k: nat | SmallerAt(a, b, k) ensures LexLess(a, b) {
      SmallerIsLess(a, b, k);
    }
  }

  lemma {:induction false} LexTransitive(a: string, b: string, c: string)
    requires LexLess(a, b) && LexLess(b, c)
    ensures LexLess(a, c)
  {
    if a != [] && a[0] == b[0] == c[0] {
      LexTransitive(a[1..], b[1..], c[1..]);
    }
  }

  /** The comparison handed to the sort: category a goes strictly before category b. */
  predicate Before(man: Manifest, a: string, b: string) {
    var ra, rb := RadiusOf(man, a), RadiusOf(man, b);
    if ra != rb then ra > rb else LexLess(a, b)
  }

  lemma BeforeTrichotomy(man: Manifest, a: string, b: string)
    ensures Before(man, a, b) || a == b || Before(man, b, a)
    ensures !(Before(man, a, b) && Before(man, b, a))
    ensures !Before(man, a, a)
  {
    LexTrichotomy(a, b);
  }

  lemma BeforeTransitive(man: Manifest, a: string, b: string, c: string)
    requires !Before(man, b, a) && !Before(man, c, b)
    ensures !Before(man, c, a)
  {
    LexTrichotomy(a, b);
    LexTrichotomy(b, c);
    LexTrichotomy(a, c);
    if LexLess(a, b) && LexLess(b, c) {
      LexTransitive(a, b, c);
    }
  }

  /** No item stands behind one that should come after it. */
  ghost predicate Sorted(man: Manifest, s: seq<CategoryRecipe>) {
    forall i, j | 0 <= i < j < |s| :: !Before(man, s[j].category, s[i].category)
  }

  /** Moves x left past every item it goes strictly before, as a stable insertion step does. */
  function SlideIn(man: Manifest, s: seq<CategoryRecipe>, x: CategoryRecipe): (r: seq<CategoryRecipe>)
    ensures |r| == |s| + 1
  {
    if s != [] && Before(man, x.category, s[|s| - 1].category)
    then SlideIn(man, s[..|s| - 1], x) + [s[|s| - 1]]
    else s + [x]
  }

  /** The stable sort of the items in canonical order. */
  function Canonical(man: Manifest, items: seq<CategoryRecipe>): (r: seq<CategoryRecipe>)
    ensures |r| == |items|
  {
    if items == [] then []
    else SlideIn(man, Canonical(man, items[..|items| - 1]), items[|items| - 1])
  }

  /** The items of each category appear in both sequences the same number of times, in the same order. */
  ghost predicate SameByCategory(s: seq<CategoryRecipe>, t: seq<CategoryRecipe>) {
    forall c :: Filter(s, ItemOf(c)) == Filter(t, ItemOf(c))
  }

  lemma {:induction false} SlideInSorts(man: Manifest, s: seq<CategoryRecipe>, x: CategoryRecipe)
    requires Sorted(man, s)
    ensures Sorted(man, SlideIn(man, s, x))
    ensures forall y | y in SlideIn(man, s, x) :: y == x || y in s
  {
    if s != [] {
      var last := s[|s| - 1];
      if Before(man, x.category, last.category) {
        var front := s[..|s| - 1];
        SlideInSorts(man, front, x);
        BeforeTrichotomy(man, x.category, last.category);
        forall y | y in SlideIn(man, front, x) ensures !Before(man, last.category, y.category) {
          if y != x {
            var i :| 0 <= i < |front| && front[i] == y;
          }
        }
      } else {
        BeforeTrichotomy(man, last.category, last.category);
        forall i | 0 <= i < |s| ensures !Before(man, x.category, s[i].category) {
          BeforeTransitive(man, s[i].category, last.category, x.category);
        }
      }
    }
  }

  lemma {:induction false} SlideInStable(man: Manifest, s: seq<CategoryRecipe>, x: CategoryRecipe, c: string)
    ensures Filter(SlideIn(man, s, x), ItemOf(c)) == Filter(s + [x], ItemOf(c))
  {
    if s != [] && Before(man, x.category, s[|s| - 1].category) {
      var front, last := s[..|s| - 1], s[|s| - 1];
      SlideInStable(man, front, x, c);
      BeforeTrichotomy(man, x.category, last.category);
      FilterPush(SlideIn(man, front, x), last, ItemOf(c));
      FilterPush(front, x, ItemOf(c));
      FilterPush(s, x, ItemOf(c));
      assert s == front + [last];
      FilterPush(front, last, ItemOf(c));
    }
  }

  /** Canonical is a stable sort: sorted, and every category keeps its items in input order. */
  lemma {:induction false} CanonicalIsStableSort(man: Manifest, items: seq<CategoryRecipe>)
    ensures Sorted(man, Canonical(man, items))
    ensures SameByCategory(Canonical(man, items), items)
  {
    if items != [] {
      var front, last := items[..|items| - 1], items[|items| - 1];
      CanonicalIsStableSort(man, front);
      var sorted := Canonical(man, front);
      SlideInSorts(man, sorted, last);
      forall c ensures Filter(Canonical(man, items), ItemOf(c)) == Filter(items, ItemOf(c)) {
        SlideInStable(man, sorted, last, c);
        FilterPush(sorted, last, ItemOf(c));
        FilterPush(front, last, ItemOf(c));
        assert items == front + [last];
      }
    }
  }

  /** In placement order radii never grow, and equal radii go by category name. */
  lemma CanonicalOrders(man: Manifest, items: seq<CategoryRecipe>, i: nat, j: nat)
    requires i < j < |items|
    ensures var r := Canonical(man, items);
            && RadiusOf(man, r[i].category) >= RadiusOf(man, r[j].category)
            && (RadiusOf(man, r[i].category) == RadiusOf(man, r[j].category) ==>
                  r[i].category == r[j].category || LexLess(r[i].category, r[j].category))
  {
    CanonicalIsStableSort(man, items);
    var r := Canonical(man, items);
    LexTrichotomy(r[i].category, r[j].category);
  }

  lemma SameByCategoryMember(s: seq<CategoryRecipe>, t: seq<CategoryRecipe>, x: CategoryRecipe)
    requires SameByCategory(s, t) && x in s
    ensures x in t
  {
    FilterMember(s, ItemOf(x.category), x);
    FilterMember(t, ItemOf(x.category), x);
  }

  /** Two sorted arrangements of the same items end with items of one category. */
  lemma LastsAgree(man: Manifest, s: seq<CategoryRecipe>, t: seq<CategoryRecipe>)
    requires Sorted(man, s) && Sorted(man, t) && SameByCategory(s, t) && s != [] && t != []
    ensures s[|s| - 1].category == t[|t| - 1].category
  {
    var x, y := s[|s| - 1], t[|t| - 1];
    SameByCategoryMember(s, t, x);
    SameByCategoryMember(t, s, y);
    var i :| 0 <= i < |t| && t[i] == x;
    var j :| 0 <= j < |s| && s[j] == y;
    BeforeTrichotomy(man, x.category, y.category);
  }

  lemma DropSame<T>(a: seq<T>, b: seq<T>, tail: seq<T>)
    requires a + tail == b + tail
    ensures a == b
  {
    assert |a| == |b|;
    assert a == (a + tail)[..|a|] == (b + tail)[..|b|] == b;
  }

  /** A stable sort has only one result, whatever the algorithm. */
  lemma {:induction false} StableSortUnique(man: Manifest, s: seq<CategoryRecipe>, t: seq<CategoryRecipe>)
    requires Sorted(man, s) && Sorted(man, t) && SameByCategory(s, t)
    ensures s == t
    decreases |s|
  {
    if s == [] {
      if t != [] {
        SameByCategoryMember(t, s, t[0]);
      }
    } else if t == [] {
      SameByCategoryMember(s, t, s[0]);
    } else {
      var s', x := s[..|s| - 1], s[|s| - 1];
      var t', y := t[..|t| - 1], t[|t| - 1];
      assert s == s' + [x] && t == t' + [y];
      LastsAgree(man, s, t);
      var mine := ItemOf(x.category);
      FilterPush(s', x, mine);
      FilterPush(t', y, mine);
      assert Filter(s, mine)[|Filter(s, mine)| - 1] == Filter(t, mine)[|Filter(t, mine)| - 1];
      assert x == y;
      forall c ensures Filter(s', ItemOf(c)) == Filter(t', ItemOf(c)) {
        FilterPush(s', x, ItemOf(c));
        FilterPush(t', y, ItemOf(c));
        DropSame(Filter(s', ItemOf(c)), Filter(t', ItemOf(c)), if ItemOf(c)(x) then [x] else []);
      }
      StableSortUnique(man, s', t');
    }
  }

  /** Filtering a recipe with distinct categories leaves the one item of that category, if any. */
  lemma {:induction false} FilterDistinct(s: seq<CategoryRecipe>, c: string)
    requires DistinctCategories(s)
    ensures |Filter(s, ItemOf(c))| <= 1
  {
    if s != [] {
      FilterDistinct(s[1..], c);
      if s[0].category == c {
        forall x | x in s[1..] ensures !ItemOf(c)(x) {
          var i :| 0 <= i < |s| - 1 && s[1..][i] == x;
          assert s[i + 1] == x;
        }
        FilterNone(s[1..], ItemOf(c));
      }
    }
  }

  lemma Removed<T>(t: seq<T>, m: nat)
    requires m < |t|
    ensures multiset(t) == multiset(t[..m] + t[m + 1..]) + multiset{t[m]}
  {
    assert t == t[..m] + [t[m]] + t[m + 1..];
  }

  /** A permutation of a nonempty sequence is its head put somewhere into a permutation of its tail. */
  lemma TakeOutHead<T>(s: seq<T>, t: seq<T>) returns (rest: seq<T>, m: nat)
    requires multiset(s) == multiset(t) && s != []
    ensures m <= |rest| && t == rest[..m] + [s[0]] + rest[m..]
    ensures multiset(s[1..]) == multiset(rest)
  {
    assert s[0] in multiset(t);
    m :| 0 <= m < |t| && t[m] == s[0];
    rest := t[..m] + t[m + 1..];
    Removed(t, m);
    assert s == [s[0]] + s[1..];
    assert multiset(s) == multiset{s[0]} + multiset(s[1..]);
    assert multiset(rest) == multiset(t) - multiset{s[0]};
  }

  lemma HeadDistinct(s: seq<CategoryRecipe>, y: CategoryRecipe)
    requires DistinctCategories(s) && s != [] && y in s[1..]
    ensures y.category != s[0].category
  {
    var n :| 0 <= n < |s| - 1 && s[1..][n] == y;
    assert s[n + 1] == y;
  }

  lemma {:induction false} PermutationDistinct(s: seq<CategoryRecipe>, t: seq<CategoryRecipe>)
    requires multiset(s) == multiset(t) && DistinctCategories(s)
    ensures DistinctCategories(t)
    decreases |s|
  {
    if s == [] {
      assert |multiset(t)| == |t|;
    } else {
      var rest, m := TakeOutHead(s, t);
      PermutationDistinct(s[1..], rest);
      forall k | 0 <= k < |rest| ensures rest[k].category != s[0].category {
        assert rest[k] in multiset(s[1..]);
        HeadDistinct(s, rest[k]);
      }
      InsertDistinct(rest, m, s[0]);
    }
  }

  lemma InsertDistinct(s: seq<CategoryRecipe>, m: nat, x: CategoryRecipe)
    requires DistinctCategories(s) && m <= |s|
    requires forall k | 0 <= k < |s| :: s[k].category != x.category
    ensures DistinctCategories(s[..m] + [x] + s[m..])
  {
  }

  /** With distinct categories any permutation has the same items category by category. */
  lemma PermutationSameByCategory(s: seq<CategoryRecipe>, t: seq<CategoryRecipe>)
    requires multiset(s) == multiset(t)
    requires DistinctCategories(s) && DistinctCategories(t)
    ensures SameByCategory(s, t)
  {
    forall c ensures Filter(s, ItemOf(c)) == Filter(t, ItemOf(c)) {
      FilterDistinct(s, c);
      FilterDistinct(t, c);
      var fs, ft := Filter(s, ItemOf(c)), Filter(t, ItemOf(c));
      forall x ensures x in fs <==> x in ft {
        FilterMember(s, ItemOf(c), x);
        FilterMember(t, ItemOf(c), x);
        assert x in s <==> x in multiset(s);
        assert x in t <==> x in multiset(t);
      }
      if fs != [] {
        assert fs[0] in ft;
      }
      if ft != [] {
        assert ft[0] in fs;
      }
    }
  }

  /** Items arranged the same way category by category sort to the same sequence. */
  lemma CanonicalRespectsCategories(man: Manifest, s: seq<CategoryRecipe>, t: seq<CategoryRecipe>)
    requires SameByCategory(s, t)
    ensures Canonical(man, s) == Canonical(man, t)
  {
    CanonicalIsStableSort(man, s);
    CanonicalIsStableSort(man, t);
    StableSortUnique(man, Canonical(man, s), Canonical(man, t));
  }

  /** Appending an item that goes before no other leaves the rest of the order alone. */
  lemma CanonicalAppendLast(man: Manifest, s: seq<CategoryRecipe>, x: CategoryRecipe)
    requires forall y | y in s :: !Before(man, x.category, y.category)
    ensures Canonical(man, s + [x]) == Canonical(man, s) + [x]
  {
    assert (s + [x])[..|s|] == s;
    var sorted := Canonical(man, s);
    if sorted != [] {
      CanonicalIsStableSort(man, s);
      SameByCategoryMember(sorted, s, sorted[|sorted| - 1]);
    }
  }

  lemma {:induction false} TotalSlideIn(man: Manifest, s: seq<CategoryRecipe>, x: CategoryRecipe)
    ensures TotalCount(SlideIn(man, s, x)) == TotalCount(s) + x.count
  {
    if s != [] && Before(man, x.category, s[|s| - 1].category) {
      var front, last := s[..|s| - 1], s[|s| - 1];
      assert s == front + [last];
      TotalSlideIn(man, front, x);
      TotalPush(SlideIn(man, front, x), last);
      TotalPush(front, last);
    } else {
      TotalPush(s, x);
    }
  }

  lemma {:induction false} TotalCanonical(man: Manifest, items: seq<CategoryRecipe>)
    ensures TotalCount(Canonical(man, items)) == TotalCount(items)
  {
    if items != [] {
      var front, last := items[..|items| - 1], items[|items| - 1];
      assert items == front + [last];
      TotalCanonical(man, front);
      TotalSlideIn(man, Canonical(man, front), last);
      TotalPush(front, last);
    }
  }

  lemma TwoOfACategory(s: seq<CategoryRecipe>, i: nat, j: nat)
    requires i < j < |s| && s[i].category == s[j].category
    ensures |Filter(s, ItemOf(s[i].category))| >= 2
  {
    var mine := ItemOf(s[i].category);
    assert s == s[..j] + s[j..];
    FilterAppend(s[..j], s[j..], mine);
    assert s[..j][i] == s[i] && s[j..][0] == s[j];
    FilterMember(s[..j], mine, s[i]);
    FilterMember(s[j..], mine, s[j]);
  }

  /** Sorting keeps distinct categories distinct. */
  lemma CanonicalDistinct(man: Manifest, items: seq<CategoryRecipe>)
    requires DistinctCategories(items)
    ensures DistinctCategories(Canonical(man, items))
  {
    var sorted := Canonical(man, items);
    CanonicalIsStableSort(man, items);
    forall i, j | 0 <= i < j < |sorted| ensures sorted[i].category != sorted[j].category {
      if sorted[i].category == sorted[j].category {
        TwoOfACategory(sorted, i, j);
      }
      FilterDistinct(items, sorted[i].category);
    }
  }
}
