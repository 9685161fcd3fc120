/** What the hard caps guarantee, and exactly when the total cap is met. */
module RecipeProperties {
  import opened Seqs
  import opened Wire
  import opened Recipes

  ghost predicate NonNegative(items: seq<CategoryRecipe>) {
    forall i | 0 <= i < |items| :: items[i].count >= 0
  }

  function Total(items: seq<CategoryRecipe>): int {
    TotalCount(CappedAll(items))
  }

  /** The counts are scaled down: the capped total is over the global cap. */
  predicate Scales(items: seq<CategoryRecipe>) {
    Total(items) > MAX_ASSETS_TOTAL
  }

  /** Item it loses everything to the scaling and is put back to 1. */
  predicate RoundedUp(count: int, total: int)
    requires total > 0
  {
    0 < count && count * MAX_ASSETS_TOTAL < total
  }

  /** How many items are put back to 1. */
  function RoundUps(capped: seq<CategoryRecipe>, total: int): nat
    requires total > 0
  {
    if capped == [] then 0
    else Ups(capped[0].count, total) + RoundUps(capped[1..], total)
  }

  /** What flooring takes away, in units of 1 / total. */
  function Losses(capped: seq<CategoryRecipe>, total: int): int
    requires total > 0
  {
    if capped == [] then 0
    else capped[0].count * MAX_ASSETS_TOTAL % total + Losses(capped[1..], total)
  }

  lemma FloorIs(x: real, q: int)
    requires q as real <= x < (q + 1) as real
    ensures x.Floor == q
  {
  }

  /** In exact arithmetic the scaled count is the integer quotient, or 1 where that would be 0. */
  lemma ScaledIsQuotient(count: int, total: int)
    requires count >= 0 && total > 0
    ensures ScaledCount(count, ScaleFor(total))
         == if RoundedUp(count, total) then 1 else count * MAX_ASSETS_TOTAL / total
  {
    var n := count * MAX_ASSETS_TOTAL;
    var q, rem := n / total, n % total;
    var x := count as real * ScaleFor(total);
    assert n == q * total + rem;
    assert x * total as real == n as real by {
      assert ScaleFor(total) * total as real == MAX_ASSETS_TOTAL as real;
      assert x * total as real == count as real * (ScaleFor(total) * total as real);
    }
    QuotientBounds(x, total, q, rem);
    FloorIs(x, q);
    QuotientZero(n, total);
  }

  lemma QuotientBounds(x: real, total: int, q: int, rem: int)
    requires total > 0 && 0 <= rem < total && x * total as real == (q * total + rem) as real
    ensures q as real <= x < (q + 1) as real
  {
    var t := total as real;
    assert x * t == q as real * t + rem as real;
    CancelFactor(q as real, x, t);
    CancelFactor(x, (q + 1) as real, t);
    assert ((q + 1) as real) * t == q as real * t + t;
  }

  lemma CancelFactor(a: real, b: real, t: real)
    requires t > 0.0
    ensures a * t <= b * t ==> a <= b
    ensures a * t < b * t ==> a < b
  {
  }

  lemma QuotientZero(n: int, total: int)
    requires n >= 0 && total > 0
    ensures n / total >= 0
    ensures n < total <==> n / total < 1
  {
    assert n == n / total * total + n % total;
  }

  lemma QuotientBelow(count: int, total: int)
    requires count >= 0 && total >= MAX_ASSETS_TOTAL
    ensures count * MAX_ASSETS_TOTAL / total <= count
  {
    var q := count * MAX_ASSETS_TOTAL / total;
    assert q * total <= count * MAX_ASSETS_TOTAL;
    if q > count {
      ProductGrows(count, q, total);
    }
  }

  lemma ProductGrows(count: int, q: int, total: int)
    requires count >= 0 && total >= MAX_ASSETS_TOTAL && q >= count + 1
    ensures q * total > count * MAX_ASSETS_TOTAL
  {
    assert q * total >= (count + 1) * total;
    assert (count + 1) * total >= (count + 1) * MAX_ASSETS_TOTAL;
  }

  lemma ScaleInt(p: int, q: int, t: int)
    requires t > 0
    ensures p >= q <==> p * t >= q * t
  {
  }

  lemma QuotientMonotone(a: int, b: int, total: int)
    requires 0 <= a <= b && total > 0
    ensures a / total <= b / total
  {
    assert a / total * total <= a;
    assert b < (b / total + 1) * total;
    ScaleInt(a / total, b / total + 1, total);
  }

  /**
   Count by count: nothing grows, no count is over the per-category cap, a positive count stays
   positive and zero stays zero, and the order between any two counts is kept.
   */
  lemma ClampKeepsCounts(items: seq<CategoryRecipe>)
    requires NonNegative(items)
    ensures var r := Clamped(items);
            && (forall i | 0 <= i < |items| ::
                  0 <= r[i].count <= items[i].count && r[i].count <= MAX_ASSETS_PER_CATEGORY
                  && (r[i].count == 0 <==> items[i].count == 0))
            && (forall i, j | 0 <= i < |items| && 0 <= j < |items| ::
                  items[i].count <= items[j].count ==> r[i].count <= r[j].count)
  {
    var capped, total := CappedAll(items), Total(items);
    if Scales(items) {
      forall i | 0 <= i < |items|
        ensures var c := capped[i].count;
                Clamped(items)[i].count == (if RoundedUp(c, total) then 1 else c * MAX_ASSETS_TOTAL / total)
                && 0 <= c * MAX_ASSETS_TOTAL / total <= c
      {
        ScaledIsQuotient(capped[i].count, total);
        QuotientBelow(capped[i].count, total);
        QuotientZero(capped[i].count * MAX_ASSETS_TOTAL, total);
      }
      forall i, j | 0 <= i < |items| && 0 <= j < |items| && items[i].count <= items[j].count
        ensures Clamped(items)[i].count <= Clamped(items)[j].count
      {
        QuotientMonotone(capped[i].count * MAX_ASSETS_TOTAL, capped[j].count * MAX_ASSETS_TOTAL, total);
        QuotientZero(capped[j].count * MAX_ASSETS_TOTAL, total);
      }
      forall i | 0 <= i < |items| && items[i].count > 0 ensures Clamped(items)[i].count > 0 {
        QuotientZero(capped[i].count * MAX_ASSETS_TOTAL, total);
      }
    }
  }

  function Smaller(a: int, b: int): int {
    if a < b then a else b
  }

  /** The exact share of a count when the counts are scaled is 5000 * count / total; portion is at most one asset below it. */
  predicate JustBelowShare(portion: int, count: int, total: int) {
    5000 * count - total < total * portion <= 5000 * count
  }

  lemma PortionIsShare(count: int, total: int)
    requires count >= 0 && total > 0 && !(count > 0 && 5000 * count < total)
    ensures JustBelowShare(ScaledCount(count, ScaleFor(total)), count, total)
  {
    ScaledIsQuotient(count, total);
    var n := count * MAX_ASSETS_TOTAL;
    assert n == n / total * total + n % total;
  }

  lemma {:induction false} SmallerTotal(items: seq<CategoryRecipe>)
    ensures TotalCount(CappedAll(items)) == SmallerSum(items)
  {
    if items != [] {
      assert CappedAll(items)[1..] == CappedAll(items[1..]);
      SmallerTotal(items[1..]);
    }
  }

  /** The sum of the counts, each no more than 2000. */
  function SmallerSum(items: seq<CategoryRecipe>): int {
    if items == [] then 0 else Smaller(items[0].count, 2000) + SmallerSum(items[1..])
  }

  /**
   What clamping does to each count. If the counts, each cut to 2000, add up to at most 5000, every count comes
   out cut to 2000 and no more; so a recipe within both caps is untouched. Otherwise every count comes out at
   most one asset below its exact share of 5000, except that a positive count whose share is below 1 becomes 1.
   */
  lemma ClampMeans(items: seq<CategoryRecipe>, i: nat)
    requires NonNegative(items) && i < |items|
    ensures var r, total, count := Clamped(items)[i], SmallerSum(items), Smaller(items[i].count, 2000);
            && r.category == items[i].category && r.clustering == items[i].clustering && r.tags == items[i].tags
            && if total <= 5000 then r.count == count
               else if count > 0 && 5000 * count < total then r.count == 1
               else JustBelowShare(r.count, count, total)
  {
    SmallerTotal(items);
    var total, count := SmallerSum(items), Smaller(items[i].count, 2000);
    assert CappedAll(items)[i].count == count;
    if total > 5000 {
      ScaledIsQuotient(count, total);
      if !(count > 0 && 5000 * count < total) {
        PortionIsShare(count, total);
      }
    }
  }

  /** A recipe within both caps is left as it is. */
  lemma WithinCapsUntouched(items: seq<CategoryRecipe>)
    requires NonNegative(items) && TotalCount(items) <= 5000 && forall i | 0 <= i < |items| :: items[i].count <= 2000
    ensures Clamped(items) == items
  {
    SmallerTotal(items);
    assert CappedAll(items) == items;
  }

  function Ups(count: int, total: int): nat
    requires total > 0
  {
    if RoundedUp(count, total) then 1 else 0
  }

  lemma ItemAccount(count: int, total: int)
    requires count >= 0 && total > 0
    ensures total * ScaledCount(count, ScaleFor(total))
         == MAX_ASSETS_TOTAL * count - count * MAX_ASSETS_TOTAL % total + total * Ups(count, total)
    ensures 0 <= count * MAX_ASSETS_TOTAL % total <= total - 1
  {
    var n := count * MAX_ASSETS_TOTAL;
    ScaledIsQuotient(count, total);
    QuotientZero(n, total);
    assert total * (n / total) == n - n % total;
    Distribute(total, n / total, Ups(count, total));
  }

  /** The exact account of the scaled total: total * S == 5000 * (sum of counts) - losses + total * round-ups. */
  lemma {:induction false} ScaledAccount(capped: seq<CategoryRecipe>, total: int)
    requires NonNegative(capped) && total > 0
    ensures total * TotalCount(ScaledAll(capped, ScaleFor(total)))
         == MAX_ASSETS_TOTAL * TotalCount(capped) - Losses(capped, total) + total * RoundUps(capped, total)
    ensures 0 <= Losses(capped, total) <= (total - 1) * |capped|
  {
    var scale := ScaleFor(total);
    if capped != [] {
      var c, rest := capped[0].count, capped[1..];
      ScaledAccount(rest, total);
      ItemAccount(c, total);
      assert ScaledAll(capped, scale)[1..] == ScaledAll(rest, scale);
      Distribute(total, ScaledCount(c, scale), TotalCount(ScaledAll(rest, scale)));
      Distribute(total, Ups(c, total), RoundUps(rest, total));
      Distribute(total - 1, 1, |rest|);
    } else {
      assert ScaledAll(capped, scale) == [];
    }
  }

  lemma Distribute(t: int, a: int, b: int)
    ensures t * (a + b) == t * a + t * b
  {
  }

  /** When scaling happens, the new total misses 5000 by less than the item count and exceeds it by at most the round-ups. */
  lemma ScaledTotalBounds(items: seq<CategoryRecipe>)
    requires NonNegative(items) && Scales(items)
    ensures var sum := TotalCount(Clamped(items));
            var ups := RoundUps(CappedAll(items), Total(items));
            MAX_ASSETS_TOTAL - |items| < sum <= MAX_ASSETS_TOTAL + ups && ups <= |items|
  {
    var capped, total := CappedAll(items), Total(items);
    var sum, ups, lost := TotalCount(Clamped(items)), RoundUps(capped, total), Losses(capped, total);
    ScaledAccount(capped, total);
    RoundUpsBound(capped, total);
    assert total * sum == MAX_ASSETS_TOTAL * total - lost + total * ups;
    LinearBounds(total, sum, ups, lost, |items|);
  }

  lemma {:induction false} RoundUpsBound(capped: seq<CategoryRecipe>, total: int)
    requires total > 0
    ensures RoundUps(capped, total) <= |capped|
  {
    if capped != [] {
      RoundUpsBound(capped[1..], total);
    }
  }

  lemma SignFromProduct(total: int, d: int, lost: int, n: int)
    requires total > 0 && n > 0 && total * d == -lost && 0 <= lost <= (total - 1) * n
    ensures -n < d <= 0
  {
    ScaleInt(0, d, total);
    ScaleInt(0, d + n, total);
    Distribute(total, d, n);
    Distribute(n, total - 1, 1);
    assert n * (total - 1) == (total - 1) * n && n * total == total * n;
  }

  lemma LinearBounds(total: int, sum: int, ups: nat, lost: int, n: nat)
    requires total > MAX_ASSETS_TOTAL && n > 0
    requires total * sum == MAX_ASSETS_TOTAL * total - lost + total * ups
    requires 0 <= lost <= (total - 1) * n
    ensures MAX_ASSETS_TOTAL - n < sum <= MAX_ASSETS_TOTAL + ups
  {
    var d := sum - MAX_ASSETS_TOTAL - ups;
    Distribute(total, d, MAX_ASSETS_TOTAL + ups);
    Distribute(total, MAX_ASSETS_TOTAL, ups);
    SignFromProduct(total, d, lost, n);
  }

  lemma CapFromAccount(total: int, sum: int, ups: int, lost: int)
    requires total > 0
    requires total * sum == MAX_ASSETS_TOTAL * total - lost + total * ups
    ensures sum <= MAX_ASSETS_TOTAL <==> total * ups <= lost
  {
    ScaleInt(MAX_ASSETS_TOTAL, sum, total);
  }

  /**
   The documented cap on the total, exactly: it holds unless the counts are scaled and putting
   vanished counts back to 1 costs more than flooring saved.
   */
  lemma TotalCapExactly(items: seq<CategoryRecipe>)
    requires NonNegative(items)
    ensures TotalCount(Clamped(items)) <= MAX_ASSETS_TOTAL <==>
              (Scales(items) ==>
                 Total(items) * RoundUps(CappedAll(items), Total(items)) <= Losses(CappedAll(items), Total(items)))
  {
    if Scales(items) {
      var capped, total := CappedAll(items), Total(items);
      var sum, ups, lost := TotalCount(Clamped(items)), RoundUps(capped, total), Losses(capped, total);
      ScaledAccount(capped, total);
      CapFromAccount(total, sum, ups, lost);
    }
  }

  /** In particular the cap holds whenever no count is put back to 1. */
  lemma NoRoundUpNoExcess(items: seq<CategoryRecipe>)
    requires NonNegative(items)
    requires Scales(items) ==> RoundUps(CappedAll(items), Total(items)) == 0
    ensures TotalCount(Clamped(items)) <= MAX_ASSETS_TOTAL
  {
    if Scales(items) {
      ScaledTotalBounds(items);
    }
  }

  /** Distinct category names. */
  function Name(k: nat): string {
    seq(k + 1, i => 'c')
  }

  function Batch(first: nat, n: nat, count: int): seq<CategoryRecipe> {
    seq(n, i requires 0 <= i < n => CategoryRecipe(Name(first + i), count, 0.0, []))
  }

  /** Three categories of 2000 and twenty of 1. */
  function Crowd(): seq<CategoryRecipe> {
    Batch(0, 3, 2000) + Batch(3, 20, 1)
  }

  lemma {:induction false} BatchTotal(first: nat, n: nat, count: int)
    ensures TotalCount(Batch(first, n, count)) == n * count
    decreases n
  {
    if n > 0 {
      assert Batch(first, n, count)[1..] == Batch(first + 1, n - 1, count);
      BatchTotal(first + 1, n - 1, count);
      assert n * count == (n - 1) * count + count;
    }
  }

  ghost predicate Names23(man: Manifest) {
    forall k: nat | k < 23 :: Name(k) in man
  }

  lemma CrowdIsValid(man: Manifest)
    requires Names23(man)
    ensures ValidRecipe(Crowd(), man)
  {
    var items := Crowd();
    forall i | 0 <= i < |items| ensures items[i].category == Name(i) && items[i].count >= 0 {
    }
    forall i, j | 0 <= i < j < |items| ensures items[i].category != items[j].category {
      assert |Name(i)| != |Name(j)|;
    }
  }

  lemma {:induction false} TotalConcat(a: seq<CategoryRecipe>, b: seq<CategoryRecipe>)
    ensures TotalCount(a + b) == TotalCount(a) + TotalCount(b)
  {
    if a == [] {
      assert a + b == b;
    } else {
      assert (a + b)[1..] == a[1..] + b;
      TotalConcat(a[1..], b);
    }
  }

  lemma ScaledBatch(first: nat, n: nat, count: int, scaled: int)
    requires ScaledCount(count, ScaleFor(6020)) == scaled
    ensures ScaledAll(Batch(first, n, count), ScaleFor(6020)) == Batch(first, n, scaled)
  {
  }

  /** The documented total cap is not absolute: a valid recipe of three counts of 2000 and twenty of 1 comes out at 5003. */
  lemma TotalCapExceeded(man: Manifest)
    requires Names23(man)
    ensures ValidRecipe(Crowd(), man) && TotalCount(Clamped(Crowd())) == 5003
  {
    var big, small := Batch(0, 3, 2000), Batch(3, 20, 1);
    CrowdIsValid(man);
    assert CappedAll(Crowd()) == Crowd();
    TotalConcat(big, small);
    BatchTotal(0, 3, 2000);
    BatchTotal(3, 20, 1);
    assert Total(Crowd()) == 6020;
    ScaledIsQuotient(2000, 6020);
    ScaledIsQuotient(1, 6020);
    ScaledBatch(0, 3, 2000, 1661);
    ScaledBatch(3, 20, 1, 1);
    MapAppend((it: CategoryRecipe) => it.(count := ScaledCount(it.count, ScaleFor(6020))), big, small);
    assert Clamped(Crowd()) == Batch(0, 3, 1661) + small;
    TotalConcat(Batch(0, 3, 1661), small);
    BatchTotal(0, 3, 1661);
  }

  lemma {:induction false} TotalNonNegative(items: seq<CategoryRecipe>)
    requires NonNegative(items)
    ensures TotalCount(items) >= 0
  {
    if items != [] {
      TotalNonNegative(items[1..]);
    }
  }

  /** Clamping a valid recipe leaves a valid recipe over the same categories. */
  lemma ClampKeepsValid(items: seq<CategoryRecipe>, man: Manifest)
    requires ValidRecipe(items, man)
    ensures ValidRecipe(Clamped(items), man)
  {
    var r := Clamped(items);
    ClampKeepsCounts(items);
    forall it | it in r ensures it.category in man && it.count >= 0 {
      var i :| 0 <= i < |r| && r[i] == it;
      assert items[i] in items;
    }
  }

  /** What the hard caps leave of any recipe: 2000 a category, and 5000 in all up to one extra per category. */
  ghost predicate WithinCaps(items: seq<CategoryRecipe>) {
    && (forall i | 0 <= i < |items| :: items[i].count <= MAX_ASSETS_PER_CATEGORY)
    && TotalCount(items) <= MAX_ASSETS_TOTAL + |items|
  }

  lemma ClampMeetsCaps(items: seq<CategoryRecipe>)
    requires NonNegative(items)
    ensures WithinCaps(Clamped(items))
  {
    ClampKeepsCounts(items);
    if Scales(items) {
      ScaledTotalBounds(items);
    }
  }

  /** The category to count map sent in a plan, built item by item. */
  function CategoryCounts(items: seq<CategoryRecipe>): map<string, int> {
    if items == [] then map[]
    else
      var last := items[|items| - 1];
      CategoryCounts(items[..|items| - 1])[last.category := last.count]
  }

  lemma {:induction false} CategoryCountsKeys(items: seq<CategoryRecipe>, c: string)
    ensures c in CategoryCounts(items) <==> exists i | 0 <= i < |items| :: items[i].category == c
  {
    if items != [] {
      CategoryCountsKeys(items[..|items| - 1], c);
      assert items[|items| - 1].category in CategoryCounts(items);
    }
  }

  /** With distinct categories the map's values add up to the recipe's total, and each is its item's count. */
  lemma {:induction false} CategoryCountsSum(items: seq<CategoryRecipe>)
    requires DistinctCategories(items)
    ensures MapSum(CategoryCounts(items)) == TotalCount(items)
    ensures forall i | 0 <= i < |items| ::
              items[i].category in CategoryCounts(items) && CategoryCounts(items)[items[i].category] == items[i].count
  {
    if items != [] {
      var front, last := items[..|items| - 1], items[|items| - 1];
      assert items == front + [last];
      CategoryCountsSum(front);
      CategoryCountsKeys(front, last.category);
      TotalPush(front, last);
      MapSumPut(CategoryCounts(front), last.category, last.count);
      forall i | 0 <= i < |front| ensures items[i].category in CategoryCounts(front) && items[i] == front[i] {
      }
    }
  }

  lemma {:induction false} CategoryCountsSize(items: seq<CategoryRecipe>)
    requires DistinctCategories(items)
    ensures |CategoryCounts(items)| == |items|
  {
    if items != [] {
      var front, last := items[..|items| - 1], items[|items| - 1];
      CategoryCountsSize(front);
      CategoryCountsKeys(front, last.category);
      assert CategoryCounts(items).Keys == CategoryCounts(front).Keys + {last.category};
    }
  }
}
