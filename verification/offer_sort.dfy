/** The stable sort behind the main page's sort options.

    The page sorts a copy of the city's offers with `Array.prototype.sort`
    and one of three comparators. ECMA-262 requires that sort to be stable
    (elements the comparator calls equal keep their input order) and to
    leave every adjacent pair with a non-positive comparator value. Every
    comparator here is the difference of an integer key, so the model sorts
    by that key with a stable insertion sort and proves: permutation,
    sortedness, stability, and that these three pin the result down. */
module OfferSort {
  import opened Offers

  /** The three orders a comparator can ask for. */
  datatype SortKey = PriceAscending | PriceDescending | RatingDescending

  /** The comparator the page passes to `sort`: negative when `a` goes first. */
  function Compare(order: SortKey, a: Offer, b: Offer): (c: int)
    ensures order == PriceAscending ==> (c <= 0 <==> a.price <= b.price) && (c == 0 <==> a.price == b.price)
    ensures order == PriceDescending ==> (c <= 0 <==> a.price >= b.price) && (c == 0 <==> a.price == b.price)
    ensures order == RatingDescending ==> (c <= 0 <==> a.rating >= b.rating) && (c == 0 <==> a.rating == b.rating)
  {
    match order
    case PriceAscending => a.price - b.price
    case PriceDescending => b.price - a.price
    case RatingDescending => b.rating - a.rating
  }

  /** An integer key whose difference is the comparator. */
  function Key(order: SortKey, o: Offer): int
  {
    match order
    case PriceAscending => o.price
    case PriceDescending => -o.price
    case RatingDescending => -o.rating
  }

  /** Every pair, in order, is one the comparator accepts (not just adjacent ones). */
  ghost predicate Sorted(order: SortKey, s: seq<Offer>)
  {
    forall i, j :: 0 <= i < j < |s| ==> Key(order, s[i]) <= Key(order, s[j])
  }

  /** The offers of `s` whose key is `k`, in their order in `s`: the group of
      mutual ties a stable sort must not reorder. */
  function Ties(order: SortKey, s: seq<Offer>, k: int): (t: seq<Offer>)
    ensures |t| <= |s|
    ensures forall x :: x in t ==> x in s && Key(order, x) == k
  {
    if |s| == 0 then []
    else (if Key(order, s[0]) == k then [s[0]] else []) + Ties(order, s[1..], k)
  }

  /** Puts `x` before the first element whose key is not smaller than its own. */
  function Insert(order: SortKey, x: Offer, s: seq<Offer>): seq<Offer>
  {
    if |s| == 0 || Key(order, x) <= Key(order, s[0]) then [x] + s
    else [s[0]] + Insert(order, x, s[1..])
  }

  /** Insertion sort: sort the tail, then insert the head in front of its
      equals, so an earlier element stays ahead of every later tie. */
  function InsertionSort(order: SortKey, s: seq<Offer>): (r: seq<Offer>)
    ensures multiset(r) == multiset(s)
    ensures Sorted(order, r)
    ensures forall k :: Ties(order, r, k) == Ties(order, s, k)
  {
    if |s| == 0 then []
    else
      var t := InsertionSort(order, s[1..]);
      InsertKeepsElements(order, s[0], t);
      InsertKeepsSorted(order, s[0], t);
      TiesOfCons(order, s[0], s[1..]);
      assert s == [s[0]] + s[1..];
      forall k ensures Ties(order, Insert(order, s[0], t), k) == Ties(order, s, k) {
        InsertKeepsTies(order, s[0], t, k);
        TiesOfCons(order, s[0], t);
      }
      Insert(order, s[0], t)
  }

  lemma {:induction false} InsertKeepsElements(order: SortKey, x: Offer, s: seq<Offer>)
    ensures multiset(Insert(order, x, s)) == multiset{x} + multiset(s)
    decreases |s|
  {
    if |s| == 0 || Key(order, x) <= Key(order, s[0]) {
    } else {
      InsertKeepsElements(order, x, s[1..]);
      assert s == [s[0]] + s[1..];
    }
  }

  lemma {:induction false} InsertMembers(order: SortKey, x: Offer, s: seq<Offer>)
    ensures forall y :: y in Insert(order, x, s) ==> y == x || y in s
    decreases |s|
  {
    if |s| == 0 || Key(order, x) <= Key(order, s[0]) {
    } else {
      InsertMembers(order, x, s[1..]);
    }
  }

  lemma {:induction false} InsertKeepsSorted(order: SortKey, x: Offer, s: seq<Offer>)
    requires Sorted(order, s)
    ensures Sorted(order, Insert(order, x, s))
    decreases |s|
  {
    if |s| == 0 || Key(order, x) <= Key(order, s[0]) {
      var r := [x] + s;
      forall i, j | 0 <= i < j < |r| ensures Key(order, r[i]) <= Key(order, r[j]) {
        assert r[j] == s[j - 1];
        if i > 0 {
          assert r[i] == s[i - 1];
        }
      }
    } else {
      var tail := Insert(order, x, s[1..]);
      InsertKeepsSorted(order, x, s[1..]);
      InsertMembers(order, x, s[1..]);
      forall y | y in tail ensures Key(order, s[0]) <= Key(order, y) {
        if y != x {
          var m :| 1 <= m < |s| && s[m] == y;
        }
      }
      var r := [s[0]] + tail;
      forall i, j | 0 <= i < j < |r| ensures Key(order, r[i]) <= Key(order, r[j]) {
        assert r[j] == tail[j - 1];
        if i > 0 {
          assert r[i] == tail[i - 1];
        }
      }
    }
  }

  /** Ties distribute over concatenation: the group of tied offers keeps the
      order the offers have in the whole sequence. */
  lemma {:induction false} TiesOfConcat(order: SortKey, a: seq<Offer>, b: seq<Offer>, k: int)
    ensures Ties(order, a + b, k) == Ties(order, a, k) + Ties(order, b, k)
    decreases |a|
  {
    if |a| == 0 {
      assert a + b == b;
    } else {
      assert (a + b)[1..] == a[1..] + b;
      TiesOfConcat(order, a[1..], b, k);
    }
  }

  lemma TiesOfCons(order: SortKey, x: Offer, s: seq<Offer>)
    ensures forall k :: Ties(order, [x] + s, k) == Ties(order, [x], k) + Ties(order, s, k)
  {
    forall k ensures Ties(order, [x] + s, k) == Ties(order, [x], k) + Ties(order, s, k) {
      TiesOfConcat(order, [x], s, k);
    }
  }

  /** Inserting `x` moves it past only strictly smaller keys, never past a tie. */
  lemma {:induction false} InsertKeepsTies(order: SortKey, x: Offer, s: seq<Offer>, k: int)
    ensures Ties(order, Insert(order, x, s), k) == Ties(order, [x] + s, k)
    decreases |s|
  {
    if |s| == 0 || Key(order, x) <= Key(order, s[0]) {
    } else {
      var r, xs, xt := [s[0]] + Insert(order, x, s[1..]), [x] + s, [x] + s[1..];
      assert r[1..] == Insert(order, x, s[1..]) && xs[1..] == s && xt[1..] == s[1..];
      InsertKeepsTies(order, x, s[1..], k);
      TiesUnfold(order, r, k);
      TiesUnfold(order, xs, k);
      TiesUnfold(order, xt, k);
      TiesUnfold(order, s, k);
    }
  }

  lemma TiesUnfold(order: SortKey, s: seq<Offer>, k: int)
    requires |s| > 0
    ensures Key(order, s[0]) == k ==> Ties(order, s, k) == [s[0]] + Ties(order, s[1..], k)
    ensures Key(order, s[0]) != k ==> Ties(order, s, k) == Ties(order, s[1..], k)
  {
    if Key(order, s[0]) != k {
      assert [] + Ties(order, s[1..], k) == Ties(order, s[1..], k);
    }
  }

  /** Two non-empty sorted sequences with the same tie groups start alike. */
  lemma SameHead(order: SortKey, s: seq<Offer>, t: seq<Offer>)
    requires |s| > 0 && |t| > 0
    requires Sorted(order, s) && Sorted(order, t)
    requires forall k :: Ties(order, s, k) == Ties(order, t, k)
    ensures s[0] == t[0]
  {
    var ks, kt := Key(order, s[0]), Key(order, t[0]);
    TiesUnfold(order, s, ks);
    TiesUnfold(order, t, kt);
    assert s[0] in Ties(order, t, ks);
    LeastKey(order, t, s[0], ks);
    assert t[0] in Ties(order, s, kt);
    LeastKey(order, s, t[0], kt);
    assert Ties(order, t, ks)[0] == t[0];
  }

  /** Equal tie groups mean both sequences are empty or neither is. */
  lemma SameEmptiness(order: SortKey, s: seq<Offer>, t: seq<Offer>)
    requires forall k :: Ties(order, s, k) == Ties(order, t, k)
    ensures |s| == 0 <==> |t| == 0
  {
    if |t| > 0 {
      TiesUnfold(order, t, Key(order, t[0]));
      assert |Ties(order, s, Key(order, t[0]))| > 0;
    }
    if |s| > 0 {
      TiesUnfold(order, s, Key(order, s[0]));
      assert |Ties(order, t, Key(order, s[0]))| > 0;
    }
  }

  /** Removing a common head keeps the tie groups equal. */
  lemma SameTailTies(order: SortKey, s: seq<Offer>, t: seq<Offer>)
    requires |s| > 0 && |t| > 0 && s[0] == t[0]
    requires forall k :: Ties(order, s, k) == Ties(order, t, k)
    ensures forall k :: Ties(order, s[1..], k) == Ties(order, t[1..], k)
  {
    forall k ensures Ties(order, s[1..], k) == Ties(order, t[1..], k) {
      TiesUnfold(order, s, k);
      TiesUnfold(order, t, k);
      assert Ties(order, s, k) == Ties(order, t, k);
      if Key(order, s[0]) == k {
        assert Ties(order, s, k)[1..] == Ties(order, s[1..], k);
        assert Ties(order, t, k)[1..] == Ties(order, t[1..], k);
      }
    }
  }

  /** Sortedness and the tie groups determine a sequence: two sorted
      sequences with the same tie groups for every key are equal. Hence the
      insertion sort yields exactly what any stable sort yields. */
  lemma {:induction false} StableSortUnique(order: SortKey, s: seq<Offer>, t: seq<Offer>)
    requires Sorted(order, s) && Sorted(order, t)
    requires forall k :: Ties(order, s, k) == Ties(order, t, k)
    ensures s == t
    decreases |s|
  {
    SameEmptiness(order, s, t);
    if |s| > 0 {
      SameHead(order, s, t);
      SameTailTies(order, s, t);
      StableSortUnique(order, s[1..], t[1..]);
      assert s == [s[0]] + s[1..] && t == [t[0]] + t[1..];
    }
  }

  /** In a sorted sequence the first key is the least one present. */
  lemma LeastKey(order: SortKey, s: seq<Offer>, x: Offer, k: int)
    requires Sorted(order, s) && |s| > 0
    requires x in Ties(order, s, k)
    ensures Key(order, s[0]) <= k
  {
    var i :| 0 <= i < |s| && s[i] == x;
    if i > 0 {
      assert Key(order, s[0]) <= Key(order, s[i]);
    }
  }

  /** Sorting an already sorted view changes nothing. */
  lemma SortIdempotent(order: SortKey, s: seq<Offer>)
    ensures InsertionSort(order, InsertionSort(order, s)) == InsertionSort(order, s)
  {
    var r := InsertionSort(order, s);
    StableSortUnique(order, InsertionSort(order, r), r);
  }

  /** Any stable sort order the same comparator agrees with the insertion sort. */
  lemma AnyStableSortAgrees(order: SortKey, s: seq<Offer>, t: seq<Offer>)
    requires Sorted(order, t)
    requires forall k :: Ties(order, t, k) == Ties(order, s, k)
    ensures t == InsertionSort(order, s)
  {
    StableSortUnique(order, t, InsertionSort(order, s));
  }
}
