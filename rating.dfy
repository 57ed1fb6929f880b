/** The star rating widget: five stars, each full, half or inactive by
    comparing its index with the rating. */
module Rating {

  const StarCount := 5

  /** The icon a star is drawn with. */
  datatype Icon = FullIcon | HalfIcon

  /** One rendered star: its index (1 to 5), its icon and whether it is drawn
      in the active colour. */
  datatype Star = Star(index: int, icon: Icon, active: bool)

  function Abs(x: real): real
  {
    if x < 0.0 then -x else x
  }

  /** `index <= rating`. */
  predicate IsFull(index: int, rating: real)
  {
    index as real <= rating
  }

  /** `Math.abs(index - rating) < 0.5`. */
  predicate IsHalf(index: int, rating: real)
  {
    Abs(index as real - rating) < 0.5
  }

  /** `renderStar`: full icon when full, half icon when half, full icon again
      otherwise; active when full or half. Activity reduces to one comparison:
      the index lies below the rating plus one half. */
  function RenderStar(index: int, rating: real): (s: Star)
    ensures s.index == index
    ensures s.active <==> (index as real) < rating + 0.5
    ensures s.icon == HalfIcon <==> IsHalf(index, rating) && !IsFull(index, rating)
  {
    var full := IsFull(index, rating);
    var half := IsHalf(index, rating);
    Star(index, if full then FullIcon else if half then HalfIcon else FullIcon, full || half)
  }

  /** `Array.from({ length: 5 }, (_, i) => renderStar(i + 1))`. */
  function Stars(rating: real): (r: seq<Star>)
    ensures |r| == StarCount
    ensures forall j :: 0 <= j < |r| ==> r[j].index == j + 1
    ensures forall j :: 0 <= j < |r| ==> (r[j].active <==> (j + 1) as real < rating + 0.5)
  {
    seq(StarCount, j => RenderStar(j + 1, rating))
  }

  /** The number of active stars. */
  function ActiveCount(stars: seq<Star>): nat
  {
    if stars == [] then 0 else (if stars[0].active then 1 else 0) + ActiveCount(stars[1..])
  }

  /** Active stars come first: a star is active only if every star before it is. */
  lemma ActiveIsPrefix(rating: real)
    ensures forall j1, j2 :: 0 <= j1 < j2 < StarCount && Stars(rating)[j2].active ==> Stars(rating)[j1].active
  {
  }

  /** A sequence whose first `k` elements are active and the rest not has `k`
      active stars. */
  lemma {:induction false} PrefixCount(stars: seq<Star>, k: nat)
    requires k <= |stars|
    requires forall j :: 0 <= j < |stars| ==> (stars[j].active <==> j < k)
    ensures ActiveCount(stars) == k
  {
    if stars != [] {
      var k' := if k > 0 then k - 1 else 0;
      assert forall j :: 0 <= j < |stars[1..]| ==> (stars[1..][j].active <==> j < k') by {
        forall j | 0 <= j < |stars[1..]|
          ensures stars[1..][j].active <==> j < k'
        {
          assert stars[1..][j] == stars[j + 1];
        }
      }
      PrefixCount(stars[1..], k');
    }
  }

  /** If every star active in `s1` is active in `s2`, `s2` has at least as many. */
  lemma {:induction false} CountPointwise(s1: seq<Star>, s2: seq<Star>)
    requires |s1| == |s2|
    requires forall j :: 0 <= j < |s1| && s1[j].active ==> s2[j].active
    ensures ActiveCount(s1) <= ActiveCount(s2)
  {
    if s1 != [] {
      assert forall j :: 0 <= j < |s1[1..]| && s1[1..][j].active ==> s2[1..][j].active by {
        forall j | 0 <= j < |s1[1..]| && s1[1..][j].active
          ensures s2[1..][j].active
        {
          assert s1[1..][j] == s1[j + 1];
          assert s2[1..][j] == s2[j + 1];
        }
      }
      CountPointwise(s1[1..], s2[1..]);
    }
  }

  /** A higher rating never shows fewer active stars. */
  lemma ActiveCountMonotone(r1: real, r2: real)
    requires r1 <= r2
    ensures ActiveCount(Stars(r1)) <= ActiveCount(Stars(r2))
  {
    CountPointwise(Stars(r1), Stars(r2));
  }

  /** A whole-number rating from 0 to 5 activates exactly that many stars, none
      of them drawn with the half icon. */
  lemma WholeRating(r: int)
    requires 0 <= r <= StarCount
    ensures ActiveCount(Stars(r as real)) == r
    ensures var s := Stars(r as real); forall j :: 0 <= j < |s| ==> s[j].icon == FullIcon
  {
    PrefixCount(Stars(r as real), r);
  }

  /** A rating of `k` and a half activates `k` stars, like the rating `k`: the
      star at `k + 1` is exactly one half away, which is not less than one half,
      so it is not lit. */
  lemma HalfRatingAddsNoStar(k: int)
    requires 0 <= k < StarCount
    ensures ActiveCount(Stars(k as real + 0.5)) == k
    ensures !Stars(k as real + 0.5)[k].active
    ensures Stars(k as real + 0.5)[k].icon == FullIcon
  {
    PrefixCount(Stars(k as real + 0.5), k);
  }

  /** The fallback rating 0 lights no star; a rating of 5 or more lights all. */
  lemma RatingExtremes(r: real)
    requires r >= 5.0
    ensures ActiveCount(Stars(0.0)) == 0
    ensures ActiveCount(Stars(r)) == StarCount
  {
    PrefixCount(Stars(0.0), 0);
    PrefixCount(Stars(r), StarCount);
  }
}
