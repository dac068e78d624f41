/** The category overview (frontend/app/categories/page.tsx): the categories
    matching the search, the headline totals over all categories, and the
    selected category toggled by clicking its card. */
module UiCategories {
  import opened Wrappers
  import opened Text

  datatype Category = Category(id: string, name: string, description: string,
                               count: int, totalRaised: int, successRate: int)

  /** One category matches the search term (name or description, ignoring case). */
  predicate Matches(c: Category, term: string) {
    IncludesIgnoreCase(c.name, term) || IncludesIgnoreCase(c.description, term)
  }

  /** `filteredCategories`. */
  function Filtered(s: seq<Category>, term: string): (r: seq<Category>)
    ensures |r| <= |s|
  {
    if s == [] then []
    else if Matches(s[|s| - 1], term) then Filtered(s[..|s| - 1], term) + [s[|s| - 1]]
    else Filtered(s[..|s| - 1], term)
  }

  lemma {:induction false} FilteredMembers(s: seq<Category>, term: string)
    ensures forall c :: c in Filtered(s, term) <==> c in s && Matches(c, term)
  {
    if s != [] {
      FilteredMembers(s[..|s| - 1], term);
      assert s == s[..|s| - 1] + [s[|s| - 1]];
    }
  }

  /** `totalCampaigns`: the sum of the counts. */
  function TotalCampaigns(s: seq<Category>): (t: int)
    ensures (forall i :: 0 <= i < |s| ==> s[i].count >= 0) ==> t >= 0
  {
    if s == [] then 0 else TotalCampaigns(s[..|s| - 1]) + s[|s| - 1].count
  }

  /** `totalRaised`: the sum of the amounts raised. */
  function TotalRaised(s: seq<Category>): (t: int)
    ensures (forall i :: 0 <= i < |s| ==> s[i].totalRaised >= 0) ==> t >= 0
  {
    if s == [] then 0 else TotalRaised(s[..|s| - 1]) + s[|s| - 1].totalRaised
  }

  function SumSuccessRate(s: seq<Category>): int {
    if s == [] then 0 else SumSuccessRate(s[..|s| - 1]) + s[|s| - 1].successRate
  }

  /** The totals are over all categories: with non-negative counts, the categories
      a search leaves on screen never add up to more than the headline total. */
  lemma {:induction false} FilteredCountBounded(s: seq<Category>, term: string)
    requires forall i :: 0 <= i < |s| ==> s[i].count >= 0
    ensures 0 <= TotalCampaigns(Filtered(s, term)) <= TotalCampaigns(s)
  {
    if s != [] {
      FilteredCountBounded(s[..|s| - 1], term);
      if Matches(s[|s| - 1], term) {
        SumSnoc(Filtered(s[..|s| - 1], term), s[|s| - 1]);
      }
    }
  }

  lemma SumSnoc(s: seq<Category>, c: Category)
    ensures TotalCampaigns(s + [c]) == TotalCampaigns(s) + c.count
  {
    assert (s + [c])[..|s|] == s;
  }

  /** `Math.round(x)` for the rational `sum / n`: the nearest integer, halves
      rounded up. */
  function RoundQuotient(sum: int, n: int): (r: int)
    requires n > 0
    ensures 2 * n * r - n <= 2 * sum < 2 * n * r + n
  {
    (2 * sum + n) / (2 * n)
  }

  /** `avgSuccessRate`; with no categories the division gives NaN, here `None`. */
  function AvgSuccessRate(s: seq<Category>): (r: Option<int>)
    ensures r.None? <==> s == []
  {
    if s == [] then None else Some(RoundQuotient(SumSuccessRate(s), |s|))
  }

  lemma {:induction false} SumWithin(s: seq<Category>, lo: int, hi: int)
    requires forall i :: 0 <= i < |s| ==> lo <= s[i].successRate <= hi
    ensures |s| * lo <= SumSuccessRate(s) <= |s| * hi
  {
    if s != [] {
      SumWithin(s[..|s| - 1], lo, hi);
    }
  }

  /** `c * a <= c * b` for `a <= b` and non-negative `c`. */
  lemma MulMonotone(c: int, a: int, b: int)
    requires c >= 0 && a <= b
    ensures c * a <= c * b
  {
    assert c * b - c * a == c * (b - a);
  }

  /** Rounding a quotient whose exact value lies in `[lo, hi]` stays in `[lo, hi]`. */
  lemma RoundWithin(sum: int, n: int, lo: int, hi: int)
    requires n > 0 && n * lo <= sum <= n * hi
    ensures lo <= RoundQuotient(sum, n) <= hi
  {
    var r := RoundQuotient(sum, n);
    if r > hi {
      MulMonotone(2 * n, hi + 1, r);
      assert false;
    }
    if r < lo {
      MulMonotone(2 * n, r, lo - 1);
      assert false;
    }
  }

  /** The average lies between the lowest and highest success rate. */
  lemma AvgWithinRange(s: seq<Category>, lo: int, hi: int)
    requires s != []
    requires forall i :: 0 <= i < |s| ==> lo <= s[i].successRate <= hi
    ensures lo <= AvgSuccessRate(s).value <= hi
  {
    SumWithin(s, lo, hi);
    RoundWithin(SumSuccessRate(s), |s|, lo, hi);
  }

  class CategoriesPage {
    var searchTerm: string
    var selectedCategory: Option<string>

    constructor ()
      ensures searchTerm == "" && selectedCategory == None
    {
      searchTerm := "";
      selectedCategory := None;
    }

    /** Clicking a card: it becomes selected, or is deselected if it already was. */
    method ClickCategory(id: string)
      modifies this
      ensures selectedCategory == (if old(selectedCategory) == Some(id) then None else Some(id))
      ensures searchTerm == old(searchTerm)
    {
      selectedCategory := if selectedCategory == Some(id) then None else Some(id);
    }
  }
}
