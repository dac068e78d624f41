/** The public campaign browser (frontend/app/campaigns/page.tsx): the listed
    campaigns filtered by search term and category, sorted by the chosen order,
    the featured and urgent tabs, and the "days left" badge. */
module UiCampaignsBrowse {
  import opened Wrappers
  import opened Text

  /** A listed campaign, with the fields the page filters and sorts on. */
  datatype Card = Card(id: string, title: string, description: string, category: string,
                       goal: int, raised: int, backers: int, daysLeft: int,
                       featured: bool, urgent: bool)

  /** The sort orders; "funded" (a floating-point ratio) is not modelled. */
  datatype SortKey = Newest | Ending | Popular | FeaturedFirst

  /** The `sortBy` state: "featured" and any unknown value give the default branch. */
  function ParseSort(sortBy: string): (k: Option<SortKey>)
    ensures k.None? <==> sortBy == "funded"
    ensures sortBy !in {"newest", "ending", "popular", "funded"} ==> k == Some(FeaturedFirst)
  {
    if sortBy == "newest" then Some(Newest)
    else if sortBy == "ending" then Some(Ending)
    else if sortBy == "popular" then Some(Popular)
    else if sortBy == "funded" then None
    else Some(FeaturedFirst)
  }

  /** The comparator is at most zero: `a` may stay before `b`. Ids compare by code
      point, standing for `localeCompare`. */
  predicate Before(k: SortKey, a: Card, b: Card): (r: bool)
    ensures a == b ==> r
  {
    LexLeTotal(a.id, a.id);
    match k
    case Newest => LexLe(b.id, a.id)
    case Ending => a.daysLeft <= b.daysLeft
    case Popular => a.backers >= b.backers
    case FeaturedFirst => a.featured || !b.featured
  }

  lemma BeforeTotal(k: SortKey, a: Card, b: Card)
    ensures Before(k, a, b) || Before(k, b, a)
  {
    if k == Newest { LexLeTotal(a.id, b.id); }
  }

  lemma BeforeTransitive(k: SortKey, a: Card, b: Card, c: Card)
    requires Before(k, a, b) && Before(k, b, c)
    ensures Before(k, a, c)
  {
    if k == Newest { LexLeTransitive(c.id, b.id, a.id); }
  }

  predicate Sorted(k: SortKey, s: seq<Card>) {
    forall i, j :: 0 <= i < j < |s| ==> Before(k, s[i], s[j])
  }

  predicate AdjacentSorted(k: SortKey, s: seq<Card>) {
    forall i :: 0 <= i < |s| - 1 ==> Before(k, s[i], s[i + 1])
  }

  /** Inserts `x`, which came before every element of `s`, ahead of the first
      element it may precede. */
  function Insert(k: SortKey, x: Card, s: seq<Card>): (r: seq<Card>)
    ensures |r| == |s| + 1 && (r[0] == x || (s != [] && r[0] == s[0]))
    ensures multiset(r) == multiset(s) + multiset{x}
  {
    if s == [] || Before(k, x, s[0]) then [x] + s
    else
      assert s == [s[0]] + s[1..];
      [s[0]] + Insert(k, x, s[1..])
  }

  /** `[...list].sort(comparator)`: a stable insertion sort. */
  function Sort(k: SortKey, s: seq<Card>): (r: seq<Card>)
    ensures |r| == |s|
    ensures multiset(r) == multiset(s)
  {
    if s == [] then []
    else
      assert s == [s[0]] + s[1..];
      Insert(k, s[0], Sort(k, s[1..]))
  }

  lemma {:induction false} InsertSorted(k: SortKey, x: Card, s: seq<Card>)
    requires AdjacentSorted(k, s)
    ensures AdjacentSorted(k, Insert(k, x, s))
  {
    if s != [] && !Before(k, x, s[0]) {
      BeforeTotal(k, x, s[0]);
      InsertSorted(k, x, s[1..]);
      var r := Insert(k, x, s);
      assert r[1..] == Insert(k, x, s[1..]);
      forall i | 0 <= i < |r| - 1 ensures Before(k, r[i], r[i + 1]) {
        if i > 0 {
          assert r[i] == r[1..][i - 1] && r[i + 1] == r[1..][i];
        }
      }
    }
  }

  lemma {:induction false} AdjacentToSorted(k: SortKey, s: seq<Card>)
    requires AdjacentSorted(k, s)
    ensures Sorted(k, s)
  {
    if |s| > 1 {
      AdjacentToSorted(k, s[1..]);
      forall j | 1 < j < |s| ensures Before(k, s[0], s[j]) {
        assert Before(k, s[1..][0], s[1..][j - 1]);
        BeforeTransitive(k, s[0], s[1], s[j]);
      }
    }
  }

  /** The sorted list is in comparator order and holds the same campaigns, each
      as often, as the list it sorts. */
  lemma {:induction false} SortSpec(k: SortKey, s: seq<Card>)
    ensures Sorted(k, Sort(k, s))
    ensures multiset(Sort(k, s)) == multiset(s)
  {
    SortAdjacent(k, s);
    AdjacentToSorted(k, Sort(k, s));
    SortPermutation(k, s);
  }

  lemma {:induction false} SortAdjacent(k: SortKey, s: seq<Card>)
    ensures AdjacentSorted(k, Sort(k, s))
  {
    if s != [] {
      SortAdjacent(k, s[1..]);
      InsertSorted(k, s[0], Sort(k, s[1..]));
    }
  }

  lemma {:induction false} SortPermutation(k: SortKey, s: seq<Card>)
    ensures multiset(Sort(k, s)) == multiset(s)
  {
    if s != [] {
      SortPermutation(k, s[1..]);
      assert s == [s[0]] + s[1..];
    }
  }

  /** Under the default order every featured campaign comes before every other. */
  lemma FeaturedSortedFirst(s: seq<Card>, i: int, j: int)
    requires 0 <= i < |Sort(FeaturedFirst, s)| && 0 <= j < |Sort(FeaturedFirst, s)|
    requires Sort(FeaturedFirst, s)[j].featured && !Sort(FeaturedFirst, s)[i].featured
    ensures j < i
  {
    SortSpec(FeaturedFirst, s);
  }

  /** One campaign passes the search and category filters. */
  predicate Shown(c: Card, term: string, category: string) {
    (IncludesIgnoreCase(c.title, term) || IncludesIgnoreCase(c.description, term))
    && (category == "All" || c.category == category)
  }

  /** `filteredCampaigns`. */
  function Filtered(s: seq<Card>, term: string, category: string): (r: seq<Card>)
    ensures |r| <= |s|
  {
    if s == [] then []
    else
      var rest := Filtered(s[..|s| - 1], term, category);
      if Shown(s[|s| - 1], term, category) then rest + [s[|s| - 1]] else rest
  }

  /** The filtered list holds exactly the campaigns passing both filters. */
  lemma {:induction false} FilteredMembers(s: seq<Card>, term: string, category: string)
    ensures forall c :: c in Filtered(s, term, category) <==> c in s && Shown(c, term, category)
  {
    if s != [] {
      FilteredMembers(s[..|s| - 1], term, category);
      assert s == s[..|s| - 1] + [s[|s| - 1]];
    }
  }

  /** `sortedCampaigns`: the filtered campaigns in the chosen order, or `None`
      for the unmodelled "funded" order. */
  function Displayed(s: seq<Card>, term: string, category: string, sortBy: string): Option<seq<Card>> {
    match ParseSort(sortBy)
    case None => None
    case Some(k) => Some(Sort(k, Filtered(s, term, category)))
  }

  /** The grid shows exactly the matching campaigns, in order. */
  lemma DisplayedSpec(s: seq<Card>, term: string, category: string, sortBy: string)
    requires sortBy != "funded"
    ensures Displayed(s, term, category, sortBy).Some?
    ensures var r := Displayed(s, term, category, sortBy).value;
      && Sorted(ParseSort(sortBy).value, r)
      && multiset(r) == multiset(Filtered(s, term, category))
      && forall c :: c in r <==> c in s && Shown(c, term, category)
  {
    var f := Filtered(s, term, category);
    SortSpec(ParseSort(sortBy).value, f);
    FilteredMembers(s, term, category);
    var r := Displayed(s, term, category, sortBy).value;
    forall c ensures c in r <==> c in f {
      assert c in multiset(r) <==> c in multiset(f);
    }
  }

  /** The featured and urgent tabs, taken from the whole list, not the filtered one. */
  function Tab(s: seq<Card>, urgent: bool): (r: seq<Card>)
    ensures |r| <= |s|
  {
    if s == [] then []
    else
      var rest := Tab(s[..|s| - 1], urgent);
      var c := s[|s| - 1];
      if (if urgent then c.urgent else c.featured) then rest + [c] else rest
  }

  /** The tabs ignore the search and category: a featured campaign hidden by the
      filters is still on the featured tab. */
  lemma {:induction false} TabMembers(s: seq<Card>, urgent: bool)
    ensures forall c :: c in Tab(s, urgent) <==> c in s && (if urgent then c.urgent else c.featured)
  {
    if s != [] {
      TabMembers(s[..|s| - 1], urgent);
      assert s == s[..|s| - 1] + [s[|s| - 1]];
    }
  }

  /** The "N days left" badge. */
  predicate ShowsDaysLeft(c: Card): (b: bool)
    ensures c.daysLeft <= 0 ==> b
    ensures b ==> c.daysLeft < 8
  {
    c.daysLeft <= 7
  }
}
