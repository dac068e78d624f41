/** The campaign aggregate store (backend/campaign-service/crud/campaign.py): a
    table of campaigns keyed by id, each owning its ordered list of incentive
    tiers. A committed session operation is one atomic update of the table. */
module CampaignStore {
  import opened Wrappers
  import opened CampaignModel
  import opened Keys

  function Min(a: int, b: int): int {
    if a <= b then a else b
  }

  /** The rows listed by `order`, in that order. */
  function InOrder(rows: map<int, Campaign>, order: seq<int>): (r: seq<Campaign>)
    requires forall i :: 0 <= i < |order| ==> order[i] in rows
    ensures |r| == |order|
    ensures forall i :: 0 <= i < |order| ==> r[i] == rows[order[i]]
  {
    seq(|order|, i requires 0 <= i < |order| => rows[order[i]])
  }

  /** `OFFSET skip LIMIT limit` over a result in storage order. */
  function Page<T>(s: seq<T>, skip: nat, limit: nat): (r: seq<T>)
    ensures |r| <= limit && |r| <= |s|
    ensures skip + limit <= |s| ==> |r| == limit
  {
    if skip >= |s| then [] else s[skip..Min(skip + limit, |s|)]
  }

  /** `.offset(skip).limit(limit)` as SQLite reads it: a negative offset counts as 0
      and a negative limit means no limit at all. */
  function SqlPage<T>(s: seq<T>, skip: int, limit: int): (r: seq<T>)
    ensures 0 <= skip && 0 <= limit ==> r == Page(s, skip, limit)
    ensures 0 <= limit ==> |r| <= limit
    ensures limit < 0 ==> r == s[Min(if skip < 0 then 0 else skip, |s|)..]
    ensures skip <= 0 && limit < 0 ==> r == s
  {
    Page(s, if skip < 0 then 0 else skip, if limit < 0 then |s| else limit)
  }

  /** A page holds at most `limit` items, exactly the items from position `skip`
      onwards that fit, in their stored order. */
  lemma PageSpec<T>(s: seq<T>, skip: nat, limit: nat)
    ensures |Page(s, skip, limit)| <= limit
    ensures |Page(s, skip, limit)| == if skip >= |s| then 0 else Min(limit, |s| - skip)
    ensures forall j :: 0 <= j < |Page(s, skip, limit)| ==> Page(s, skip, limit)[j] == s[skip + j]
  {
  }

  /** With enough rows, a page is exactly `limit` consecutive rows: 150 stored
      campaigns listed with skip 0 and limit 100 give the first 100, in order. */
  lemma FullPage<T>(s: seq<T>, skip: nat, limit: nat)
    requires skip + limit <= |s|
    ensures Page(s, skip, limit) == s[skip..skip + limit]
  {
  }

  /** Appending one row to a result extends a page by that row exactly when the row's
      position falls inside the page's window. */
  lemma PageSnoc<T>(s: seq<T>, e: T, skip: nat, limit: nat)
    ensures Page(s + [e], skip, limit)
         == Page(s, skip, limit) + (if skip <= |s| < skip + limit then [e] else [])
  {
    var t := s + [e];
    if skip <= |s| < skip + limit {
      assert Page(t, skip, limit) == t[skip..|s| + 1];
      if skip < |s| {
        assert t[skip..|s| + 1] == s[skip..|s|] + [e];
      } else {
        assert t[skip..|s| + 1] == [e];
      }
    } else if skip < |s| {
      assert t[skip..Min(skip + limit, |t|)] == s[skip..Min(skip + limit, |s|)];
    }
  }

  /** `WHERE approved == True`, keeping storage order. */
  function Approved(s: seq<Campaign>): (r: seq<Campaign>)
    ensures |r| <= |s|
  {
    if s == [] then []
    else Approved(s[..|s| - 1]) + (if s[|s| - 1].approved then [s[|s| - 1]] else [])
  }

  /** The approved filter keeps exactly the approved campaigns. */
  lemma {:induction false} ApprovedMembers(s: seq<Campaign>)
    ensures forall c :: c in Approved(s) <==> c in s && c.approved
  {
    if s != [] {
      var init := s[..|s| - 1];
      ApprovedMembers(init);
      assert s == init + [s[|s| - 1]];
    }
  }

  /** Filtering a result extended by one row extends the filtered result by that row
      exactly when it is approved. */
  lemma ApprovedSnoc(s: seq<Campaign>, i: nat)
    requires i < |s|
    ensures Approved(s[..i + 1]) == Approved(s[..i]) + (if s[i].approved then [s[i]] else [])
  {
    assert s[..i + 1][..i] == s[..i];
  }

  /** One more row of the scan behind the approved listing: the approved page grows
      by that row exactly when it is approved and falls inside the page's window. */
  lemma ApprovedPageSnoc(s: seq<Campaign>, i: nat, skip: nat, limit: nat)
    requires i < |s|
    ensures var before := Approved(s[..i]);
      && |Approved(s[..i + 1])| == |before| + (if s[i].approved then 1 else 0)
      && Page(Approved(s[..i + 1]), skip, limit)
         == Page(before, skip, limit) + (if s[i].approved && skip <= |before| < skip + limit then [s[i]] else [])
  {
    ApprovedSnoc(s, i);
    PageSnoc(Approved(s[..i]), s[i], skip, limit);
  }

  /** SQLite's page is the plain page with a negative skip read as 0 and a negative
      limit replaced by any bound `n` on the result's length. */
  lemma SqlPageAsPage<T>(s: seq<T>, skip: int, limit: int, n: nat)
    requires |s| <= n
    ensures SqlPage(s, skip, limit) == Page(s, if skip < 0 then 0 else skip, if limit < 0 then n else limit)
  {
  }

  /** Every campaign on a page of approved campaigns is approved and stored. */
  lemma ApprovedPageIsApproved(s: seq<Campaign>, skip: nat, limit: nat)
    ensures forall c :: c in Page(Approved(s), skip, limit) ==> c.approved && c in s
    ensures |Page(Approved(s), skip, limit)| <= limit
  {
    var a := Approved(s);
    ApprovedMembers(s);
    PageSpec(a, skip, limit);
    forall c | c in Page(a, skip, limit) ensures c in a {
      var j :| 0 <= j < |Page(a, skip, limit)| && Page(a, skip, limit)[j] == c;
      assert a[skip + j] == c;
    }
  }

  /** The tier loop of `create_campaign` and `update_campaign`: one stored tier per
      submitted tier, in order, keyed from `firstId` and linked to campaign `id`. */
  method AddTiers(ts: seq<TierCreate>, firstId: int, id: int) returns (tiers: seq<IncentiveTier>)
    ensures tiers == StoredTiers(NewTiers(ts), firstId, id)
    ensures TiersOwnedBy(tiers, id, firstId + |ts|)
  {
    tiers := [];
    for i := 0 to |ts|
      invariant |tiers| == i
      invariant forall j :: 0 <= j < i ==> tiers[j] == StoredTier(NewTier(ts[j]), firstId + j, id)
    {
      tiers := tiers + [StoredTier(NewTier(ts[i]), firstId + i, id)];
    }
  }

  /** The scan behind `get_all_approved_campaigns`: walks the rows in storage order,
      counting approved rows and keeping those whose rank falls in `[skip, skip + limit)`. */
  method ScanApproved(all: seq<Campaign>, skip: nat, limit: nat) returns (page: seq<Campaign>)
    ensures page == Page(Approved(all), skip, limit)
  {
    page := [];
    var seen := 0;
    var i := 0;
    while i < |all|
      invariant 0 <= i <= |all|
      invariant seen == |Approved(all[..i])|
      invariant page == Page(Approved(all[..i]), skip, limit)
    {
      ApprovedPageSnoc(all, i, skip, limit);
      if all[i].approved {
        if skip <= seen && seen < skip + limit {
          page := page + [all[i]];
        }
        seen := seen + 1;
      }
      i := i + 1;
    }
    assert all[..|all|] == all;
  }

  /** Raising the bound on tier keys keeps a tier list owned. */
  lemma OwnedUnderHigherBound(tiers: seq<IncentiveTier>, owner: int, bound: int, bound': int)
    requires TiersOwnedBy(tiers, owner, bound) && bound <= bound'
    ensures TiersOwnedBy(tiers, owner, bound')
  {
  }

  /** Storing a row under a fresh key appends it to the contents. */
  lemma InOrderSnoc(rows: map<int, Campaign>, order: seq<int>, id: int, c: Campaign)
    requires forall i :: 0 <= i < |order| ==> order[i] in rows
    requires id !in rows
    ensures forall i :: 0 <= i < |order + [id]| ==> (order + [id])[i] in rows[id := c]
    ensures InOrder(rows[id := c], order + [id]) == InOrder(rows, order) + [c]
  {
    assert forall i :: 0 <= i < |order| ==> order[i] != id;
  }

  /** The table invariant: every row is stored under its own positive key, listed once
      in `order`, and every tier belongs to the campaign that lists it (no orphan
      tiers) with a key below the next one to be assigned. */
  ghost predicate TableValid(rows: map<int, Campaign>, order: seq<int>, nextTierId: int) {
    && 1 <= nextTierId
    && (forall i :: 0 <= i < |order| ==> order[i] in rows)
    && (forall k :: k in rows ==> k in order)
    && Increasing(order)
    && forall k :: k in rows ==>
         && 1 <= k
         && rows[k].id == Some(k)
         && TiersOwnedBy(rows[k].incentiveTiers, k, nextTierId)
  }

  /** Storing a campaign under the next key, with `n` new tiers keyed from `nextTierId`,
      keeps the table invariant and appends the campaign to the contents. */
  lemma InsertKeepsTable(rows: map<int, Campaign>, order: seq<int>, nextTierId: int, c: Campaign, n: nat)
    requires TableValid(rows, order, nextTierId)
    requires c.id == Some(NextKey(order)) && TiersOwnedBy(c.incentiveTiers, NextKey(order), nextTierId + n)
    ensures NextKey(order) !in rows
    ensures TableValid(rows[NextKey(order) := c], order + [NextKey(order)], nextTierId + n)
    ensures InOrder(rows[NextKey(order) := c], order + [NextKey(order)]) == InOrder(rows, order) + [c]
  {
    var id := NextKey(order);
    NextKeyFresh(rows, order);
    forall k | k in rows ensures TiersOwnedBy(rows[k].incentiveTiers, k, nextTierId + n) {
      OwnedUnderHigherBound(rows[k].incentiveTiers, k, nextTierId, nextTierId + n);
    }
    IncreasingSnoc(order, id);
    InOrderSnoc(rows, order, id, c);
  }

  /** The campaign table. `order` lists the keys in use in ascending order, which is
      storage order; the next campaign key is `NextKey(order)`. `nextTierId` is the
      key the next stored tier gets: a counter that never goes back, where SQLite
      itself would take one more than the largest tier key in use. */
  class Store {
    var rows: map<int, Campaign>
    var order: seq<int>
    var nextTierId: int

    /** The table invariant, `TableValid` of the fields. */
    ghost predicate Valid()
      reads this
    {
      TableValid(rows, order, nextTierId)
    }

    /** The stored campaigns in storage order. */
    ghost function Contents(): seq<Campaign>
      reads this
      requires Valid()
    {
      InOrder(rows, order)
    }

    /** Every stored campaign has its key, and so does each of its tiers. */
    lemma ContentsStored()
      requires Valid()
      ensures forall i :: 0 <= i < |Contents()| ==> IsStored(Contents()[i])
    {
      forall i | 0 <= i < |Contents()| ensures IsStored(Contents()[i]) {
        var k := order[i];
        assert TiersOwnedBy(rows[k].incentiveTiers, k, nextTierId);
      }
    }

    constructor ()
      ensures Valid()
      ensures rows == map[] && order == [] && nextTierId == 1
    {
      rows := map[];
      order := [];
      nextTierId := 1;
    }

    /** `create_campaign`: stores one new campaign built from the payload, with the
        organizer supplied by the caller, and one tier per submitted tier. */
    method Create(p: CampaignCreate, organizerId: string, organizerName: string, now: int)
      returns (c: Campaign)
      requires Valid()
      modifies this
      ensures Valid()
      ensures c == Stored(NewCampaign(p, organizerId, organizerName, now), old(NextKey(order)), old(nextTierId))
      ensures old(NextKey(order)) !in old(rows) && rows == old(rows)[old(NextKey(order)) := c]
      ensures order == old(order) + [old(NextKey(order))]
      ensures Contents() == old(Contents()) + [c]
      ensures nextTierId == old(nextTierId) + |p.incentiveTiers|
    {
      var id := NextKey(order);
      var ts := p.incentiveTiers;
      var tiers := AddTiers(ts, nextTierId, id);
      c := NewCampaign(p, organizerId, organizerName, now).(id := Some(id), incentiveTiers := tiers);
      InsertKeepsTable(rows, order, nextTierId, c, |ts|);
      rows := rows[id := c];
      order := order + [id];
      nextTierId := nextTierId + |ts|;
    }

    /** `get_campaign_by_id`: the campaign stored under `id`, or `None`. */
    method GetById(id: int) returns (r: Option<Campaign>)
      requires Valid()
      ensures r.Some? <==> id in rows
      ensures r.Some? ==> r.value == rows[id] && r.value.id == Some(id)
    {
      if id in rows {
        r := Some(rows[id]);
      } else {
        r := None;
      }
    }

    /** `get_all_campaigns`: the stored campaigns `[skip, skip + limit)` in storage order. */
    method ListAll(skip: int, limit: int) returns (page: seq<Campaign>)
      requires Valid()
      ensures page == SqlPage(Contents(), skip, limit)
      ensures 0 <= limit ==> |page| <= limit
    {
      var from: nat := if skip < 0 then 0 else skip;
      var count: nat := if limit < 0 then |order| else limit;
      page := [];
      if from < |order| {
        var end := Min(from + count, |order|);
        var i := from;
        while i < end
          invariant from <= i <= end
          invariant page == Contents()[from..i]
        {
          page := page + [rows[order[i]]];
          i := i + 1;
        }
      }
    }

    /** `get_all_approved_campaigns`: the approved campaigns, then `[skip, skip + limit)`. */
    method ListApproved(skip: int, limit: int) returns (page: seq<Campaign>)
      requires Valid()
      ensures page == SqlPage(Approved(Contents()), skip, limit)
      ensures forall c :: c in page ==> c.approved
    {
      var all := InOrder(rows, order);
      var from: nat := if skip < 0 then 0 else skip;
      var count: nat := if limit < 0 then |order| else limit;
      page := ScanApproved(all, from, count);
      ApprovedPageIsApproved(all, from, count);
      SqlPageAsPage(Approved(all), skip, limit, |order|);
    }

    /** `update_campaign` on the stored campaign `id`: applies the fields the payload
        sets; a present tier list replaces all tiers. */
    method Update(id: int, u: CampaignUpdate) returns (c: Campaign)
      requires Valid() && id in rows
      modifies this
      ensures Valid()
      ensures c == Updated(old(rows[id]), id, u, old(nextTierId))
      ensures rows == old(rows)[id := c] && order == old(order)
      ensures nextTierId == old(nextTierId) + (if u.incentiveTiers.Some? then |u.incentiveTiers.value| else 0)
    {
      var existing := rows[id];
      var tiers := existing.incentiveTiers;
      if u.incentiveTiers.Some? {
        tiers := AddTiers(u.incentiveTiers.value, nextTierId, id);
      }
      c := Assign(existing, u).(incentiveTiers := tiers);
      rows := rows[id := c];
      if u.incentiveTiers.Some? {
        nextTierId := nextTierId + |u.incentiveTiers.value|;
        assert TiersOwnedBy(c.incentiveTiers, id, nextTierId);
      }
      forall k | k in rows && k != id
        ensures TiersOwnedBy(rows[k].incentiveTiers, k, nextTierId)
      {
        assert TiersOwnedBy(old(rows[k]).incentiveTiers, k, old(nextTierId));
      }
    }

    /** `delete_campaign` on the stored campaign `id`: the row and, by the cascade,
        its tiers disappear; nothing else changes. */
    method Delete(id: int)
      requires Valid() && id in rows
      modifies this
      ensures Valid()
      ensures rows == old(rows) - {id}
      ensures order == Without(old(order), id)
      ensures nextTierId == old(nextTierId)
      ensures forall k, j :: k in rows && 0 <= j < |rows[k].incentiveTiers| ==>
                rows[k].incentiveTiers[j].campaignId != Some(id)
    {
      rows := rows - {id};
      order := Without(order, id);
      forall i | 0 <= i < |order| ensures order[i] in rows {
        assert order[i] in order;
      }
    }
  }

  /** Every scalar field set in `u` overwritten, every other field kept (the
      `setattr` loop); tiers are untouched here. */
  function Assign(c: Campaign, u: CampaignUpdate): (r: Campaign)
    ensures r.id == c.id && r.incentiveTiers == c.incentiveTiers && r.createdAt == c.createdAt
    ensures r.organizerId == c.organizerId && r.organizerName == c.organizerName
    ensures r.raised == c.raised && r.backers == c.backers
  {
    c.(title := u.title.GetOr(c.title),
       description := u.description.GetOr(c.description),
       category := u.category.GetOr(c.category),
       goal := u.goal.GetOr(c.goal),
       duration := u.duration.GetOr(c.duration),
       location := u.location.GetOr(c.location),
       story := u.story.GetOr(c.story),
       risks := u.risks.GetOr(c.risks),
       timeline := u.timeline.GetOr(c.timeline),
       imageUrls := u.imageUrls.GetOr(c.imageUrls),
       featured := u.featured.GetOr(c.featured),
       urgent := u.urgent.GetOr(c.urgent),
       reviewed := u.reviewed.GetOr(c.reviewed),
       approved := u.approved.GetOr(c.approved),
       note := if u.note.Some? then u.note else c.note)
  }

  /** The campaign stored under `id` after `update_campaign(c, u)`, new tiers keyed from `firstTierId`. */
  function Updated(c: Campaign, id: int, u: CampaignUpdate, firstTierId: int): (r: Campaign)
    ensures r.id == c.id && r.createdAt == c.createdAt && r.raised == c.raised && r.backers == c.backers
    ensures r.organizerId == c.organizerId && r.organizerName == c.organizerName
    ensures u.incentiveTiers.None? ==> r.incentiveTiers == c.incentiveTiers
    ensures u.incentiveTiers.Some? ==>
      |r.incentiveTiers| == |u.incentiveTiers.value|
      && TiersOwnedBy(r.incentiveTiers, id, firstTierId + |u.incentiveTiers.value|)
  {
    Assign(c, u).(incentiveTiers :=
      if u.incentiveTiers.Some? then StoredTiers(NewTiers(u.incentiveTiers.value), firstTierId, id)
      else c.incentiveTiers)
  }

  /** A present tier list, even an empty one, replaces every old tier: the new list has
      exactly the submitted tiers in submitted order, owned by the campaign, and no old
      tier key survives (crud/campaign.py:63-70). */
  lemma UpdateReplacesTiers(c: Campaign, id: int, u: CampaignUpdate, firstTierId: int)
    requires u.incentiveTiers.Some?
    requires TiersOwnedBy(c.incentiveTiers, id, firstTierId)
    ensures var r := Updated(c, id, u, firstTierId);
      var ts := u.incentiveTiers.value;
      && |r.incentiveTiers| == |ts|
      && (ts == [] ==> r.incentiveTiers == [])
      && TiersOwnedBy(r.incentiveTiers, id, firstTierId + |ts|)
      && (forall j :: 0 <= j < |ts| ==>
            r.incentiveTiers[j].title == ts[j].title && r.incentiveTiers[j].amount == ts[j].amount
            && r.incentiveTiers[j].description == ts[j].description
            && r.incentiveTiers[j].estimatedDelivery == ts[j].estimatedDelivery
            && r.incentiveTiers[j].quantity == ts[j].quantity)
      && TierKeys(r.incentiveTiers) !! TierKeys(c.incentiveTiers)
  {
    var r := Updated(c, id, u, firstTierId);
    forall key | key in TierKeys(r.incentiveTiers) ensures key !in TierKeys(c.incentiveTiers) {
      var j :| 0 <= j < |r.incentiveTiers| && r.incentiveTiers[j].id == key;
      assert key.value >= firstTierId;
      assert forall i :: 0 <= i < |c.incentiveTiers| ==> c.incentiveTiers[i].id != key;
    }
  }

  /** Without a tier list the tiers stay exactly as they were (crud/campaign.py:60-63). */
  lemma UpdateKeepsTiers(c: Campaign, id: int, u: CampaignUpdate, firstTierId: int)
    requires u.incentiveTiers.None?
    ensures Updated(c, id, u, firstTierId).incentiveTiers == c.incentiveTiers
  {
  }

  /** Each field the payload sets is overwritten verbatim, each field it leaves unset
      keeps its old value, and the key, organizer, progress and creation time never
      change (crud/campaign.py:60,74-75). */
  lemma UpdateOverwritesSetFields(c: Campaign, id: int, u: CampaignUpdate, firstTierId: int)
    ensures var r := Updated(c, id, u, firstTierId);
      && r.id == c.id && r.organizerId == c.organizerId && r.organizerName == c.organizerName
      && r.raised == c.raised && r.backers == c.backers && r.createdAt == c.createdAt
      && r.title == (if u.title.Some? then u.title.value else c.title)
      && r.description == (if u.description.Some? then u.description.value else c.description)
      && r.category == (if u.category.Some? then u.category.value else c.category)
      && r.goal == (if u.goal.Some? then u.goal.value else c.goal)
      && r.duration == (if u.duration.Some? then u.duration.value else c.duration)
      && r.location == (if u.location.Some? then u.location.value else c.location)
      && r.story == (if u.story.Some? then u.story.value else c.story)
      && r.risks == (if u.risks.Some? then u.risks.value else c.risks)
      && r.timeline == (if u.timeline.Some? then u.timeline.value else c.timeline)
      && r.imageUrls == (if u.imageUrls.Some? then u.imageUrls.value else c.imageUrls)
      && r.featured == (if u.featured.Some? then u.featured.value else c.featured)
      && r.urgent == (if u.urgent.Some? then u.urgent.value else c.urgent)
      && r.reviewed == (if u.reviewed.Some? then u.reviewed.value else c.reviewed)
      && r.approved == (if u.approved.Some? then u.approved.value else c.approved)
      && r.note == (if u.note.Some? then u.note else c.note)
  {
  }

  /** The update that sets nothing changes nothing. */
  lemma NoChangeIsIdentity(c: Campaign, id: int, firstTierId: int)
    ensures Updated(c, id, NoChange, firstTierId) == c
  {
  }

  /** Applying the same tier-free update twice is the same as applying it once. */
  lemma UpdateIdempotent(c: Campaign, id: int, u: CampaignUpdate, t1: int, t2: int)
    requires u.incentiveTiers.None?
    ensures Updated(Updated(c, id, u, t1), id, u, t2) == Updated(c, id, u, t1)
  {
  }
}
