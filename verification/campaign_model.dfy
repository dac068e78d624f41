/** The campaign service's records (backend/campaign-service/models/campaign.py)
    and its request and response payloads (backend/campaign-service/schemas/campaign.py).
    Amounts declared `float` (goal, amount, raised) are whole numbers here: no
    arithmetic is done on them. Timestamps are opaque integers supplied by the caller. */
module CampaignModel {
  import opened Wrappers

  // ---------------------------------------------------------------- payloads

  /** `IncentiveTierCreate`: one tier as a client submits it. */
  datatype TierCreate = TierCreate(
    amount: int,
    title: string,
    description: string,
    estimatedDelivery: Option<string>,
    quantity: Option<int>)

  /** `CampaignCreate`: a creation payload. It has no organizer, progress,
      moderation or id field, so a client cannot choose any of those. */
  datatype CampaignCreate = CampaignCreate(
    title: string,
    description: string,
    category: string,
    goal: int,
    duration: int,
    location: string,
    story: string,
    risks: string,
    timeline: string,
    imageUrls: string,
    incentiveTiers: seq<TierCreate>)

  /** A tier payload that names only the required fields. */
  function TierPayload(amount: int, title: string, description: string): (t: TierCreate)
    ensures t.estimatedDelivery == None && t.quantity == None
    ensures t.amount == amount && t.title == title && t.description == description
  {
    TierCreate(amount, title, description, None, None)
  }

  /** A creation payload that omits `incentive_tiers`. */
  function CampaignPayload(title: string, description: string, category: string, goal: int,
                           duration: int, location: string, story: string, risks: string,
                           timeline: string, imageUrls: string): (p: CampaignCreate)
    ensures p.incentiveTiers == []
    ensures p.title == title && p.description == description && p.category == category
    ensures p.goal == goal && p.duration == duration && p.location == location
    ensures p.story == story && p.risks == risks && p.timeline == timeline && p.imageUrls == imageUrls
  {
    CampaignCreate(title, description, category, goal, duration, location, story, risks, timeline, imageUrls, [])
  }

  /** The partial-update payload: every field optional; `None` means "not set".
      Setting a field to an explicit null is not modelled. */
  datatype CampaignUpdate = CampaignUpdate(
    title: Option<string>,
    description: Option<string>,
    category: Option<string>,
    goal: Option<int>,
    duration: Option<int>,
    location: Option<string>,
    story: Option<string>,
    risks: Option<string>,
    timeline: Option<string>,
    imageUrls: Option<string>,
    featured: Option<bool>,
    urgent: Option<bool>,
    reviewed: Option<bool>,
    approved: Option<bool>,
    note: Option<string>,
    incentiveTiers: Option<seq<TierCreate>>)

  /** The update that sets nothing. */
  const NoChange := CampaignUpdate(None, None, None, None, None, None, None, None, None, None,
                                   None, None, None, None, None, None)

  // ----------------------------------------------------------------- records

  /** An `IncentiveTier` row. `id` and `campaignId` are `None` until the row is stored. */
  datatype IncentiveTier = IncentiveTier(
    id: Option<int>,
    amount: int,
    title: string,
    description: string,
    estimatedDelivery: Option<string>,
    quantity: Option<int>,
    campaignId: Option<int>)

  /** A `Campaign` row; `id` is `None` until the row is stored. */
  datatype Campaign = Campaign(
    id: Option<int>,
    title: string,
    description: string,
    category: string,
    goal: int,
    duration: int,
    location: string,
    story: string,
    risks: string,
    timeline: string,
    organizerId: string,
    organizerName: string,
    raised: int,
    backers: int,
    featured: bool,
    urgent: bool,
    reviewed: bool,
    approved: bool,
    note: Option<string>,
    createdAt: int,
    incentiveTiers: seq<IncentiveTier>,
    imageUrls: string)

  /** A transient tier built from its payload (`IncentiveTier(**tier_data, campaign=...)`). */
  function NewTier(t: TierCreate): (r: IncentiveTier)
    ensures r.id == None && r.campaignId == None
    ensures r.amount == t.amount && r.title == t.title && r.description == t.description
    ensures r.estimatedDelivery == t.estimatedDelivery && r.quantity == t.quantity
  {
    IncentiveTier(None, t.amount, t.title, t.description, t.estimatedDelivery, t.quantity, None)
  }

  /** The transient tiers for a list of tier payloads, in submission order. */
  function NewTiers(ts: seq<TierCreate>): (r: seq<IncentiveTier>)
    ensures |r| == |ts|
    ensures forall j :: 0 <= j < |ts| ==> r[j] == NewTier(ts[j])
  {
    seq(|ts|, j requires 0 <= j < |ts| => NewTier(ts[j]))
  }

  /** The transient `Campaign` that `create_campaign` builds: the payload's scalar
      fields, the organizer given by the caller, and the model's defaults
      (raised 0, backers 0, all four flags false, no note). */
  function NewCampaign(p: CampaignCreate, organizerId: string, organizerName: string, now: int): (c: Campaign)
    ensures c.id == None && |c.incentiveTiers| == |p.incentiveTiers|
    ensures forall j :: 0 <= j < |c.incentiveTiers| ==>
      c.incentiveTiers[j].id == None && c.incentiveTiers[j].campaignId == None
  {
    Campaign(None, p.title, p.description, p.category, p.goal, p.duration, p.location,
             p.story, p.risks, p.timeline, organizerId, organizerName,
             0, 0, false, false, false, false, None, now, NewTiers(p.incentiveTiers), p.imageUrls)
  }

  /** Storing a tier assigns its key and its `campaign_id` foreign key. */
  function StoredTier(t: IncentiveTier, id: int, campaignId: int): IncentiveTier {
    t.(id := Some(id), campaignId := Some(campaignId))
  }

  /** Storing tiers assigns consecutive keys from `firstId`, keeping their order. */
  function StoredTiers(ts: seq<IncentiveTier>, firstId: int, campaignId: int): (r: seq<IncentiveTier>)
    ensures |r| == |ts|
    ensures forall j :: 0 <= j < |ts| ==> r[j] == StoredTier(ts[j], firstId + j, campaignId)
  {
    seq(|ts|, j requires 0 <= j < |ts| => StoredTier(ts[j], firstId + j, campaignId))
  }

  /** The row a committed transient campaign becomes under key `id`, with its
      tiers keyed from `firstTierId`. */
  function Stored(c: Campaign, id: int, firstTierId: int): (r: Campaign)
    ensures r.id == Some(id) && |r.incentiveTiers| == |c.incentiveTiers|
    ensures TiersOwnedBy(r.incentiveTiers, id, firstTierId + |c.incentiveTiers|)
    ensures r.(id := c.id, incentiveTiers := c.incentiveTiers) == c
  {
    c.(id := Some(id), incentiveTiers := StoredTiers(c.incentiveTiers, firstTierId, id))
  }

  /** Every tier of `tiers` is stored, points at campaign `owner`, and has a key below `bound`. */
  predicate TiersOwnedBy(tiers: seq<IncentiveTier>, owner: int, bound: int) {
    forall j :: 0 <= j < |tiers| ==>
      tiers[j].campaignId == Some(owner) && tiers[j].id.Some? && tiers[j].id.value < bound
  }

  /** The keys of a list of tiers. */
  function TierKeys(tiers: seq<IncentiveTier>): set<Option<int>> {
    set j | 0 <= j < |tiers| :: tiers[j].id
  }

  // ---------------------------------------------------------- create lemmas

  /** A new campaign has no key yet, nothing raised, no backers, every moderation flag
      false and no note (models/campaign.py:18,33-43). */
  lemma NewCampaignDefaults(p: CampaignCreate, organizerId: string, organizerName: string, now: int)
    ensures var c := NewCampaign(p, organizerId, organizerName, now);
      && c.id == None && c.raised == 0 && c.backers == 0
      && !c.featured && !c.urgent && !c.reviewed && !c.approved && c.note == None
      && c.createdAt == now
  {
  }

  /** The organizer comes from the caller and every other scalar field from the
      payload (crud/campaign.py:11-18). */
  lemma NewCampaignCopiesPayload(p: CampaignCreate, organizerId: string, organizerName: string, now: int)
    ensures var c := NewCampaign(p, organizerId, organizerName, now);
      && c.organizerId == organizerId && c.organizerName == organizerName
      && c.title == p.title && c.description == p.description && c.category == p.category
      && c.goal == p.goal && c.duration == p.duration && c.location == p.location
      && c.story == p.story && c.risks == p.risks && c.timeline == p.timeline
      && c.imageUrls == p.imageUrls
  {
  }

  /** Two payloads that differ only in organizer-free fields cannot influence the
      organizer: the organizer is a function of the caller's identity alone. */
  lemma OrganizerIndependentOfPayload(p: CampaignCreate, q: CampaignCreate, organizerId: string,
                                      organizerName: string, now: int)
    ensures NewCampaign(p, organizerId, organizerName, now).organizerId
         == NewCampaign(q, organizerId, organizerName, now).organizerId
    ensures NewCampaign(p, organizerId, organizerName, now).organizerName
         == NewCampaign(q, organizerId, organizerName, now).organizerName
  {
  }

  /** Storing a new campaign yields exactly one stored tier per submitted tier, in
      submission order, each carrying the submitted fields, a fresh key at or above
      `firstTierId`, and the new campaign's key as its foreign key (crud/campaign.py:21-25,
      models/campaign.py:14-15). */
  lemma StoredCampaignTiers(p: CampaignCreate, organizerId: string, organizerName: string, now: int,
                            id: int, firstTierId: int)
    ensures var c := Stored(NewCampaign(p, organizerId, organizerName, now), id, firstTierId);
      && c.id == Some(id)
      && |c.incentiveTiers| == |p.incentiveTiers|
      && TiersOwnedBy(c.incentiveTiers, id, firstTierId + |p.incentiveTiers|)
      && forall j :: 0 <= j < |p.incentiveTiers| ==>
           var t := c.incentiveTiers[j];
           var q := p.incentiveTiers[j];
           && t.id == Some(firstTierId + j)
           && t.amount == q.amount && t.title == q.title && t.description == q.description
           && t.estimatedDelivery == q.estimatedDelivery && t.quantity == q.quantity
  {
  }

  // -------------------------------------------------------------- read shape

  /** `IncentiveTierRead`: a tier payload plus its key. */
  datatype TierRead = TierRead(
    id: int,
    amount: int,
    title: string,
    description: string,
    estimatedDelivery: Option<string>,
    quantity: Option<int>)

  /** `CampaignRead`: the creation payload's fields plus key, organizer, progress,
      `featured` and `urgent`, with keyed tiers. It has no `reviewed`, `approved`,
      `note` or `created_at` field, so responses built from it do not carry them. */
  datatype CampaignRead = CampaignRead(
    id: int,
    title: string,
    description: string,
    category: string,
    goal: int,
    duration: int,
    location: string,
    story: string,
    risks: string,
    timeline: string,
    imageUrls: string,
    organizerId: string,
    organizerName: string,
    raised: int,
    backers: int,
    featured: bool,
    urgent: bool,
    incentiveTiers: seq<TierRead>)

  /** A stored campaign: it has a key and so do all its tiers. */
  predicate IsStored(c: Campaign) {
    c.id.Some? && forall j :: 0 <= j < |c.incentiveTiers| ==> c.incentiveTiers[j].id.Some?
  }

  function ToTierRead(t: IncentiveTier): TierRead
    requires t.id.Some?
  {
    TierRead(t.id.value, t.amount, t.title, t.description, t.estimatedDelivery, t.quantity)
  }

  /** The response body a stored campaign is serialised to through `response_model=CampaignRead`. */
  function ToRead(c: Campaign): CampaignRead
    requires IsStored(c)
  {
    CampaignRead(c.id.value, c.title, c.description, c.category, c.goal, c.duration, c.location,
                 c.story, c.risks, c.timeline, c.imageUrls, c.organizerId, c.organizerName,
                 c.raised, c.backers, c.featured, c.urgent,
                 seq(|c.incentiveTiers|, j requires 0 <= j < |c.incentiveTiers| => ToTierRead(c.incentiveTiers[j])))
  }

  /** The read shape echoes every field of the creation payload unchanged: a created
      campaign read back gives its payload's fields, tiers and tier order, with a key
      on each tier (schemas/campaign.py:28-40). */
  lemma ReadEchoesPayload(p: CampaignCreate, organizerId: string, organizerName: string, now: int,
                          id: int, firstTierId: int)
    ensures IsStored(Stored(NewCampaign(p, organizerId, organizerName, now), id, firstTierId))
    ensures var r := ToRead(Stored(NewCampaign(p, organizerId, organizerName, now), id, firstTierId));
      && r.id == id && r.raised == 0 && r.backers == 0 && !r.featured && !r.urgent
      && r.organizerId == organizerId && r.organizerName == organizerName
      && CampaignCreate(r.title, r.description, r.category, r.goal, r.duration, r.location,
                        r.story, r.risks, r.timeline, r.imageUrls,
                        seq(|r.incentiveTiers|, j requires 0 <= j < |r.incentiveTiers| =>
                          TierCreate(r.incentiveTiers[j].amount, r.incentiveTiers[j].title,
                                     r.incentiveTiers[j].description,
                                     r.incentiveTiers[j].estimatedDelivery,
                                     r.incentiveTiers[j].quantity))) == p
      && forall j :: 0 <= j < |r.incentiveTiers| ==> r.incentiveTiers[j].id == firstTierId + j
  {
    var c := Stored(NewCampaign(p, organizerId, organizerName, now), id, firstTierId);
    var r := ToRead(c);
    var back := seq(|r.incentiveTiers|, j requires 0 <= j < |r.incentiveTiers| =>
                  TierCreate(r.incentiveTiers[j].amount, r.incentiveTiers[j].title,
                             r.incentiveTiers[j].description,
                             r.incentiveTiers[j].estimatedDelivery,
                             r.incentiveTiers[j].quantity));
    assert |back| == |p.incentiveTiers|;
    forall j | 0 <= j < |back| ensures back[j] == p.incentiveTiers[j] {
    }
  }
}
