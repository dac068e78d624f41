/** The campaign service's HTTP handlers (backend/campaign-service/main.py): the
    trusted-header check on creation, listing and lookup with its 404. Responses
    are serialised through `CampaignRead`. */
module CampaignApi {
  import opened Wrappers
  import opened CampaignModel
  import opened CampaignStore
  import opened Keys

  /** Why a request failed: FastAPI's own validation of a missing required
      header (422), or an `HTTPException` raised by a handler. */
  datatype Failure = Unprocessable | HttpError(status: int, detail: string)

  datatype Response<T> = Ok(body: T) | Fail(failure: Failure)

  const DefaultSkip: int := 0
  const DefaultLimit: int := 100

  datatype ServiceStatus = ServiceStatus(service: string, status: string)

  /** `GET /`: the liveness body. */
  function ReadRoot(): (r: ServiceStatus)
    ensures r.service == "Campaign Service" && r.status == "running"
  {
    ServiceStatus("Campaign Service", "running")
  }

  /** The response bodies of a list of stored campaigns. */
  function ToReads(cs: seq<Campaign>): (r: seq<CampaignRead>)
    requires forall i :: 0 <= i < |cs| ==> IsStored(cs[i])
    ensures |r| == |cs|
    ensures forall i :: 0 <= i < |cs| ==> r[i] == ToRead(cs[i])
  {
    seq(|cs|, i requires 0 <= i < |cs| => ToRead(cs[i]))
  }

  /** `POST /campaigns/`: a missing identity header is a validation failure, an
      empty one is 401, and otherwise the campaign is created with the header
      values as its organizer. */
  method CreateNewCampaign(store: Store, payload: CampaignCreate, xUserId: Option<string>,
                           xUserName: Option<string>, now: int)
    returns (r: Response<CampaignRead>)
    requires store.Valid()
    modifies store
    ensures store.Valid()
    ensures xUserId.None? || xUserName.None? ==> r == Fail(Unprocessable) && unchanged(store)
    ensures xUserId.Some? && xUserName.Some? && (xUserId.value == "" || xUserName.value == "") ==>
              r == Fail(HttpError(401, "User information missing from headers")) && unchanged(store)
    ensures xUserId.Some? && xUserName.Some? && xUserId.value != "" && xUserName.value != "" ==>
              var c := Stored(NewCampaign(payload, xUserId.value, xUserName.value, now),
                              old(NextKey(store.order)), old(store.nextTierId));
              && IsStored(c)
              && r == Ok(ToRead(c))
              && store.rows == old(store.rows)[old(NextKey(store.order)) := c]
              && store.Contents() == old(store.Contents()) + [c]
              && store.order == old(store.order) + [old(NextKey(store.order))]
              && store.nextTierId == old(store.nextTierId) + |payload.incentiveTiers|
  {
    if xUserId.None? || xUserName.None? {
      return Fail(Unprocessable);
    }
    if xUserId.value == "" || xUserName.value == "" {
      return Fail(HttpError(401, "User information missing from headers"));
    }
    var c := store.Create(payload, xUserId.value, xUserName.value, now);
    assert IsStored(c) by {
      StoredCampaignTiers(payload, xUserId.value, xUserName.value, now, old(NextKey(store.order)), old(store.nextTierId));
    }
    r := Ok(ToRead(c));
  }

  /** `GET /campaigns/`: every stored campaign, approved or not, `[skip, skip + limit)`
      in storage order; skip and limit default to 0 and 100, and negative values are
      read as SQLite reads them (`SqlPage`). */
  method GetCampaigns(store: Store, skip: int := DefaultSkip, limit: int := DefaultLimit)
    returns (r: seq<CampaignRead>)
    requires store.Valid()
    ensures 0 <= limit ==> |r| <= limit
    ensures skip <= 0 && limit < 0 ==> |r| == |store.Contents()|
    ensures var page := SqlPage(store.Contents(), skip, limit);
      && (forall i :: 0 <= i < |page| ==> IsStored(page[i]))
      && r == ToReads(page)
  {
    var page := store.ListAll(skip, limit);
    store.ContentsStored();
    PageSpec(store.Contents(), if skip < 0 then 0 else skip, if limit < 0 then |store.Contents()| else limit);
    r := ToReads(page);
  }

  /** `GET /campaigns/{id}`: the stored campaign, or 404 "Campaign not found". */
  method GetSingleCampaign(store: Store, id: int) returns (r: Response<CampaignRead>)
    requires store.Valid()
    ensures id !in store.rows ==> r == Fail(HttpError(404, "Campaign not found"))
    ensures id in store.rows ==> IsStored(store.rows[id]) && r == Ok(ToRead(store.rows[id]))
  {
    var found := store.GetById(id);
    if found.None? {
      return Fail(HttpError(404, "Campaign not found"));
    }
    assert IsStored(found.value) by {
      assert TiersOwnedBy(store.rows[id].incentiveTiers, id, store.nextTierId);
    }
    r := Ok(ToRead(found.value));
  }
}
