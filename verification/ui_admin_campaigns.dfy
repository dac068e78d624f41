/** The administrators' campaign review page (frontend/app/admin/campaigns/page.tsx):
    it loads the campaign list, splits it into pending, approved and rejected tabs
    by the `reviewed` and `approved` flags, searches the pending tab, and sends a
    review (approve, or reject with a reason) as a partial update. */
module UiAdminCampaigns {
  import opened Wrappers
  import opened Text
  import opened CampaignModel
  import CampaignStore

  /** A list entry as the page reads it from the JSON response; a key the response
      lacks is `None` (`undefined`). */
  datatype Listed = Listed(id: int, title: string, organizerName: string,
                           reviewed: Option<bool>, approved: Option<bool>, note: Option<string>)

  datatype Tab = PendingTab | ApprovedTab | RejectedTab

  /** The tab conditions: `reviewed === false && approved === false`,
      `approved === true`, `reviewed === true && approved === false`. */
  predicate InTab(c: Listed, t: Tab): (b: bool)
    ensures c.approved.None? ==> !b
    ensures b && t != ApprovedTab ==> c.reviewed.Some? && c.approved == Some(false)
  {
    match t
    case PendingTab => c.reviewed == Some(false) && c.approved == Some(false)
    case ApprovedTab => c.approved == Some(true)
    case RejectedTab => c.reviewed == Some(true) && c.approved == Some(false)
  }

  /** `data.filter(...)` with the tab's condition. */
  function TabList(s: seq<Listed>, t: Tab): (r: seq<Listed>)
    ensures |r| <= |s|
  {
    if s == [] then []
    else if InTab(s[|s| - 1], t) then TabList(s[..|s| - 1], t) + [s[|s| - 1]]
    else TabList(s[..|s| - 1], t)
  }

  /** A tab holds exactly the entries meeting its condition. */
  lemma {:induction false} TabListMembers(s: seq<Listed>, t: Tab)
    ensures forall c :: c in TabList(s, t) <==> c in s && InTab(c, t)
  {
    if s != [] {
      TabListMembers(s[..|s| - 1], t);
      assert s == s[..|s| - 1] + [s[|s| - 1]];
    }
  }

  /** An entry whose two flags are both known falls in exactly one tab; one whose
      `approved` is unknown falls in none. */
  lemma TabsPartition(c: Listed)
    ensures c.reviewed.Some? && c.approved.Some? ==>
      (if InTab(c, PendingTab) then 1 else 0) + (if InTab(c, ApprovedTab) then 1 else 0)
        + (if InTab(c, RejectedTab) then 1 else 0) == 1
    ensures c.approved.None? ==> !InTab(c, PendingTab) && !InTab(c, ApprovedTab) && !InTab(c, RejectedTab)
  {
    if c.reviewed.Some? && c.approved.Some? {
      var reviewed, approved := c.reviewed.value, c.approved.value;
      if approved {
        assert InTab(c, ApprovedTab) && !InTab(c, PendingTab) && !InTab(c, RejectedTab);
      } else if reviewed {
        assert InTab(c, RejectedTab) && !InTab(c, PendingTab) && !InTab(c, ApprovedTab);
      } else {
        assert InTab(c, PendingTab) && !InTab(c, ApprovedTab) && !InTab(c, RejectedTab);
      }
    }
  }
  /** The three tabs partition a list whose entries all carry both flags: their sizes
      add up to the length of the list. */
  lemma {:induction false} TabSizes(s: seq<Listed>)
    requires forall i :: 0 <= i < |s| ==> s[i].reviewed.Some? && s[i].approved.Some?
    ensures |TabList(s, PendingTab)| + |TabList(s, ApprovedTab)| + |TabList(s, RejectedTab)| == |s|
  {
    if s != [] {
      TabSizes(s[..|s| - 1]);
      TabsPartition(s[|s| - 1]);
    }
  }


  /** `filteredCampaigns`: the pending entries whose title or organizer name
      contains the search term, ignoring case. */
  function Search(s: seq<Listed>, term: string): (r: seq<Listed>)
    ensures |r| <= |s|
  {
    if s == [] then []
    else
      var c := s[|s| - 1];
      if IncludesIgnoreCase(c.title, term) || IncludesIgnoreCase(c.organizerName, term)
      then Search(s[..|s| - 1], term) + [c]
      else Search(s[..|s| - 1], term)
  }

  /** An empty search term keeps the whole tab. */
  lemma {:induction false} SearchEmptyTerm(s: seq<Listed>)
    ensures Search(s, "") == s
  {
    if s != [] {
      SearchEmptyTerm(s[..|s| - 1]);
      IncludesEmpty(s[|s| - 1].title);
      assert s[..|s| - 1] + [s[|s| - 1]] == s;
    }
  }

  /** The search keeps exactly the matching entries. */
  lemma {:induction false} SearchMembers(s: seq<Listed>, term: string)
    ensures forall c :: c in Search(s, term) <==>
      c in s && (IncludesIgnoreCase(c.title, term) || IncludesIgnoreCase(c.organizerName, term))
  {
    if s != [] {
      SearchMembers(s[..|s| - 1], term);
      assert s == s[..|s| - 1] + [s[|s| - 1]];
    }
  }

  datatype Action = Approve | Reject

  /** The body of the review request. */
  function ReviewPayload(a: Action, notes: string): (u: CampaignUpdate)
    ensures u.reviewed == Some(true) && u.approved == Some(a == Approve) && u.note == Some(notes)
    ensures u.(approved := None, reviewed := None, note := None) == NoChange
  {
    NoChange.(approved := Some(a == Approve), reviewed := Some(true), note := Some(notes))
  }

  datatype ReviewOutcome =
    | Ignored                // no campaign or no action selected
    | ReasonRequired         // the "Rejection reason is required." alert
    | LoginRedirect          // no access token
    | Submitted(campaignId: int, payload: CampaignUpdate, refreshed: bool)

  class AdminCampaignsPage {
    var allCampaigns: seq<Listed>
    var pendingCampaigns: seq<Listed>
    var approvedCampaigns: seq<Listed>
    var rejectedCampaigns: seq<Listed>
    var searchTerm: string
    var selected: Option<Listed>
    var action: Option<Action>
    var notes: string
    var dialogOpen: bool

    constructor ()
      ensures allCampaigns == [] && pendingCampaigns == [] && approvedCampaigns == [] && rejectedCampaigns == []
      ensures searchTerm == "" && selected == None && action == None && notes == "" && !dialogOpen
    {
      allCampaigns, pendingCampaigns, approvedCampaigns, rejectedCampaigns := [], [], [], [];
      searchTerm, selected, action, notes, dialogOpen := "", None, None, "", false;
    }

    /** The list shown under the pending tab. */
    function FilteredCampaigns(): seq<Listed>
      reads this
    {
      Search(pendingCampaigns, searchTerm)
    }

    /** A successful `fetchCampaigns`: the data and its three tabs. */
    method Loaded(data: seq<Listed>)
      modifies this
      ensures allCampaigns == data
      ensures pendingCampaigns == TabList(data, PendingTab)
      ensures approvedCampaigns == TabList(data, ApprovedTab)
      ensures rejectedCampaigns == TabList(data, RejectedTab)
      ensures searchTerm == old(searchTerm) && selected == old(selected) && action == old(action)
      ensures notes == old(notes) && dialogOpen == old(dialogOpen)
    {
      allCampaigns := data;
      pendingCampaigns := TabList(data, PendingTab);
      approvedCampaigns := TabList(data, ApprovedTab);
      rejectedCampaigns := TabList(data, RejectedTab);
    }

    /** `handleReview`: open the dialog for `c` with the chosen action, the notes
        pre-filled from the campaign's note. */
    method HandleReview(c: Listed, a: Action)
      modifies this
      ensures selected == Some(c) && action == Some(a) && dialogOpen
      ensures notes == c.note.GetOr("")
      ensures allCampaigns == old(allCampaigns) && pendingCampaigns == old(pendingCampaigns)
      ensures approvedCampaigns == old(approvedCampaigns) && rejectedCampaigns == old(rejectedCampaigns)
      ensures searchTerm == old(searchTerm)
    {
      selected := Some(c);
      action := Some(a);
      notes := c.note.GetOr("");
      dialogOpen := true;
    }

    /** `submitReview`. `hasToken` is whether an access token is stored and
        `requestOk` whether the update request succeeded (then the list is
        fetched again). A submission always closes and resets the dialog. */
    method SubmitReview(hasToken: bool, requestOk: bool) returns (o: ReviewOutcome)
      modifies this
      ensures old(selected).None? || old(action).None? ==> o == Ignored
      ensures old(selected).Some? && old(action) == Some(Reject) && Trim(old(notes)) == [] ==> o == ReasonRequired
      ensures (old(selected).Some? && old(action).Some? && !hasToken
               && (old(action) == Some(Approve) || !IsBlank(old(notes)))) ==> o == LoginRedirect
      ensures o.Submitted? <==>
        old(selected).Some? && old(action).Some? && hasToken
        && (old(action) == Some(Approve) || !IsBlank(old(notes)))
      ensures o.Submitted? ==>
        && o == Submitted(old(selected).value.id, ReviewPayload(old(action).value, old(notes)), requestOk)
        && selected == None && action == None && notes == "" && !dialogOpen
      ensures !o.Submitted? ==>
        selected == old(selected) && action == old(action) && notes == old(notes) && dialogOpen == old(dialogOpen)
      ensures allCampaigns == old(allCampaigns) && pendingCampaigns == old(pendingCampaigns)
      ensures approvedCampaigns == old(approvedCampaigns) && rejectedCampaigns == old(rejectedCampaigns)
      ensures searchTerm == old(searchTerm)
    {
      TrimEmptyIffBlank(notes);
      if selected.None? || action.None? {
        return Ignored;
      }
      if action == Some(Reject) && Trim(notes) == [] {
        return ReasonRequired;
      }
      if !hasToken {
        return LoginRedirect;
      }
      o := Submitted(selected.value.id, ReviewPayload(action.value, notes), requestOk);
      dialogOpen := false;
      notes := "";
      selected := None;
      action := None;
    }
  }

  // ------------------------------------------------------------------ finding

  /** How the page sees the list endpoint's response: it is serialised through
      `CampaignRead`, which has no `reviewed`, `approved` or `note`. */
  function FromRead(r: CampaignRead): (c: Listed)
    ensures c.id == r.id && c.title == r.title && c.organizerName == r.organizerName
    ensures c.reviewed.None? && c.approved.None? && c.note.None?
  {
    Listed(r.id, r.title, r.organizerName, None, None, None)
  }

  function FromReads(rs: seq<CampaignRead>): (cs: seq<Listed>)
    ensures |cs| == |rs| && forall i :: 0 <= i < |rs| ==> cs[i] == FromRead(rs[i])
  {
    seq(|rs|, i requires 0 <= i < |rs| => FromRead(rs[i]))
  }

  /** As written, every tab stays empty whatever the service stores: no served
      entry carries the flags the tab conditions test. */
  lemma ServedListFillsNoTab(rs: seq<CampaignRead>, t: Tab)
    ensures TabList(FromReads(rs), t) == []
  {
    UnflaggedFillNoTab(FromReads(rs), t);
  }

  /** Entries without an `approved` key are in no tab. */
  lemma {:induction false} UnflaggedFillNoTab(s: seq<Listed>, t: Tab)
    requires forall i :: 0 <= i < |s| ==> s[i].approved.None?
    ensures TabList(s, t) == []
  {
    if s != [] {
      UnflaggedFillNoTab(s[..|s| - 1], t);
    }
  }

  /** The intended response entry: the read shape with the moderation fields
      `reviewed`, `approved` and `note` added. */
  function FromStored(c: Campaign): (l: Listed)
    requires c.id.Some?
    ensures l.reviewed == Some(c.reviewed) && l.approved == Some(c.approved) && l.note == c.note
  {
    Listed(c.id.value, c.title, c.organizerName, Some(c.reviewed), Some(c.approved), c.note)
  }

  /** With the moderation fields served, every stored campaign appears in exactly
      one tab, chosen by its stored flags. */
  lemma CorrectedTabs(c: Campaign)
    requires c.id.Some?
    ensures InTab(FromStored(c), PendingTab) <==> !c.reviewed && !c.approved
    ensures InTab(FromStored(c), ApprovedTab) <==> c.approved
    ensures InTab(FromStored(c), RejectedTab) <==> c.reviewed && !c.approved
    ensures (if InTab(FromStored(c), PendingTab) then 1 else 0) + (if InTab(FromStored(c), ApprovedTab) then 1 else 0)
      + (if InTab(FromStored(c), RejectedTab) then 1 else 0) == 1
  {
    TabsPartition(FromStored(c));
  }
  /** The intended list entries for a list of stored campaigns. */
  function FromStoredList(cs: seq<Campaign>): (ls: seq<Listed>)
    requires forall i :: 0 <= i < |cs| ==> cs[i].id.Some?
    ensures |ls| == |cs| && forall i :: 0 <= i < |cs| ==> ls[i] == FromStored(cs[i])
  {
    seq(|cs|, i requires 0 <= i < |cs| => FromStored(cs[i]))
  }

  /** With the moderation fields served, the three tabs together show every stored
      campaign exactly once. */
  lemma CorrectedTabSizes(cs: seq<Campaign>)
    requires forall i :: 0 <= i < |cs| ==> cs[i].id.Some?
    ensures var ls := FromStoredList(cs);
      |TabList(ls, PendingTab)| + |TabList(ls, ApprovedTab)| + |TabList(ls, RejectedTab)| == |cs|
  {
    TabSizes(FromStoredList(cs));
  }


  /** A newly created campaign is pending, and applying a review moves it to the
      approved or rejected tab with the review notes as its note. */
  lemma ReviewMovesCampaign(p: CampaignCreate, organizerId: string, organizerName: string, now: int,
                            id: int, firstTierId: int, a: Action, notes: string, t: int)
    ensures var c := Stored(NewCampaign(p, organizerId, organizerName, now), id, firstTierId);
      InTab(FromStored(c), PendingTab)
    ensures var c := Stored(NewCampaign(p, organizerId, organizerName, now), id, firstTierId);
      var r := CampaignStore.Updated(c, id, ReviewPayload(a, notes), t);
      && InTab(FromStored(r), if a == Approve then ApprovedTab else RejectedTab)
      && !InTab(FromStored(r), PendingTab)
      && FromStored(r).note == Some(notes)
      && r.incentiveTiers == c.incentiveTiers
  {
    NewCampaignDefaults(p, organizerId, organizerName, now);
  }
}
