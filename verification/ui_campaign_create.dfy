/** The campaign creation wizard (frontend/app/campaigns/create/page.tsx): a
    four-step form holding a tier draft, the list of added incentive tiers and
    the uploaded image URLs. */
module UiCampaignCreate {
  import opened Wrappers
  import opened Text

  /** An added tier; `id` is the clock reading at the time it was added. */
  datatype FormTier = FormTier(id: string, amount: int, title: string, description: string,
                               estimatedDelivery: string, quantity: Option<int>)

  /** The tier being typed (`Partial<IncentiveTier>`). */
  datatype TierDraft = TierDraft(amount: int, title: string, description: string,
                                 estimatedDelivery: Option<string>, quantity: Option<int>)

  const EmptyDraft := TierDraft(0, "", "", Some(""), None)

  /** The step titles: Basic Info, Story & Media, Incentives, Review. */
  const StepCount := 4

  /** `newTier.amount && newTier.title && newTier.description`: all three truthy. */
  predicate Complete(d: TierDraft): (b: bool)
    ensures d == EmptyDraft ==> !b
    ensures b ==> d.amount != 0
  {
    d.amount != 0 && d.title != "" && d.description != ""
  }

  /** The tier an added draft becomes. */
  function TierOf(d: TierDraft, now: nat): (t: FormTier)
    ensures t.id == DecimalString(now)
    ensures t.amount == d.amount && t.title == d.title && t.description == d.description
    ensures t.quantity == d.quantity
    ensures t.estimatedDelivery == (if d.estimatedDelivery.Some? then d.estimatedDelivery.value else "")
  {
    FormTier(DecimalString(now), d.amount, d.title, d.description, d.estimatedDelivery.GetOr(""), d.quantity)
  }

  /** `incentiveTiers.filter((tier) => tier.id !== id)`. */
  function WithoutTier(s: seq<FormTier>, id: string): (r: seq<FormTier>)
    ensures |r| <= |s|
  {
    if s == [] then []
    else if s[|s| - 1].id == id then WithoutTier(s[..|s| - 1], id)
    else WithoutTier(s[..|s| - 1], id) + [s[|s| - 1]]
  }

  /** Removal keeps exactly the tiers with other ids. */
  lemma {:induction false} WithoutTierMembers(s: seq<FormTier>, id: string)
    ensures forall t :: t in WithoutTier(s, id) <==> t in s && t.id != id
  {
    if s != [] {
      WithoutTierMembers(s[..|s| - 1], id);
      assert s == s[..|s| - 1] + [s[|s| - 1]];
    }
  }

  /** Removing an id no tier has changes nothing. */
  lemma {:induction false} WithoutAbsentTier(s: seq<FormTier>, id: string)
    requires forall i :: 0 <= i < |s| ==> s[i].id != id
    ensures WithoutTier(s, id) == s
  {
    if s != [] {
      WithoutAbsentTier(s[..|s| - 1], id);
      assert s[..|s| - 1] + [s[|s| - 1]] == s;
    }
  }

  /** Removing a tier just added, at a clock reading no earlier tier was added
      at, gives back the earlier list. */
  lemma AddThenRemove(s: seq<FormTier>, d: TierDraft, now: nat)
    requires forall i :: 0 <= i < |s| ==> s[i].id != DecimalString(now)
    ensures WithoutTier(s + [TierOf(d, now)], DecimalString(now)) == s
  {
    assert (s + [TierOf(d, now)])[..|s|] == s;
    WithoutAbsentTier(s, DecimalString(now));
  }

  /** `uploadedImages.filter((_, i) => i !== index)`. */
  function WithoutIndex(s: seq<string>, index: int): (r: seq<string>)
    ensures 0 <= index < |s| ==>
      && |r| == |s| - 1
      && (forall j :: 0 <= j < index ==> r[j] == s[j])
      && (forall j :: index <= j < |r| ==> r[j] == s[j + 1])
    ensures !(0 <= index < |s|) ==> r == s
  {
    if 0 <= index < |s| then s[..index] + s[index + 1..] else s
  }

  const ImageUrlPrefix := "/placeholder.svg?height=200&width=400&text="

  /** The mock URL an uploaded file gets. */
  function ImageUrls(names: seq<string>): (r: seq<string>)
    ensures |r| == |names|
    ensures forall i :: 0 <= i < |names| ==> r[i] == ImageUrlPrefix + names[i]
  {
    seq(|names|, i requires 0 <= i < |names| => ImageUrlPrefix + names[i])
  }

  class CampaignForm {
    var currentStep: int
    var incentiveTiers: seq<FormTier>
    var newTier: TierDraft
    var uploadedImages: seq<string>
    var isSubmitting: bool

    /** The step is one of the four. */
    ghost predicate Valid()
      reads this
    {
      0 <= currentStep < StepCount
    }

    constructor ()
      ensures Valid() && currentStep == 0
      ensures incentiveTiers == [] && newTier == EmptyDraft && uploadedImages == [] && !isSubmitting
    {
      currentStep := 0;
      incentiveTiers := [];
      newTier := EmptyDraft;
      uploadedImages := [];
      isSubmitting := false;
    }

    /** Typing into the tier fields. */
    method EditTier(d: TierDraft)
      modifies this
      ensures newTier == d
      ensures currentStep == old(currentStep) && incentiveTiers == old(incentiveTiers)
      ensures uploadedImages == old(uploadedImages) && isSubmitting == old(isSubmitting)
    {
      newTier := d;
    }

    /** `addIncentiveTier`: a complete draft is appended as a tier and the draft
        cleared; an incomplete one changes nothing. */
    method AddIncentiveTier(now: nat)
      modifies this
      ensures Complete(old(newTier)) ==>
        incentiveTiers == old(incentiveTiers) + [TierOf(old(newTier), now)] && newTier == EmptyDraft
      ensures !Complete(old(newTier)) ==> incentiveTiers == old(incentiveTiers) && newTier == old(newTier)
      ensures currentStep == old(currentStep) && uploadedImages == old(uploadedImages)
      ensures isSubmitting == old(isSubmitting)
    {
      if Complete(newTier) {
        incentiveTiers := incentiveTiers + [TierOf(newTier, now)];
        newTier := EmptyDraft;
      }
    }

    method RemoveTier(id: string)
      modifies this
      ensures incentiveTiers == WithoutTier(old(incentiveTiers), id)
      ensures currentStep == old(currentStep) && newTier == old(newTier)
      ensures uploadedImages == old(uploadedImages) && isSubmitting == old(isSubmitting)
    {
      incentiveTiers := WithoutTier(incentiveTiers, id);
    }

    /** `handleImageUpload`: with files chosen, one URL per file is appended;
        with none, nothing changes. */
    method UploadImages(files: Option<seq<string>>)
      modifies this
      ensures uploadedImages == old(uploadedImages) + (if files.Some? then ImageUrls(files.value) else [])
      ensures currentStep == old(currentStep) && newTier == old(newTier)
      ensures incentiveTiers == old(incentiveTiers) && isSubmitting == old(isSubmitting)
    {
      if files.Some? {
        uploadedImages := uploadedImages + ImageUrls(files.value);
      }
    }

    method RemoveImage(index: int)
      modifies this
      ensures uploadedImages == WithoutIndex(old(uploadedImages), index)
      ensures currentStep == old(currentStep) && newTier == old(newTier)
      ensures incentiveTiers == old(incentiveTiers) && isSubmitting == old(isSubmitting)
    {
      uploadedImages := WithoutIndex(uploadedImages, index);
    }

    /** The Previous button: one step back, never below the first. */
    method Previous()
      requires Valid()
      modifies this
      ensures Valid()
      ensures currentStep == if old(currentStep) == 0 then 0 else old(currentStep) - 1
      ensures incentiveTiers == old(incentiveTiers) && newTier == old(newTier)
      ensures uploadedImages == old(uploadedImages) && isSubmitting == old(isSubmitting)
    {
      currentStep := if currentStep - 1 < 0 then 0 else currentStep - 1;
    }

    /** The Next button: one step on, never past the last. */
    method Next()
      requires Valid()
      modifies this
      ensures Valid()
      ensures currentStep == if old(currentStep) == StepCount - 1 then StepCount - 1 else old(currentStep) + 1
      ensures incentiveTiers == old(incentiveTiers) && newTier == old(newTier)
      ensures uploadedImages == old(uploadedImages) && isSubmitting == old(isSubmitting)
    {
      currentStep := if currentStep + 1 > StepCount - 1 then StepCount - 1 else currentStep + 1;
    }

    /** `handleSubmit`: the mock submission (a timer, a toast and a redirect),
        after which the form is no longer submitting. */
    method Submit()
      modifies this
      ensures !isSubmitting
      ensures currentStep == old(currentStep) && incentiveTiers == old(incentiveTiers)
      ensures newTier == old(newTier) && uploadedImages == old(uploadedImages)
    {
      isSubmitting := true;
      isSubmitting := false;
    }
  }
}
