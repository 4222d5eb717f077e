/** The cleaning booking form: its draft record and per-field error map,
    the handlers that change them, the add-on catalog filter and the field
    visibility rules. The service and add-on catalogs come from a constants
    module outside this model and are parameters here. */
module Cleaning {
  import opened Types
  import opened Seqs
  import opened PhoneInput
  import opened Locations

  /** An add-on of the catalog and the main services it applies to. */
  datatype AddService = AddService(id: string, name: string, description: string, applicableTo: seq<string>)

  const DrainClearing := "通渠"
  const CarpetId := "carpet"
  const MattressId := "mattress"
  const CurtainId := "curtain"
  const PhoneErrorMessage := "請輸入 8 位數字電話"
  const NotApplicable := "N/A"

  // ---------------------------------------------------------------------
  // Add-on selection

  /** `addServices.filter(s => s !== id)`: every occurrence of the id goes,
      and every other id stays, as often as before and in the same order. */
  function Without(ids: seq<string>, id: string): (rest: seq<string>)
    ensures forall x :: x in rest <==> x in ids && x != id
    ensures IsSubsequence(rest, ids)
    ensures forall x :: x != id ==> multiset(rest)[x] == multiset(ids)[x]
  {
    var keep := (x: string) => x != id;
    FilterIsSubsequence(ids, keep);
    FilterPartition(ids, keep, x => x == id);
    Filter(ids, keep)
  }

  /** `toggleAddService`: remove every occurrence of a present id, keeping
      the others in order; append an absent one at the end. No other id
      gains or loses an occurrence. */
  function Toggle(ids: seq<string>, id: string): (toggled: seq<string>)
    ensures id in ids ==> id !in toggled && forall x :: x != id ==> (x in toggled <==> x in ids)
    ensures id in ids ==> IsSubsequence(toggled, ids)
    ensures id !in ids ==> toggled == ids + [id]
    ensures forall x :: x != id ==> multiset(toggled)[x] == multiset(ids)[x]
  {
    if id in ids then Without(ids, id) else ids + [id]
  }

  /** Toggling keeps the selection free of duplicates. */
  lemma ToggleKeepsNoDuplicates(ids: seq<string>, id: string)
    requires NoDuplicates(ids)
    ensures NoDuplicates(Toggle(ids, id))
  {
    if id in ids {
      FilterNoDuplicates(ids, x => x != id);
    }
  }

  /** Toggling an absent id twice restores the exact selection. */
  lemma ToggleTwiceAbsent(ids: seq<string>, id: string)
    requires id !in ids
    ensures Toggle(Toggle(ids, id), id) == ids
  {
    var keep := x => x != id;
    FilterConcat(ids, [id], keep);
    FilterKeepsAll(ids, keep);
    assert Filter([id], keep) == [] by {
      assert [id][1..] == [];
    }
  }

  /** Toggling a present id twice restores the same set of ids, but the id
      moves to the end. */
  lemma ToggleTwicePresent(ids: seq<string>, id: string)
    requires id in ids
    ensures forall x :: x in Toggle(Toggle(ids, id), id) <==> x in ids
    ensures Toggle(Toggle(ids, id), id) == Without(ids, id) + [id]
  {
  }

  /** The order is not always restored: a concrete selection where toggling
      the first id twice yields a different sequence. */
  lemma ToggleTwiceReorders()
    ensures Toggle(Toggle(["carpet", "curtain"], "carpet"), "carpet") == ["curtain", "carpet"]
  {
    var ids := ["carpet", "curtain"];
    var keep := (x: string) => x != "carpet";
    assert ids == ["carpet"] + ["curtain"];
    FilterConcat(["carpet"], ["curtain"], keep);
    assert ["carpet"][1..] == [] && ["curtain"][1..] == [];
    assert Without(ids, "carpet") == ["curtain"];
  }

  /** `CLEANING_ADD_SERVICES.filter(s => s.applicableTo.includes(mainService))`:
      exactly the catalog entries that apply to the main service, in catalog
      order. */
  function AvailableAddServices(catalog: seq<AddService>, mainService: string): (available: seq<AddService>)
    ensures forall s :: s in available <==> s in catalog && mainService in s.applicableTo
    ensures IsSubsequence(available, catalog)
    ensures forall s :: multiset(available)[s] == if mainService in s.applicableTo then multiset(catalog)[s] else 0
  {
    var applies := (s: AddService) => mainService in s.applicableTo;
    FilterIsSubsequence(catalog, applies);
    FilterCounts(catalog, applies);
    Filter(catalog, applies)
  }

  // ---------------------------------------------------------------------
  // Field visibility

  /** The square-footage selector is hidden for drain clearing. */
  predicate ShowSqFt(draft: CleaningBooking)
  {
    draft.mainService != DrainClearing
  }

  predicate ShowCarpetCount(draft: CleaningBooking)
  {
    CarpetId in draft.addServices
  }

  predicate ShowMattressCount(draft: CleaningBooking)
  {
    MattressId in draft.addServices
  }

  predicate ShowCurtainCount(draft: CleaningBooking)
  {
    CurtainId in draft.addServices
  }

  /** The quantity panel appears when any of its selectors does: exactly
      when one of the three counted add-ons is selected. */
  predicate ShowQuantityPanel(draft: CleaningBooking): (shown: bool)
    ensures shown <==> exists id :: id in draft.addServices && id in [CarpetId, MattressId, CurtainId]
  {
    ShowCarpetCount(draft) || ShowMattressCount(draft) || ShowCurtainCount(draft)
  }

  /** Toggling one add-on flips its own quantity selector and leaves the
      other two as they were. */
  lemma ToggleFlipsOneSelector(draft: CleaningBooking, id: string)
    requires id == CarpetId || id == MattressId || id == CurtainId
    ensures var after := draft.(addServices := Toggle(draft.addServices, id));
      && (ShowCarpetCount(after) <==> (if id == CarpetId then !ShowCarpetCount(draft) else ShowCarpetCount(draft)))
      && (ShowMattressCount(after) <==> (if id == MattressId then !ShowMattressCount(draft) else ShowMattressCount(draft)))
      && (ShowCurtainCount(after) <==> (if id == CurtainId then !ShowCurtainCount(draft) else ShowCurtainCount(draft)))
  {
  }

  // ---------------------------------------------------------------------
  // The form

  function WithPhone(draft: CleaningBooking, field: PhoneField, phone: string): CleaningBooking
  {
    match field
    case PrimaryPhone => draft.(phone := phone)
    case AltPhone => draft.(altPhone := phone)
  }

  class CleaningForm {
    const locations: seq<LocationOption>
    const addServiceCatalog: seq<AddService>
    var formData: CleaningBooking
    var errors: map<PhoneField, string>

    /** The draft's invariants: phone fields hold normalised values, the
        error map reflects them, add-ons are free of duplicates, and the
        region / sub-district pair is one the catalog offers. */
    ghost predicate Valid()
      reads this
    {
      && IsNormalized(formData.phone)
      && IsNormalized(formData.altPhone)
      && ErrorsMatch(errors, formData.phone, formData.altPhone)
      && NoDuplicates(formData.addServices)
      && Consistent(locations, formData.region, formData.subDistrict)
    }

    /** The initial draft: first region and its first sub-district, first
        main service, no add-ons, first square-footage band. */
    constructor (locations: seq<LocationOption>, services: seq<string>, addServiceCatalog: seq<AddService>,
                 sqFtOptions: seq<string>)
      requires |locations| > 0 && |locations[0].subDistricts| > 0
      requires |services| > 0 && |sqFtOptions| > 0
      ensures Valid()
      ensures this.locations == locations && this.addServiceCatalog == addServiceCatalog
      ensures formData == CleaningBooking(
        "", "", "", "", locations[0].region, locations[0].subDistricts[0], "", services[0], [],
        NotApplicable, NotApplicable, NotApplicable, sqFtOptions[0], "")
      ensures errors == map[]
    {
      this.locations := locations;
      this.addServiceCatalog := addServiceCatalog;
      formData := CleaningBooking(
        "", "", "", "", locations[0].region, locations[0].subDistricts[0], "", services[0], [],
        NotApplicable, NotApplicable, NotApplicable, sqFtOptions[0], "");
      errors := map[];
      new;
      InitialLocationIsConsistent(locations);
    }

    /** `handlePhoneChange`: the field receives the normalised input, its
        error entry is set iff the number is incomplete, and nothing else
        changes. */
    method HandlePhoneChange(field: PhoneField, input: string)
      requires Valid()
      modifies this
      ensures Valid()
      ensures formData == WithPhone(old(formData), field, NormalizePhone(input))
      ensures errors == UpdateErrors(old(errors), field, NormalizePhone(input), PhoneErrorMessage)
    {
      var phone := NormalizePhone(input);
      formData := WithPhone(formData, field, phone);
      errors := UpdateErrors(errors, field, phone, PhoneErrorMessage);
    }

    /** `toggleAddService`. */
    method ToggleAddService(id: string)
      requires Valid()
      modifies this
      ensures Valid()
      ensures formData == old(formData).(addServices := Toggle(old(formData.addServices), id))
      ensures errors == old(errors)
    {
      ToggleKeepsNoDuplicates(formData.addServices, id);
      formData := formData.(addServices := Toggle(formData.addServices, id));
    }

    /** The region select: the sub-district resets to the region's first. */
    method SelectRegion(region: string)
      requires Valid()
      modifies this
      ensures Valid()
      ensures formData == old(formData).(region := region, subDistrict := FirstSubDistrict(locations, region))
      ensures errors == old(errors)
    {
      formData := formData.(region := region, subDistrict := FirstSubDistrict(locations, region));
      RegionChangeIsConsistent(locations, region);
    }

    /** The searchable sub-district select, which only offers the current
        region's sub-districts. */
    method SelectSubDistrict(subDistrict: string)
      requires Valid()
      requires subDistrict in SubDistrictsOf(locations, formData.region)
      modifies this
      ensures Valid()
      ensures formData == old(formData).(subDistrict := subDistrict)
      ensures errors == old(errors)
    {
      formData := formData.(subDistrict := subDistrict);
    }

    /** A main-service button: selects it and clears the add-ons, since
        their availability depends on the main service. */
    method SelectMainService(service: string)
      requires Valid()
      modifies this
      ensures Valid()
      ensures formData == old(formData).(mainService := service, addServices := [])
      ensures !ShowQuantityPanel(formData)
      ensures errors == old(errors)
    {
      formData := formData.(mainService := service, addServices := []);
    }

    /** `handleSubmit`: hands the draft on iff the phone has exactly eight
        characters; otherwise the alert is shown and nothing is submitted. */
    method HandleSubmit() returns (submitted: Option<CleaningBooking>)
      ensures submitted.Some? <==> |formData.phone| == PhoneLength
      ensures submitted.Some? ==> submitted.value == formData
    {
      if !CanSubmit(formData.phone) {
        return None;
      }
      return Some(formData);
    }

    /** Pressing the submit button: the required name, phone and address
        inputs must be non-empty before `handleSubmit` runs at all, and then
        the phone must have eight characters. The alternate phone plays no
        part, even while it shows its error. */
    method SubmitButton() returns (submitted: Option<CleaningBooking>)
      ensures submitted.Some? <==> formData.name != "" && formData.address != "" && |formData.phone| == PhoneLength
      ensures submitted.Some? ==> submitted.value == formData
    {
      var required := [formData.name, formData.phone, formData.address];
      if !RequiredFilled(required) {
        assert required[0] == "" || required[1] == "" || required[2] == "";
        return None;
      }
      assert required[0] != "" && required[2] != "";
      submitted := HandleSubmit();
    }

    /** The add-ons offered for the current main service. */
    function OfferedAddServices(): (offered: seq<AddService>)
      reads this
      ensures forall s :: s in offered <==> s in addServiceCatalog && formData.mainService in s.applicableTo
    {
      AvailableAddServices(addServiceCatalog, formData.mainService)
    }
  }
}
