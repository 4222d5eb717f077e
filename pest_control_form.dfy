/** The pest-control booking form: its draft record and per-field error
    map, the handlers that change them and the service-driven visibility of
    the bedbug and square-footage selectors. The service catalog comes from
    a constants module outside this model and is a parameter here. */
module PestControl {
  import opened Types
  import opened PhoneInput
  import opened Locations

  const Bedbug := "床蝨"
  const HiveRemoval := "蜂巢移除"
  const WoodBorer := "蛀木蟲"
  const PhoneErrorMessage := "請輸入 8 位數字電話號碼"
  const NotApplicable := "N/A"

  /** The room and mattress selectors belong to the bedbug treatment. */
  predicate IsBedbug(draft: PestControlBooking)
  {
    draft.service == Bedbug
  }

  /** `!['蜂巢移除', '蛀木蟲'].includes(service)`. */
  predicate ShowSqFt(draft: PestControlBooking)
  {
    draft.service !in [HiveRemoval, WoodBorer]
  }

  /** The selectors a service shows: bedbug treatment shows rooms,
      mattresses and square footage; hive removal and wood-borer treatment
      show none of them; every other service shows square footage only. */
  lemma VisibilityByService(draft: PestControlBooking)
    ensures draft.service == Bedbug ==> IsBedbug(draft) && ShowSqFt(draft)
    ensures draft.service == HiveRemoval || draft.service == WoodBorer ==> !IsBedbug(draft) && !ShowSqFt(draft)
    ensures draft.service !in {Bedbug, HiveRemoval, WoodBorer} ==> !IsBedbug(draft) && ShowSqFt(draft)
  {
  }

  function WithPhone(draft: PestControlBooking, field: PhoneField, phone: string): PestControlBooking
  {
    match field
    case PrimaryPhone => draft.(phone := phone)
    case AltPhone => draft.(altPhone := phone)
  }

  class PestControlForm {
    const locations: seq<LocationOption>
    var formData: PestControlBooking
    var errors: map<PhoneField, string>

    /** The draft's invariants: phone fields hold normalised values, the
        error map reflects them, and the region / sub-district pair is one
        the catalog offers. */
    ghost predicate Valid()
      reads this
    {
      && IsNormalized(formData.phone)
      && IsNormalized(formData.altPhone)
      && ErrorsMatch(errors, formData.phone, formData.altPhone)
      && Consistent(locations, formData.region, formData.subDistrict)
    }

    /** The initial draft: first region and its first sub-district, first
        service, counts "N/A", first square-footage band. */
    constructor (locations: seq<LocationOption>, services: seq<string>, sqFtOptions: seq<string>)
      requires |locations| > 0 && |locations[0].subDistricts| > 0
      requires |services| > 0 && |sqFtOptions| > 0
      ensures Valid()
      ensures this.locations == locations
      ensures formData == PestControlBooking(
        "", "", "", "", locations[0].region, locations[0].subDistricts[0], "", services[0],
        NotApplicable, NotApplicable, sqFtOptions[0], "")
      ensures errors == map[]
    {
      this.locations := locations;
      formData := PestControlBooking(
        "", "", "", "", locations[0].region, locations[0].subDistricts[0], "", services[0],
        NotApplicable, NotApplicable, sqFtOptions[0], "");
      errors := map[];
      new;
      InitialLocationIsConsistent(locations);
    }

    /** `handlePhoneChange`: the field receives the normalised input, its
        error entry is set iff the number is incomplete, and nothing else
        changes. */
    method HandlePhoneChange(field: PhoneField, input: string)
      requires Valid()
      modifies this
      ensures Valid()
      ensures formData == WithPhone(old(formData), field, NormalizePhone(input))
      ensures errors == UpdateErrors(old(errors), field, NormalizePhone(input), PhoneErrorMessage)
    {
      var phone := NormalizePhone(input);
      formData := WithPhone(formData, field, phone);
      errors := UpdateErrors(errors, field, phone, PhoneErrorMessage);
    }

    /** The region select: the sub-district resets to the region's first. */
    method SelectRegion(region: string)
      requires Valid()
      modifies this
      ensures Valid()
      ensures formData == old(formData).(region := region, subDistrict := FirstSubDistrict(locations, region))
      ensures errors == old(errors)
    {
      formData := formData.(region := region, subDistrict := FirstSubDistrict(locations, region));
      RegionChangeIsConsistent(locations, region);
    }

    /** The searchable sub-district select, which only offers the current
        region's sub-districts. */
    method SelectSubDistrict(subDistrict: string)
      requires Valid()
      requires subDistrict in SubDistrictsOf(locations, formData.region)
      modifies this
      ensures Valid()
      ensures formData == old(formData).(subDistrict := subDistrict)
      ensures errors == old(errors)
    {
      formData := formData.(subDistrict := subDistrict);
    }

    /** A service button: only the service changes; room, mattress and
        square-footage values are kept even when their selectors hide. */
    method SelectService(service: string)
      requires Valid()
      modifies this
      ensures Valid()
      ensures formData == old(formData).(service := service)
      ensures formData.roomCount == old(formData.roomCount) && formData.mattressCount == old(formData.mattressCount)
      ensures formData.sqFt == old(formData.sqFt)
      ensures errors == old(errors)
    {
      formData := formData.(service := service);
    }

    /** `handleSubmit`: hands the draft on iff the phone has exactly eight
        characters; otherwise the alert is shown and nothing is submitted. */
    method HandleSubmit() returns (submitted: Option<PestControlBooking>)
      ensures submitted.Some? <==> |formData.phone| == PhoneLength
      ensures submitted.Some? ==> submitted.value == formData
    {
      if !CanSubmit(formData.phone) {
        return None;
      }
      return Some(formData);
    }

    /** Pressing the submit button: the required name, phone and address
        inputs must be non-empty before `handleSubmit` runs at all, and then
        the phone must have eight characters. The alternate phone plays no
        part, even while it shows its error. */
    method SubmitButton() returns (submitted: Option<PestControlBooking>)
      ensures submitted.Some? <==> formData.name != "" && formData.address != "" && |formData.phone| == PhoneLength
      ensures submitted.Some? ==> submitted.value == formData
    {
      var required := [formData.name, formData.phone, formData.address];
      if !RequiredFilled(required) {
        assert required[0] == "" || required[1] == "" || required[2] == "";
        return None;
      }
      assert required[0] != "" && required[2] != "";
      submitted := HandleSubmit();
    }
  }
}
