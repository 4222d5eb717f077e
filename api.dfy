/** The submission client: the payload it posts and the uniform
    `BookingResponse` every submission ends in. The network round trip is
    not modelled; its outcome is a `FetchOutcome` value, and the clock
    reading that stamps the payload is a parameter. */
module Api {
  import opened Types
  import opened Strings

  // ---------------------------------------------------------------------
  // The payload

  /** The property names the payload can carry. */
  datatype Key =
    | ServiceTypeKey | TimestampKey
    | NameKey | PhoneKey | AltContactKey | AltPhoneKey | RegionKey | SubDistrictKey | AddressKey
    | ServiceKey | RoomCountKey | MainServiceKey | AddServicesKey | CarpetCountKey
    | MattressCountKey | CurtainCountKey | SqFtKey | RemarksKey

  /** The JSON property name of a key. */
  function KeyName(key: Key): string
  {
    match key
    case ServiceTypeKey => "serviceType"
    case TimestampKey => "timestamp"
    case NameKey => "name"
    case PhoneKey => "phone"
    case AltContactKey => "altContact"
    case AltPhoneKey => "altPhone"
    case RegionKey => "region"
    case SubDistrictKey => "subDistrict"
    case AddressKey => "address"
    case ServiceKey => "service"
    case RoomCountKey => "roomCount"
    case MainServiceKey => "mainService"
    case AddServicesKey => "addServices"
    case CarpetCountKey => "carpetCount"
    case MattressCountKey => "mattressCount"
    case CurtainCountKey => "curtainCount"
    case SqFtKey => "sqFt"
    case RemarksKey => "remarks"
  }

  /** No two keys share a JSON property name, so a payload's keys stand for
      distinct properties of the posted object. */
  lemma KeyNamesDistinct(a: Key, b: Key)
    ensures KeyName(a) == KeyName(b) ==> a == b
  {
  }

  /** One property value of the posted JSON object: a string, or the add-on
      id list of the cleaning draft. */
  datatype FieldValue = Text(text: string) | TextList(items: seq<string>)

  type Payload = map<Key, FieldValue>

  /** The `serviceType` value of the payload (the URL uses "clean" instead). */
  function ServiceTag(service: ServiceType): (tag: string)
    ensures tag == (if service.Pest? then "pest" else "cleaning")
  {
    match service
    case Pest => "pest"
    case Cleaning => "cleaning"
  }

  /** The header properties of a payload. */
  const HeaderKeys: set<Key> := {ServiceTypeKey, TimestampKey}

  /** The properties of a pest-control draft, as spread into the payload. */
  function PestFields(draft: PestControlBooking): (fields: Payload)
    ensures fields.Keys !! HeaderKeys
  {
    map[
      NameKey := Text(draft.name),
      PhoneKey := Text(draft.phone),
      AltContactKey := Text(draft.altContact),
      AltPhoneKey := Text(draft.altPhone),
      RegionKey := Text(draft.region),
      SubDistrictKey := Text(draft.subDistrict),
      AddressKey := Text(draft.address),
      ServiceKey := Text(draft.service),
      RoomCountKey := Text(draft.roomCount),
      MattressCountKey := Text(draft.mattressCount),
      SqFtKey := Text(draft.sqFt),
      RemarksKey := Text(draft.remarks)]
  }

  /** The properties of a cleaning draft, as spread into the payload. */
  function CleaningFields(draft: CleaningBooking): (fields: Payload)
    ensures fields.Keys !! HeaderKeys
  {
    map[
      NameKey := Text(draft.name),
      PhoneKey := Text(draft.phone),
      AltContactKey := Text(draft.altContact),
      AltPhoneKey := Text(draft.altPhone),
      RegionKey := Text(draft.region),
      SubDistrictKey := Text(draft.subDistrict),
      AddressKey := Text(draft.address),
      MainServiceKey := Text(draft.mainService),
      AddServicesKey := TextList(draft.addServices),
      CarpetCountKey := Text(draft.carpetCount),
      MattressCountKey := Text(draft.mattressCount),
      CurtainCountKey := Text(draft.curtainCount),
      SqFtKey := Text(draft.sqFt),
      RemarksKey := Text(draft.remarks)]
  }

  /** `{ serviceType, timestamp, ...data }`: the two header properties
      first, then every draft property, a draft property winning over a
      header property of the same name. */
  function BuildPayload(service: ServiceType, timestamp: string, fields: Payload): (payload: Payload)
    ensures payload.Keys == fields.Keys + {ServiceTypeKey, TimestampKey}
    ensures forall k :: k in fields ==> payload[k] == fields[k]
    ensures ServiceTypeKey !in fields ==> payload[ServiceTypeKey] == Text(ServiceTag(service))
    ensures TimestampKey !in fields ==> payload[TimestampKey] == Text(timestamp)
  {
    map[ServiceTypeKey := Text(ServiceTag(service)), TimestampKey := Text(timestamp)] + fields
  }

  /** The payload property `key` holds a string. */
  predicate HasText(payload: Payload, key: Key)
  {
    key in payload && payload[key].Text?
  }

  /** Reads a pest-control draft back out of a payload, if every one of its
      properties is there with the right shape. */
  function PestFromPayload(payload: Payload): Option<PestControlBooking>
  {
    if && HasText(payload, NameKey) && HasText(payload, PhoneKey) && HasText(payload, AltContactKey)
       && HasText(payload, AltPhoneKey) && HasText(payload, RegionKey) && HasText(payload, SubDistrictKey)
       && HasText(payload, AddressKey) && HasText(payload, ServiceKey) && HasText(payload, RoomCountKey)
       && HasText(payload, MattressCountKey) && HasText(payload, SqFtKey) && HasText(payload, RemarksKey)
    then
      Some(PestControlBooking(
        payload[NameKey].text, payload[PhoneKey].text, payload[AltContactKey].text, payload[AltPhoneKey].text,
        payload[RegionKey].text, payload[SubDistrictKey].text, payload[AddressKey].text, payload[ServiceKey].text,
        payload[RoomCountKey].text, payload[MattressCountKey].text, payload[SqFtKey].text, payload[RemarksKey].text))
    else None
  }

  /** Reads a cleaning draft back out of a payload, if every one of its
      properties is there with the right shape. */
  function CleaningFromPayload(payload: Payload): Option<CleaningBooking>
  {
    if && HasText(payload, NameKey) && HasText(payload, PhoneKey) && HasText(payload, AltContactKey)
       && HasText(payload, AltPhoneKey) && HasText(payload, RegionKey) && HasText(payload, SubDistrictKey)
       && HasText(payload, AddressKey) && HasText(payload, MainServiceKey)
       && AddServicesKey in payload && payload[AddServicesKey].TextList?
       && HasText(payload, CarpetCountKey) && HasText(payload, MattressCountKey)
       && HasText(payload, CurtainCountKey) && HasText(payload, SqFtKey) && HasText(payload, RemarksKey)
    then
      Some(CleaningBooking(
        payload[NameKey].text, payload[PhoneKey].text, payload[AltContactKey].text, payload[AltPhoneKey].text,
        payload[RegionKey].text, payload[SubDistrictKey].text, payload[AddressKey].text,
        payload[MainServiceKey].text, payload[AddServicesKey].items, payload[CarpetCountKey].text,
        payload[MattressCountKey].text, payload[CurtainCountKey].text, payload[SqFtKey].text,
        payload[RemarksKey].text))
    else None
  }

  /** When the draft has no header-named property, the spread loses
      nothing: the header properties carry the tag and the timestamp, and
      removing them gives back exactly the draft's properties. */
  lemma SpreadKeepsDraft(service: ServiceType, timestamp: string, fields: Payload)
    requires fields.Keys !! HeaderKeys
    ensures BuildPayload(service, timestamp, fields)[ServiceTypeKey] == Text(ServiceTag(service))
    ensures BuildPayload(service, timestamp, fields)[TimestampKey] == Text(timestamp)
    ensures BuildPayload(service, timestamp, fields) - HeaderKeys == fields
  {
    var payload := BuildPayload(service, timestamp, fields);
    assert (payload - HeaderKeys).Keys == fields.Keys;
  }

  /** A pest-control draft's properties read back as the same draft. */
  lemma PestFieldsReadBack(draft: PestControlBooking)
    ensures PestFromPayload(PestFields(draft)) == Some(draft)
  {
    var fields := PestFields(draft);
    assert fields[NameKey] == Text(draft.name);
    assert fields[PhoneKey] == Text(draft.phone);
    assert fields[AltContactKey] == Text(draft.altContact);
    assert fields[AltPhoneKey] == Text(draft.altPhone);
    assert fields[RegionKey] == Text(draft.region);
    assert fields[SubDistrictKey] == Text(draft.subDistrict);
    assert fields[AddressKey] == Text(draft.address);
    assert fields[ServiceKey] == Text(draft.service);
    assert fields[RoomCountKey] == Text(draft.roomCount);
    assert fields[MattressCountKey] == Text(draft.mattressCount);
    assert fields[SqFtKey] == Text(draft.sqFt);
    assert fields[RemarksKey] == Text(draft.remarks);
  }

  /** A cleaning draft's properties, add-on list included, read back as
      the same draft. */
  lemma CleaningFieldsReadBack(draft: CleaningBooking)
    ensures CleaningFromPayload(CleaningFields(draft)) == Some(draft)
  {
    var fields := CleaningFields(draft);
    assert fields[NameKey] == Text(draft.name);
    assert fields[PhoneKey] == Text(draft.phone);
    assert fields[AltContactKey] == Text(draft.altContact);
    assert fields[AltPhoneKey] == Text(draft.altPhone);
    assert fields[RegionKey] == Text(draft.region);
    assert fields[SubDistrictKey] == Text(draft.subDistrict);
    assert fields[AddressKey] == Text(draft.address);
    assert fields[MainServiceKey] == Text(draft.mainService);
    assert fields[CarpetCountKey] == Text(draft.carpetCount);
    assert fields[MattressCountKey] == Text(draft.mattressCount);
    assert fields[CurtainCountKey] == Text(draft.curtainCount);
    assert fields[SqFtKey] == Text(draft.sqFt);
    assert fields[RemarksKey] == Text(draft.remarks);
    assert fields[AddServicesKey] == TextList(draft.addServices);
  }

  /** The posted pest-control payload carries the "pest" tag, the timestamp
      and the whole draft. */
  lemma PestPayloadCarriesDraft(draft: PestControlBooking, timestamp: string)
    ensures BuildPayload(Pest, timestamp, PestFields(draft))[ServiceTypeKey] == Text("pest")
    ensures BuildPayload(Pest, timestamp, PestFields(draft))[TimestampKey] == Text(timestamp)
    ensures PestFromPayload(BuildPayload(Pest, timestamp, PestFields(draft)) - HeaderKeys) == Some(draft)
  {
    PestFieldsReadBack(draft);
    SpreadKeepsDraft(Pest, timestamp, PestFields(draft));
  }

  /** The posted cleaning payload carries the "cleaning" tag, the timestamp
      and the whole draft. */
  lemma CleaningPayloadCarriesDraft(draft: CleaningBooking, timestamp: string)
    ensures BuildPayload(Cleaning, timestamp, CleaningFields(draft))[ServiceTypeKey] == Text("cleaning")
    ensures BuildPayload(Cleaning, timestamp, CleaningFields(draft))[TimestampKey] == Text(timestamp)
    ensures CleaningFromPayload(BuildPayload(Cleaning, timestamp, CleaningFields(draft)) - HeaderKeys) == Some(draft)
  {
    CleaningFieldsReadBack(draft);
    SpreadKeepsDraft(Cleaning, timestamp, CleaningFields(draft));
  }

  // ---------------------------------------------------------------------
  // The outcome of the request

  /** What the `catch` clause can tell apart about a thrown value. */
  datatype ErrorKind = TypeErrorKind | OtherErrorKind

  /** A thrown value: an `Error` instance with its kind and message, or
      anything else. */
  datatype Thrown = ErrorValue(kind: ErrorKind, message: string) | NonErrorValue

  /** The body of a response: parsed JSON, or text `response.json()`
      rejects with a `SyntaxError` carrying `parseError`. */
  datatype Body = Parsed(data: BookingResultData) | Unparseable(parseError: string)

  /** How the request went: the server answered with a status and a body,
      or `fetch` itself threw. */
  datatype FetchOutcome = Responded(status: nat, body: Body) | FetchThrew(thrown: Thrown)

  /** `response.ok`: a status in the 200-299 range. */
  predicate IsOk(status: nat)
  {
    200 <= status <= 299
  }

  const SuccessMessage := "預約已成功提交"
  const NetworkMessage := "網絡連接失敗，請檢查您的網絡連接"
  const FallbackMessage := "提交失敗，請稍後重試"
  const NetworkError := "NETWORK_ERROR"
  const SubmissionError := "SUBMISSION_ERROR"
  const ServerErrorPrefix := "Server error: "

  /** The message of the error thrown for a non-ok status. */
  function ServerErrorMessage(status: nat): (message: string)
    ensures ServerErrorPrefix <= message && |message| > |ServerErrorPrefix|
  {
    ServerErrorPrefix + NatToString(status)
  }

  /** The status can be read back from the server-error message, so
      different statuses give different messages. */
  lemma ServerErrorMessageNamesStatus(status: nat)
    ensures DecimalValue(ServerErrorMessage(status)[|ServerErrorPrefix|..]) == status
  {
    assert ServerErrorMessage(status)[|ServerErrorPrefix|..] == NatToString(status);
    DecimalRoundTrip(status);
  }

  /** Where the `try` block ends: it returns a response, or something is
      thrown out of it. */
  datatype TryResult = Returned(response: BookingResponse) | Raised(thrown: Thrown)

  /** `result.message || '預約已成功提交'`. */
  function SuccessMessageOf(data: BookingResultData): (message: string)
    ensures message != ""
    ensures data.message.Some? && data.message.value != "" ==> message == data.message.value
    ensures data.message.None? || data.message.value == "" ==> message == SuccessMessage
  {
    if data.message.Some? && data.message.value != "" then data.message.value else SuccessMessage
  }

  /** The `try` block: an ok, parseable response is returned as a success
      carrying the body; a non-ok status throws "Server error: N"; a body
      that is not JSON and a failed `fetch` throw what they threw. */
  function TryBlock(outcome: FetchOutcome): (result: TryResult)
    ensures result.Returned? <==> outcome.Responded? && IsOk(outcome.status) && outcome.body.Parsed?
    ensures result.Returned? ==> result.response.success && result.response.data == Some(outcome.body.data)
  {
    match outcome
    case Responded(status, body) =>
      if !IsOk(status) then Raised(ErrorValue(OtherErrorKind, ServerErrorMessage(status)))
      else (
        match body
        case Parsed(data) => Returned(BookingResponse(true, SuccessMessageOf(data), Some(data), None))
        case Unparseable(parseError) => Raised(ErrorValue(OtherErrorKind, parseError)))
    case FetchThrew(thrown) => Raised(thrown)
  }

  /** A browser's network failure: a `TypeError` whose message mentions
      "fetch" (matched case-sensitively). */
  predicate IsNetworkFailure(thrown: Thrown)
  {
    thrown.ErrorValue? && thrown.kind == TypeErrorKind && Contains(thrown.message, "fetch")
  }

  /** The `catch` clause: a failure, classified as a network failure or a
      submission failure. */
  function CatchClause(thrown: Thrown): (response: BookingResponse)
    ensures !response.success && response.data.None? && response.error.Some?
    ensures response.error.value == NetworkError <==> IsNetworkFailure(thrown)
    ensures response.error.value == SubmissionError <==> !IsNetworkFailure(thrown)
    ensures IsNetworkFailure(thrown) ==> response.message == NetworkMessage
    ensures !IsNetworkFailure(thrown) && thrown.ErrorValue? ==> response.message == thrown.message
    ensures thrown.NonErrorValue? ==> response.message == FallbackMessage
  {
    if IsNetworkFailure(thrown) then BookingResponse(false, NetworkMessage, None, Some(NetworkError))
    else BookingResponse(false, if thrown.ErrorValue? then thrown.message else FallbackMessage, None, Some(SubmissionError))
  }

  /** `submitBooking` after the request: every outcome ends in a response. */
  function SubmitResult(outcome: FetchOutcome): (response: BookingResponse)
    ensures response.success <==> response.error.None?
    ensures response.success <==> response.data.Some?
    ensures response.success ==> response.message != ""
  {
    match TryBlock(outcome)
    case Returned(r) => r
    case Raised(thrown) => CatchClause(thrown)
  }

  /** The response for each kind of outcome. */
  lemma SubmitResultCases(outcome: FetchOutcome)
    ensures var r := SubmitResult(outcome);
      && (r.success <==> outcome.Responded? && IsOk(outcome.status) && outcome.body.Parsed?)
      && (r.success ==> r.data == Some(outcome.body.data) && r.message == SuccessMessageOf(outcome.body.data))
      && (outcome.Responded? && !IsOk(outcome.status) ==>
            r.error == Some(SubmissionError) && r.message == ServerErrorMessage(outcome.status))
      && (outcome.Responded? && IsOk(outcome.status) && outcome.body.Unparseable? ==>
            r.error == Some(SubmissionError) && r.message == outcome.body.parseError)
      && (outcome.FetchThrew? && IsNetworkFailure(outcome.thrown) ==>
            r.error == Some(NetworkError) && r.message == NetworkMessage)
      && (outcome.FetchThrew? && !IsNetworkFailure(outcome.thrown) ==>
            r.error == Some(SubmissionError)
            && r.message == (if outcome.thrown.ErrorValue? then outcome.thrown.message else FallbackMessage))
  {
  }

  /** Which browser messages count as network failures: a `TypeError`
      saying "Failed to fetch" does, one saying "Load failed" does not. */
  lemma NetworkFailureExamples()
    ensures SubmitResult(FetchThrew(ErrorValue(TypeErrorKind, "Failed to fetch"))).error == Some(NetworkError)
    ensures SubmitResult(FetchThrew(ErrorValue(TypeErrorKind, "Load failed"))).error == Some(SubmissionError)
  {
    var hit := "Failed to fetch";
    assert OccursAt(hit, "fetch", 10);
    ContainsIffOccurs(hit, "fetch");
    var miss := "Load failed";
    forall i ensures !OccursAt(miss, "fetch", i) {
      if 0 <= i && i + 5 <= |miss| {
        assert miss[i..i + 5][4] == miss[i + 4] != 'h';
      }
    }
    ContainsIffOccurs(miss, "fetch");
  }

  /** Two concrete submissions: a 500 response is a submission error naming
      the status, and a 200 response carrying a message and an empty list
      succeeds with that message and the body as its data. */
  lemma SubmissionExamples(data: BookingResultData)
    requires data.message == Some("ok") && data.recommendations == Some([])
    ensures SubmitResult(Responded(500, Parsed(data))) ==
      BookingResponse(false, "Server error: 500", None, Some(SubmissionError))
    ensures SubmitResult(Responded(200, Parsed(data))) == BookingResponse(true, "ok", Some(data), None)
  {
    assert NatToString(500) == "500" by {
      assert NatToString(5) == "5";
      assert NatToString(50) == "50";
    }
  }
}
