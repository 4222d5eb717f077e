/** The record shapes shared by the booking front end: the two draft
    bookings, the uniform submission result and the externally produced
    recommendation envelope. Optional properties of the TypeScript
    interfaces are `Option` fields. */
module Types {

  datatype Option<+T> = None | Some(value: T)
  {
    function GetOr(default: T): T
    {
      match this
      case Some(v) => v
      case None => default
    }
  }

  /** Which of the two booking forms is meant. */
  datatype ServiceType = Pest | Cleaning

  /** One region of the location catalog with its sub-districts, in order. */
  datatype LocationOption = LocationOption(region: string, subDistricts: seq<string>)

  /** The draft record owned by the pest-control form. */
  datatype PestControlBooking = PestControlBooking(
    name: string,
    phone: string,
    altContact: string,
    altPhone: string,
    region: string,
    subDistrict: string,
    address: string,
    service: string,
    roomCount: string,
    mattressCount: string,
    sqFt: string,
    remarks: string)

  /** The draft record owned by the cleaning form; `addServices` holds
      add-on ids in the order they were chosen. */
  datatype CleaningBooking = CleaningBooking(
    name: string,
    phone: string,
    altContact: string,
    altPhone: string,
    region: string,
    subDistrict: string,
    address: string,
    mainService: string,
    addServices: seq<string>,
    carpetCount: string,
    mattressCount: string,
    curtainCount: string,
    sqFt: string,
    remarks: string)

  /** The constraint flags the scheduler attaches to a recommendation. */
  datatype Constraints = Constraints(
    skillNoMatch: Option<bool>,
    isFirstJob: Option<bool>,
    isLastJob: Option<bool>,
    firstJobDelayed: Option<bool>,
    hasNoJobsToday: Option<bool>)

  /** One scored candidate appointment slot. */
  datatype ScheduleRecommendation = ScheduleRecommendation(
    rank: int,
    staff: string,
    date: string,
    startTime: string,
    endTime: string,
    qualityScore: int,
    reasons: seq<string>,
    constraints: Option<Constraints>)

  datatype Meta = Meta(
    totalOptionsEvaluated: Option<int>,
    requiresHumanConfirmation: Option<bool>,
    disclaimer: Option<string>)

  /** The parsed response body. Besides the typed properties it carries the
      optional `message` the submission client reads, and the echoed
      submission fields (keys such as 客戶名稱 or 地區) as a bag. */
  datatype BookingResultData = BookingResultData(
    recommendations: Option<seq<ScheduleRecommendation>>,
    meta: Option<Meta>,
    status: Option<string>,
    message: Option<string>,
    echoedFields: map<string, string>)

  /** The uniform result every submission ends in. */
  datatype BookingResponse = BookingResponse(
    success: bool,
    message: string,
    data: Option<BookingResultData>,
    error: Option<string>)
}
