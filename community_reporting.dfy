/**
 * The community reporting hub (`src/components/CommunityReporting.tsx`): the
 * report form's state, the record it inserts into the store, the reset after a
 * successful insert, the geolocation fill-in, and the category and status
 * badges of the recent-reports list.
 *
 * The store insert is not modelled; its outcome is an input (`insertOk`). The
 * three-second reset delay is the separate step `ResetTimerFires`.
 */
module CommunityReporting {
  import opened Text

  /** The fields of the report form (`formData`). */
  datatype FormData = FormData(
    locationLat: real,
    locationLng: real,
    category: string,
    description: string,
    plasticDensityIndex: int,
    waterClarityLevel: string,
    reportedBy: string)

  /** The row handed to the store: the form's fields plus a status. */
  datatype NewReport = NewReport(
    locationLat: real,
    locationLng: real,
    category: string,
    description: string,
    plasticDensityIndex: int,
    waterClarityLevel: string,
    reportedBy: string,
    status: string)

  /** The form as first shown and as restored after a successful submission. */
  const DefaultForm: FormData :=
    FormData(19.0760, 72.8777, "Plastic", "", 50, "Moderate", "")

  const AnonymousReporter: string := "Anonymous"

  /**
   * The record built in `handleSubmit`: every form field copied, an empty name
   * replaced by "Anonymous" (JavaScript's `||` treats only the empty string as
   * false, so a name of spaces is kept), and the status forced to "New".
   */
  function SubmittedRecord(form: FormData): (r: NewReport)
    ensures r.status == "New"
    ensures r.reportedBy != ""
    ensures form.reportedBy == "" ==> r.reportedBy == AnonymousReporter
    ensures form.reportedBy != "" ==> r.reportedBy == form.reportedBy
    ensures r.locationLat == form.locationLat && r.locationLng == form.locationLng
    ensures r.category == form.category && r.description == form.description
    ensures r.plasticDensityIndex == form.plasticDensityIndex
    ensures r.waterClarityLevel == form.waterClarityLevel
  {
    NewReport(form.locationLat, form.locationLng, form.category, form.description,
              form.plasticDensityIndex, form.waterClarityLevel,
              if form.reportedBy == "" then AnonymousReporter else form.reportedBy,
              "New")
  }

  /** The form fields a record carries. */
  function FormOf(r: NewReport): FormData
  {
    FormData(r.locationLat, r.locationLng, r.category, r.description,
             r.plasticDensityIndex, r.waterClarityLevel, r.reportedBy)
  }

  /**
   * A named report round-trips: the record's form fields are the form. An
   * anonymous one differs from its form only in the name.
   */
  lemma RecordRoundTrip(form: FormData)
    ensures form.reportedBy != "" ==> FormOf(SubmittedRecord(form)) == form
    ensures form.reportedBy == "" ==>
      FormOf(SubmittedRecord(form)) == form.(reportedBy := AnonymousReporter)
  {
  }

  /** "Anonymous" is recorded exactly for an empty name or one that already reads "Anonymous". */
  lemma AnonymousIff(form: FormData)
    ensures SubmittedRecord(form).reportedBy == AnonymousReporter
        <==> form.reportedBy == "" || form.reportedBy == AnonymousReporter
  {
  }

  /** Where a geolocation request ends: a position, a refusal, or no geolocation support. */
  datatype GeoOutcome = Fix(latitude: real, longitude: real) | Denied | Unsupported

  /** The form after a geolocation outcome: a fix replaces the coordinates only. */
  function WithLocation(form: FormData, outcome: GeoOutcome): (f: FormData)
    ensures outcome.Fix? ==> f.locationLat == outcome.latitude && f.locationLng == outcome.longitude
    ensures !outcome.Fix? ==> f == form
    ensures f.category == form.category && f.description == form.description
    ensures f.plasticDensityIndex == form.plasticDensityIndex
    ensures f.waterClarityLevel == form.waterClarityLevel && f.reportedBy == form.reportedBy
  {
    match outcome
    case Fix(lat, lng) => form.(locationLat := lat, locationLng := lng)
    case _ => form
  }

  /** The report form: its fields, the success panel flag and the busy flag. */
  class ReportForm {
    var formData: FormData
    var submitted: bool
    var loading: bool

    /** The form and the success panel are never shown at once while a submission is in flight. */
    predicate Valid()
      reads this
    {
      !(loading && submitted)
    }

    constructor()
      ensures Valid()
      ensures formData == DefaultForm && !submitted && !loading
    {
      formData := DefaultForm;
      submitted := false;
      loading := false;
    }

    /** `getUserLocation`'s callbacks: a fix overwrites the coordinates, anything else changes nothing. */
    method HandleGeolocation(outcome: GeoOutcome)
      modifies this
      ensures formData == WithLocation(old(formData), outcome)
      ensures submitted == old(submitted) && loading == old(loading)
    {
      match outcome {
        case Fix(lat, lng) =>
          formData := formData.(locationLat := lat, locationLng := lng);
        case Denied =>
        case Unsupported =>
      }
    }

    /**
     * The first half of `handleSubmit`: the form is only on screen while no
     * success panel is shown, and its button is disabled while busy. Marks the
     * form busy and returns the row to insert.
     */
    method BeginSubmit() returns (row: NewReport)
      requires Valid() && !submitted && !loading
      modifies this
      ensures Valid()
      ensures row == SubmittedRecord(formData)
      ensures loading && !submitted && formData == old(formData)
    {
      loading := true;
      row := SubmittedRecord(formData);
    }

    /**
     * The second half of `handleSubmit`, once the store has answered: a success
     * shows the panel and schedules the reset; a failure leaves the form as it
     * is. Either way the form is no longer busy.
     */
    method FinishSubmit(insertOk: bool)
      requires Valid() && loading
      modifies this
      ensures Valid()
      ensures !loading && submitted == insertOk && formData == old(formData)
    {
      if insertOk {
        submitted := true;
      }
      loading := false;
    }

    /** The delayed reset after a success: the panel goes and the form is back to its defaults. */
    method ResetTimerFires()
      requires Valid() && submitted
      modifies this
      ensures Valid()
      ensures !submitted && formData == DefaultForm && loading == old(loading)
    {
      submitted := false;
      formData := DefaultForm;
    }

    /**
     * A whole submission from an idle form: the row sent is `SubmittedRecord`
     * of the form; after a success and the delay the form is the default one,
     * after a failure it is unchanged.
     */
    method SubmitAndSettle(insertOk: bool) returns (row: NewReport)
      requires Valid() && !submitted && !loading
      modifies this
      ensures Valid() && !loading && !submitted
      ensures row == SubmittedRecord(old(formData))
      ensures formData == if insertOk then DefaultForm else old(formData)
    {
      row := BeginSubmit();
      FinishSubmit(insertOk);
      if submitted {
        ResetTimerFires();
      }
    }
  }

  // ---------------------------------------------------------------------------
  // Badges

  const BadgeDefault: string := "bg-gray-100 text-gray-800"

  const CategoryColors: map<string, string> := map[
    "Plastic" := "bg-blue-100 text-blue-800",
    "Chemical" := "bg-purple-100 text-purple-800",
    "Oil" := "bg-gray-800 text-white",
    "Sewage" := "bg-brown-100 text-brown-800"
  ]

  const StatusColors: map<string, string> := map[
    "New" := "bg-yellow-100 text-yellow-800",
    "Verified" := "bg-green-100 text-green-800",
    "Resolved" := BadgeDefault
  ]

  /** `getCategoryColor`. */
  function CategoryColor(category: string): (c: string)
    ensures c == BadgeDefault <==> category !in {"Plastic", "Chemical", "Oil", "Sewage"}
    ensures category == "Plastic" <==> c == "bg-blue-100 text-blue-800"
    ensures category == "Chemical" <==> c == "bg-purple-100 text-purple-800"
    ensures category == "Oil" <==> c == "bg-gray-800 text-white"
    ensures category == "Sewage" <==> c == "bg-brown-100 text-brown-800"
  {
    LookupOr(CategoryColors, category, BadgeDefault)
  }

  /** `getStatusColor`: "Resolved" has its own entry, but it is the same gray as the default. */
  function StatusColor(status: string): (c: string)
    ensures status == "New" <==> c == "bg-yellow-100 text-yellow-800"
    ensures status == "Verified" <==> c == "bg-green-100 text-green-800"
    ensures c == BadgeDefault <==> status != "New" && status != "Verified"
  {
    LookupOr(StatusColors, status, BadgeDefault)
  }

  /** A resolved report cannot be told apart from one with an unknown status by its badge. */
  lemma ResolvedLooksUnknown(status: string)
    requires status !in StatusColors
    ensures StatusColor("Resolved") == StatusColor(status)
  {
  }
}
