/**
 * The prediction service (services/predictionService.ts): the calendar age of
 * a patient, the request parts sent to the language model and the
 * validation of its reply. The model call itself is an outcome supplied by
 * the caller; the prompt prose is reduced to the values interpolated into it.
 */
module PredictionService {
  import opened Types
  import opened Text

  /** A calendar date as read through getFullYear, getMonth and getDate. */
  datatype Date = Date(year: int, month: int, day: int)

  /** Chronological order on dates: year first, then month, then day. */
  predicate OnOrBefore(a: Date, b: Date)
  {
    a.year < b.year || (a.year == b.year && (a.month < b.month || (a.month == b.month && a.day <= b.day)))
  }

  /** The `n`-th anniversary of `birth`, as a (year, month, day) triple. */
  function Anniversary(birth: Date, n: int): Date
  {
    Date(birth.year + n, birth.month, birth.day)
  }

  /**
   * `age` is the number of completed years on `today`: the `age`-th
   * anniversary has been reached and the next one has not.
   */
  predicate IsAgeOn(birth: Date, today: Date, age: int)
  {
    OnOrBefore(Anniversary(birth, age), today) && !OnOrBefore(Anniversary(birth, age + 1), today)
  }

  /**
   * calculateAge: the year difference, less one when today's (month, day)
   * comes before the birth (month, day).
   */
  method CalculateAge(birth: Date, today: Date) returns (age: int)
    ensures IsAgeOn(birth, today, age)
    ensures today.month == birth.month && today.day == birth.day ==> age == today.year - birth.year
  {
    age := today.year - birth.year;
    var m := today.month - birth.month;
    if m < 0 || (m == 0 && today.day < birth.day) {
      age := age - 1;
    }
  }

  /** Anniversaries are ordered like the years they fall in. */
  lemma {:induction false} AnniversaryOrder(birth: Date, i: int, j: int)
    requires i < j
    ensures OnOrBefore(Anniversary(birth, i + 1), Anniversary(birth, j))
  {
  }

  /** The number of completed years on a given day is unique. */
  lemma {:induction false} AgeUnique(birth: Date, today: Date, a1: int, a2: int)
    requires IsAgeOn(birth, today, a1) && IsAgeOn(birth, today, a2)
    ensures a1 == a2
  {
    if a1 < a2 {
      AnniversaryOrder(birth, a1, a2);
    } else if a2 < a1 {
      AnniversaryOrder(birth, a2, a1);
    }
  }

  /** Age never decreases as today advances. */
  lemma {:induction false} AgeMonotone(birth: Date, t1: Date, t2: Date, a1: int, a2: int)
    requires OnOrBefore(t1, t2)
    requires IsAgeOn(birth, t1, a1) && IsAgeOn(birth, t2, a2)
    ensures a1 <= a2
  {
    if a2 < a1 {
      AnniversaryOrder(birth, a2, a1);
    }
  }

  /** A birth date on or before today gives a non-negative age. */
  lemma {:induction false} AgeNonNegative(birth: Date, today: Date, age: int)
    requires OnOrBefore(birth, today)
    requires IsAgeOn(birth, today, age)
    ensures age >= 0
  {
    if age < 0 {
      AnniversaryOrder(birth, age, 0);
    }
  }

  // ---------------------------------------------------------------------------
  // Reply validation (generatePrediction)

  /** What the model call returned: its reply text (possibly missing), or a rejected call. */
  datatype ServiceReply = Replied(text: Option<string>) | CallFailed

  /** The response object after JSON.parse, with each field possibly absent. */
  datatype RawPrediction = RawPrediction(
    disease: Option<string>,
    riskProbability: Option<real>,
    riskLabel: Option<string>,
    topContributors: Option<seq<string>>,
    recommendations: Option<seq<Recommendation>>)

  /** How generatePrediction fails: the call itself, or the reply not passing the check. */
  datatype PredictionError = ServiceError | ParseError

  const ParseErrorMessage := "Could not parse the prediction response from the AI."

  /** The check on a parsed reply: truthy disease and risk label, recommendations present. */
  predicate Acceptable(raw: RawPrediction)
  {
    Truthy(raw.disease) && Truthy(raw.riskLabel) && raw.recommendations.Some?
  }

  /**
   * generatePrediction after the call: a rejected call propagates as it is; a
   * missing text, a reply that does not parse as JSON after trimming, or a
   * parsed object failing the field check all become the one ParseError.
   */
  function GeneratePrediction(reply: ServiceReply, parseJson: string -> Option<RawPrediction>)
    : (r: Result<PredictionResult, PredictionError>)
    ensures reply.CallFailed? <==> r == Err(ServiceError)
    ensures r.Ok? <==>
      reply.Replied? && reply.text.Some? && parseJson(Trim(reply.text.value)).Some?
      && Acceptable(parseJson(Trim(reply.text.value)).value)
    ensures r.Ok? ==>
      var raw := parseJson(Trim(reply.text.value)).value;
      && r.value.disease == raw.disease.value && r.value.riskLabel == raw.riskLabel.value
      && r.value.recommendations == raw.recommendations.value
      && r.value.riskProbability == raw.riskProbability
      && r.value.topContributors == raw.topContributors
  {
    match reply
    case CallFailed => Err(ServiceError)
    case Replied(text) =>
      if text.None? then Err(ParseError)
      else
        match parseJson(Trim(text.value))
        case None => Err(ParseError)
        case Some(raw) =>
          if !Acceptable(raw) then Err(ParseError)
          else Ok(PredictionResult(raw.disease.value, raw.riskProbability, raw.riskLabel.value,
                                   raw.topContributors, raw.recommendations.value))
  }

  /** The fields marked required in the schema but not checked play no part in acceptance. */
  lemma UncheckedFieldsIgnored(raw: RawPrediction, p: Option<real>, t: Option<seq<string>>)
    ensures Acceptable(raw) == Acceptable(raw.(riskProbability := p, topContributors := t))
  {
  }

  // ---------------------------------------------------------------------------
  // Request parts (getAnalysisFromDocument, getAdHocPrediction)

  const DefaultQuery := "No specific query, please summarize the attached document."
  const NoneText := "None"
  const NotAvailable := "N/A"

  /** JavaScript `s || fallback` on a string. */
  function OrElse(s: string, fallback: string): (r: string)
    ensures r == (if s == "" then fallback else s)
    ensures fallback != "" ==> r != ""
  {
    if s == "" then fallback else s
  }

  /** The values interpolated into the document-analysis prompt. */
  datatype AnalysisPrompt = AnalysisPrompt(
    age: int,
    sex: string,
    bmi: Number,
    knownConditions: string,
    query: string)

  /** The values interpolated into the ad-hoc prediction prompt. */
  datatype AdHocPrompt = AdHocPrompt(
    age: string,
    sex: string,
    bmi: string,
    symptoms: string,
    knownConditions: string,
    familyHistory: string,
    fastingGlucose: string,
    bpSystolic: string,
    bpDiastolic: string,
    foodPattern: string,
    activityLevel: string,
    smoker: bool,
    alcohol: bool)

  datatype Prompt = Analysis(analysis: AnalysisPrompt) | AdHoc(adHoc: AdHocPrompt)

  /** One element of `contents.parts`: a text part or an inline file part. */
  datatype Part = TextPart(prompt: Prompt) | InlineDataPart(mimeType: string, data: Option<string>)

  /**
   * The `{ mimeType, data }` file argument. `data` is typed as a string but
   * is whatever the dashboard's base64 extraction produced, which is
   * `undefined` (None) for a data URL without a comma.
   */
  datatype FileData = FileData(mimeType: string, data: Option<string>)

  /**
   * The parts of a document-analysis request: a text part with the patient's
   * age, sex, BMI, conditions and query, then exactly one inline part carrying
   * the file unchanged when and only when a file is given.
   */
  predicate IsAnalysisRequest(parts: seq<Part>, patient: Patient, manualInput: string,
                              file: Option<FileData>, birth: Date, today: Date)
  {
    && |parts| == (if file.Some? then 2 else 1)
    && parts[0].TextPart? && parts[0].prompt.Analysis?
    && var p := parts[0].prompt.analysis;
    && IsAgeOn(birth, today, p.age)
    && p.sex == patient.sex
    && p.bmi == patient.baseline_BMI
    && p.knownConditions == OrElse(Join(patient.known_conditions, ", "), NoneText)
    && p.query == OrElse(manualInput, DefaultQuery)
    && (file.Some? ==> parts[1] == InlineDataPart(file.value.mimeType, file.value.data))
  }

  /**
   * getAnalysisFromDocument up to the call: the prompt parts, built by
   * pushing onto a one-element array. `parseDate` stands for `new Date(dob)`.
   */
  method AnalysisParts(patient: Patient, manualInput: string, file: Option<FileData>,
                       parseDate: string -> Date, today: Date) returns (parts: seq<Part>)
    ensures IsAnalysisRequest(parts, patient, manualInput, file, parseDate(patient.dob), today)
    ensures manualInput == "" ==> parts[0].prompt.analysis.query == DefaultQuery
    ensures patient.known_conditions == [] ==> parts[0].prompt.analysis.knownConditions == NoneText
  {
    var age := CalculateAge(parseDate(patient.dob), today);
    var prompt := AnalysisPrompt(age, patient.sex, patient.baseline_BMI,
                                 OrElse(Join(patient.known_conditions, ", "), NoneText),
                                 OrElse(manualInput, DefaultQuery));
    parts := [TextPart(Analysis(prompt))];
    if file.Some? {
      parts := parts + [InlineDataPart(file.value.mimeType, file.value.data)];
    }
  }

  /** `parseFloat(h) / 100`: centimetres to metres, NaN staying NaN. */
  function Metres(cm: Number): (m: Number)
    ensures Positive(m) <==> Positive(cm)
  {
    match cm
    case NaN => NaN
    case Num(v) => Num(v / 100.0)
  }

  /**
   * The BMI text of the ad-hoc prompt: the formatted value when height and
   * weight are both positive, "N/A" otherwise. The floating-point division and
   * `toFixed(1)` are the `formatBmi` parameter, applied to metres and kilograms.
   */
  function AdHocBmi(data: AdHocPredictionData, parseFloat: string -> Number,
                    formatBmi: (real, real) -> string): (bmi: string)
    ensures Positive(parseFloat(data.height_cm)) && Positive(parseFloat(data.weight_kg)) ==>
      bmi == formatBmi(parseFloat(data.height_cm).value / 100.0, parseFloat(data.weight_kg).value)
    ensures !(Positive(parseFloat(data.height_cm)) && Positive(parseFloat(data.weight_kg))) ==>
      bmi == NotAvailable
  {
    var heightM := Metres(parseFloat(data.height_cm));
    var weightKg := parseFloat(data.weight_kg);
    if Positive(heightM) && Positive(weightKg) then formatBmi(heightM.value, weightKg.value) else NotAvailable
  }

  /**
   * getAdHocPrediction up to the call: a single text part; empty symptoms,
   * conditions and family history read "None"; everything else is the form's text.
   */
  function AdHocParts(data: AdHocPredictionData, parseFloat: string -> Number,
                      formatBmi: (real, real) -> string): (parts: seq<Part>)
    ensures |parts| == 1 && parts[0].TextPart? && parts[0].prompt.AdHoc?
    ensures var p := parts[0].prompt.adHoc;
      && p.bmi == AdHocBmi(data, parseFloat, formatBmi)
      && p.symptoms == OrElse(data.symptoms, NoneText)
      && p.knownConditions == OrElse(data.known_conditions, NoneText)
      && p.familyHistory == OrElse(data.family_history, NoneText)
      && p.age == data.age && p.sex == data.sex
      && p.fastingGlucose == data.fasting_glucose
      && p.bpSystolic == data.bp_systolic && p.bpDiastolic == data.bp_diastolic
      && p.foodPattern == data.food_pattern_summary && p.activityLevel == data.activity_level
      && p.smoker == data.smoker && p.alcohol == data.alcohol
  {
    [TextPart(AdHoc(AdHocPrompt(
      data.age, data.sex, AdHocBmi(data, parseFloat, formatBmi),
      OrElse(data.symptoms, NoneText), OrElse(data.known_conditions, NoneText),
      OrElse(data.family_history, NoneText),
      data.fasting_glucose, data.bp_systolic, data.bp_diastolic,
      data.food_pattern_summary, data.activity_level, data.smoker, data.alcohol)))]
  }
}
