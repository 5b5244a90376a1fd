/**
 * The ad-hoc risk predictor page (components/Predictor.tsx): a form record
 * updated field by field, the BMI preview, and the request/response state
 * around the prediction call, whose outcome is supplied to the second half
 * of the submit handler.
 */
module Predictor {
  import opened Types
  import PredictionService

  const PredictionErrorMessage := "Failed to get a prediction from the AI. Please check your API key and try again."

  /** The `name` of each input of the form. */
  datatype Field =
    | Age | Sex | HeightCm | WeightKg | BpSystolic | BpDiastolic | FastingGlucose
    | KnownConditions | FamilyHistory | Symptoms | ActivityLevel | Smoker | Alcohol
    | FoodPatternSummary
  {
    /** The fields rendered as checkboxes. */
    predicate IsFlag()
    {
      this == Smoker || this == Alcohol
    }
  }

  /** The form's starting values. */
  const InitialForm := AdHocPredictionData(
    "45", "M", "170", "82", "130", "85", "115", "Prediabetes", "Diabetes",
    "Occasional fatigue, frequent thirst", "low", false, true,
    "Heavy rice-based dinners, frequent sweets")

  /** `formData[name]`. */
  function Get(d: AdHocPredictionData, f: Field): (v: FormValue)
    ensures v.Flag? <==> f.IsFlag()
  {
    match f
    case Age => Text(d.age)
    case Sex => Text(d.sex)
    case HeightCm => Text(d.height_cm)
    case WeightKg => Text(d.weight_kg)
    case BpSystolic => Text(d.bp_systolic)
    case BpDiastolic => Text(d.bp_diastolic)
    case FastingGlucose => Text(d.fasting_glucose)
    case KnownConditions => Text(d.known_conditions)
    case FamilyHistory => Text(d.family_history)
    case Symptoms => Text(d.symptoms)
    case ActivityLevel => Text(d.activity_level)
    case Smoker => Flag(d.smoker)
    case Alcohol => Flag(d.alcohol)
    case FoodPatternSummary => Text(d.food_pattern_summary)
  }

  /** `{ ...d, [f]: v }`: the named field takes the new value and every other field keeps its own. */
  function Set(d: AdHocPredictionData, f: Field, v: FormValue): (r: AdHocPredictionData)
    requires v.Flag? <==> f.IsFlag()
    ensures Get(r, f) == v
    ensures forall g :: g != f ==> Get(r, g) == Get(d, g)
  {
    match f
    case Age => d.(age := v.text)
    case Sex => d.(sex := v.text)
    case HeightCm => d.(height_cm := v.text)
    case WeightKg => d.(weight_kg := v.text)
    case BpSystolic => d.(bp_systolic := v.text)
    case BpDiastolic => d.(bp_diastolic := v.text)
    case FastingGlucose => d.(fasting_glucose := v.text)
    case KnownConditions => d.(known_conditions := v.text)
    case FamilyHistory => d.(family_history := v.text)
    case Symptoms => d.(symptoms := v.text)
    case ActivityLevel => d.(activity_level := v.text)
    case Smoker => d.(smoker := v.checked)
    case Alcohol => d.(alcohol := v.checked)
    case FoodPatternSummary => d.(food_pattern_summary := v.text)
  }

  /**
   * The BMI preview: shown exactly when the parsed height and weight are both
   * positive, and then it is the value the ad-hoc request carries.
   */
  function ShownBmi(d: AdHocPredictionData, parseFloat: string -> Number,
                    formatBmi: (real, real) -> string): (bmi: Option<string>)
    ensures bmi.Some? <==> Positive(parseFloat(d.height_cm)) && Positive(parseFloat(d.weight_kg))
    ensures bmi.Some? ==> bmi.value == PredictionService.AdHocBmi(d, parseFloat, formatBmi)
    ensures bmi.None? ==> PredictionService.AdHocBmi(d, parseFloat, formatBmi) == PredictionService.NotAvailable
  {
    var h := parseFloat(d.height_cm);
    var w := parseFloat(d.weight_kg);
    if Positive(h) && Positive(w) then Some(formatBmi(h.value / 100.0, w.value)) else None
  }

  class PredictorPage {
    var formData: AdHocPredictionData
    var prediction: Option<PredictionResult>
    var isLoading: bool
    var error: Option<string>

    constructor ()
      ensures formData == InitialForm && prediction == None && !isLoading && error == None
    {
      formData := InitialForm;
      prediction := None;
      isLoading := false;
      error := None;
    }

    /**
     * handleChange: the named field becomes `checked` for a checkbox and
     * `value` otherwise; every other field is unchanged. The rendered form
     * uses checkboxes for exactly the two flag fields.
     */
    method HandleChange(e: ChangeEvent<Field>)
      requires e.isCheckbox <==> e.name.IsFlag()
      modifies this`formData
      ensures Get(formData, e.name) == ValueOf(e)
      ensures forall g :: g != e.name ==> Get(formData, g) == Get(old(formData), g)
    {
      formData := Set(formData, e.name, ValueOf(e));
    }

    /** handleSubmit up to its await: loading starts, error and prediction are cleared; the form is the request. */
    method BeginSubmit() returns (request: AdHocPredictionData)
      modifies this
      ensures isLoading && error == None && prediction == None
      ensures request == formData && formData == old(formData)
    {
      isLoading := true;
      error := None;
      prediction := None;
      request := formData;
    }

    /** handleSubmit after its await: the result on success, the fixed message on failure; loading ends. */
    method FinishSubmit(outcome: Outcome<PredictionResult>)
      modifies this
      ensures !isLoading && formData == old(formData)
      ensures outcome.Success? ==> prediction == Some(outcome.value) && error == old(error)
      ensures outcome.Failure? ==> error == Some(PredictionErrorMessage) && prediction == old(prediction)
    {
      match outcome {
        case Success(result) => prediction := Some(result);
        case Failure => error := Some(PredictionErrorMessage);
      }
      isLoading := false;
    }

    /**
     * The whole submit, run to completion: the request sent is the single text
     * part built from the form, and the page ends with exactly one of a
     * prediction or the error message, not loading.
     */
    method HandleSubmit(reply: PredictionService.ServiceReply,
                        parseJson: string -> Option<PredictionService.RawPrediction>,
                        parseFloat: string -> Number, formatBmi: (real, real) -> string)
      returns (parts: seq<PredictionService.Part>)
      modifies this
      ensures parts == PredictionService.AdHocParts(old(formData), parseFloat, formatBmi)
      ensures !isLoading && formData == old(formData)
      ensures PredictionService.GeneratePrediction(reply, parseJson).Ok? ==>
        prediction == Some(PredictionService.GeneratePrediction(reply, parseJson).value) && error == None
      ensures PredictionService.GeneratePrediction(reply, parseJson).Err? ==>
        prediction == None && error == Some(PredictionErrorMessage)
    {
      var data := BeginSubmit();
      parts := PredictionService.AdHocParts(data, parseFloat, formatBmi);
      var outcome := match PredictionService.GeneratePrediction(reply, parseJson)
        case Ok(result) => Success(result)
        case Err(_) => Failure;
      FinishSubmit(outcome);
    }

    /** The submit button is disabled while loading. */
    predicate SubmitDisabled()
      reads this
    {
      isLoading
    }
  }
}
