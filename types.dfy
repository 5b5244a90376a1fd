/**
 * The records of the health tracker (types.ts), plus the wrappers the rest of
 * the model uses for absent values, outcomes of awaited calls and errors.
 *
 * TypeScript string unions that the program only ever reaches through an
 * unchecked `as` cast (sex, activity level, risk label, recommendation
 * category) are kept as the strings that are actually stored at run time.
 */
module Types {

  /** A value that may be absent: `null`/`undefined` in the source. */
  datatype Option<+T> = None | Some(value: T)

  /** What an awaited call settles to: its value, or a rejection the caller catches. */
  datatype Outcome<+T> = Success(value: T) | Failure

  /** A result carrying a typed error. */
  datatype Result<+T, +E> = Ok(value: T) | Err(error: E)

  /**
   * A JavaScript number as produced by `parseFloat`: a finite value or NaN.
   * Floating-point rounding is not modelled; a finite value is a real.
   */
  datatype Number = Num(value: real) | NaN

  /** `n > 0` in JavaScript: false for NaN. */
  predicate Positive(n: Number)
  {
    n.Num? && n.value > 0.0
  }

  /** JavaScript truthiness of a string that may be missing: null, undefined and "" are falsy. */
  predicate Truthy(s: Option<string>)
  {
    s.Some? && s.value != ""
  }

  datatype LifestyleFlags = LifestyleFlags(
    smoker: bool,
    alcohol: bool,
    activity_level: string)

  /** types.ts `Patient`; `username` and `password` are optional there. */
  datatype Patient = Patient(
    patient_id: string,
    name_alias: string,
    username: Option<string>,
    password: Option<string>,
    dob: string,
    sex: string,
    height_cm: Number,
    weight_kg: Number,
    baseline_BMI: Number,
    known_conditions: seq<string>,
    medications: seq<string>,
    family_history: seq<string>,
    lifestyle_flags: LifestyleFlags,
    food_pattern_summary: string)

  datatype FoodItem = FoodItem(food_name: string, qty: real, unit: string)

  datatype Meal = Meal(meal_type: string, items: seq<FoodItem>, timestamp: string)

  datatype Vitals = Vitals(
    bp_systolic: real,
    bp_diastolic: real,
    fasting_glucose: real,
    heart_rate: real)

  datatype DailyLog = DailyLog(
    log_id: string,
    patient_id: string,
    date: string,
    meals: seq<Meal>,
    vitals: Vitals,
    symptoms: seq<string>,
    sleep_hours: real)

  datatype Recommendation = Recommendation(title: string, description: string, category: string)

  /**
   * types.ts `PredictionResult` as the service hands it back: the response is
   * cast without checking `riskProbability` or `topContributors`, so either may
   * be missing at run time.
   */
  datatype PredictionResult = PredictionResult(
    disease: string,
    riskProbability: Option<real>,
    riskLabel: string,
    topContributors: Option<seq<string>>,
    recommendations: seq<Recommendation>)

  /** types.ts `AdHocPredictionData`: the predictor form, every entry kept as typed text. */
  datatype AdHocPredictionData = AdHocPredictionData(
    age: string,
    sex: string,
    height_cm: string,
    weight_kg: string,
    bp_systolic: string,
    bp_diastolic: string,
    fasting_glucose: string,
    known_conditions: string,
    family_history: string,
    symptoms: string,
    activity_level: string,
    smoker: bool,
    alcohol: bool,
    food_pattern_summary: string)

  /** What an input's onChange carries into a form record: `value` for text inputs and selects, `checked` for checkboxes. */
  datatype FormValue = Text(text: string) | Flag(checked: bool)

  /** The parts of a change event the form handlers read: `name`, `value`, `type === 'checkbox'`, `checked`. */
  datatype ChangeEvent<Field> = ChangeEvent(name: Field, value: string, isCheckbox: bool, checked: bool)

  /** handleChange's choice: `checked` for a checkbox, `value` otherwise. */
  function ValueOf<Field>(e: ChangeEvent<Field>): (v: FormValue)
    ensures e.isCheckbox ==> v == Flag(e.checked)
    ensures !e.isCheckbox ==> v == Text(e.value)
  {
    if e.isCheckbox then Flag(e.checked) else Text(e.value)
  }

  datatype Role = User | Bot

  /** A chat entry `{ role, text }` as the chat widget builds it. */
  datatype ChatMessage = ChatMessage(role: Role, text: string)
}
