/**
 * The sign-up page (components/SignUp.tsx): a form record updated field by
 * field, the comma-separated list fields turned into lists, and the new
 * patient record handed to the application on submit.
 */
module SignUp {
  import opened Types
  import opened Text

  /** The sign-up form; every entry is kept as typed text except the two checkboxes. */
  datatype SignUpForm = SignUpForm(
    username: string,
    password: string,
    name_alias: string,
    dob: string,
    sex: string,
    height_cm: string,
    weight_kg: string,
    known_conditions: string,
    medications: string,
    family_history: string,
    smoker: bool,
    alcohol: bool,
    activity_level: string,
    food_pattern_summary: string)

  /** The form's starting values. */
  const InitialForm := SignUpForm(
    "johndoe", "password123", "John Doe", "1990-01-01", "M", "180", "85",
    "None", "None", "None", false, true, "moderate", "Balanced diet, occasionally eats out.")

  /** The keys of the form record, as the `name` of an input. */
  datatype Field =
    | Username | Password | NameAlias | Dob | Sex | HeightCm | WeightKg
    | KnownConditions | Medications | FamilyHistory | Smoker | Alcohol
    | ActivityLevel | FoodPatternSummary
  {
    predicate IsFlag()
    {
      this == Smoker || this == Alcohol
    }
  }

  /** `formData[name]`. */
  function Get(d: SignUpForm, f: Field): (v: FormValue)
    ensures v.Flag? <==> f.IsFlag()
  {
    match f
    case Username => Text(d.username)
    case Password => Text(d.password)
    case NameAlias => Text(d.name_alias)
    case Dob => Text(d.dob)
    case Sex => Text(d.sex)
    case HeightCm => Text(d.height_cm)
    case WeightKg => Text(d.weight_kg)
    case KnownConditions => Text(d.known_conditions)
    case Medications => Text(d.medications)
    case FamilyHistory => Text(d.family_history)
    case Smoker => Flag(d.smoker)
    case Alcohol => Flag(d.alcohol)
    case ActivityLevel => Text(d.activity_level)
    case FoodPatternSummary => Text(d.food_pattern_summary)
  }

  /** `{ ...d, [f]: v }`: the named field takes the new value and every other field keeps its own. */
  function Set(d: SignUpForm, f: Field, v: FormValue): (r: SignUpForm)
    requires v.Flag? <==> f.IsFlag()
    ensures Get(r, f) == v
    ensures forall g :: g != f ==> Get(r, g) == Get(d, g)
  {
    match f
    case Username => d.(username := v.text)
    case Password => d.(password := v.text)
    case NameAlias => d.(name_alias := v.text)
    case Dob => d.(dob := v.text)
    case Sex => d.(sex := v.text)
    case HeightCm => d.(height_cm := v.text)
    case WeightKg => d.(weight_kg := v.text)
    case KnownConditions => d.(known_conditions := v.text)
    case Medications => d.(medications := v.text)
    case FamilyHistory => d.(family_history := v.text)
    case Smoker => d.(smoker := v.checked)
    case Alcohol => d.(alcohol := v.checked)
    case ActivityLevel => d.(activity_level := v.text)
    case FoodPatternSummary => d.(food_pattern_summary := v.text)
  }

  /** What a list entry of a patient looks like: non-empty, no comma, no surrounding whitespace. */
  predicate IsListItem(x: string)
  {
    x != [] && ',' !in x && !IsWhitespace(x[0]) && !IsWhitespace(x[|x| - 1])
  }

  /** `.filter(Boolean)` on strings: the empty strings are dropped, the rest kept in order. */
  function DropEmpty(xs: seq<string>): (r: seq<string>)
    ensures forall x :: x in r <==> x in xs && x != ""
    ensures |r| <= |xs|
    ensures (forall i :: 0 <= i < |xs| ==> xs[i] != "") ==> r == xs
  {
    if xs == [] then []
    else if xs[0] == "" then DropEmpty(xs[1..])
    else [xs[0]] + DropEmpty(xs[1..])
  }

  /** Filtering works piecewise, so it keeps the order of what it keeps. */
  lemma {:induction false} DropEmptyAppend(a: seq<string>, b: seq<string>)
    ensures DropEmpty(a + b) == DropEmpty(a) + DropEmpty(b)
  {
    if a == [] {
      assert a + b == b;
    } else {
      assert (a + b)[0] == a[0] && (a + b)[1..] == a[1..] + b;
      DropEmptyAppend(a[1..], b);
    }
  }

  /** A string without `c` trims to a string without `c`. */
  lemma TrimKeepsOut(s: string, c: char)
    requires c !in s
    ensures c !in Trim(s)
  {
    var r := Trim(s);
    var i, j :| 0 <= i <= j <= |s| && r == s[i..j] && AllWhitespace(s[..i]) && AllWhitespace(s[j..]);
    SliceKeepsOut(s, i, j, c);
  }

  lemma SliceKeepsOut(s: string, i: nat, j: nat, c: char)
    requires i <= j <= |s| && c !in s
    ensures c !in s[i..j]
  {
    forall k | 0 <= k < j - i ensures s[i..j][k] != c {
      assert s[i..j][k] == s[i + k];
    }
  }

  /** `.map(s => s.trim())`: each piece trimmed, in place. */
  function TrimEach(xs: seq<string>): (r: seq<string>)
    ensures |r| == |xs|
    ensures forall i :: 0 <= i < |xs| ==> r[i] == Trim(xs[i])
  {
    if xs == [] then [] else [Trim(xs[0])] + TrimEach(xs[1..])
  }

  /** Pieces without commas trim to empty strings or proper list items. */
  lemma TrimmedPieces(pieces: seq<string>)
    requires forall i :: 0 <= i < |pieces| ==> ',' !in pieces[i]
    ensures forall x :: x in TrimEach(pieces) ==> x == "" || IsListItem(x)
  {
    var r := TrimEach(pieces);
    forall i | 0 <= i < |r| ensures r[i] == "" || IsListItem(r[i]) {
      TrimKeepsOut(pieces[i], ',');
    }
  }

  /** `s.split(',').map(s => s.trim()).filter(Boolean)`: the comma-separated pieces, trimmed, without the empty ones. */
  function NormalizeList(s: string): seq<string>
  {
    DropEmpty(TrimEach(Split(s, ',')))
  }

  /** Every entry of a normalised list is a proper list item. */
  lemma NormalizeListItems(s: string)
    ensures forall i :: 0 <= i < |NormalizeList(s)| ==> IsListItem(NormalizeList(s)[i])
  {
    var pieces := Split(s, ',');
    var trimmed := TrimEach(pieces);
    TrimmedPieces(pieces);
    var items := DropEmpty(trimmed);
    forall i | 0 <= i < |items| ensures IsListItem(items[i]) {
      assert items[i] in trimmed;
    }
  }

  /** A text without commas gives its trimmed self, or nothing when it is blank. */
  lemma {:induction false} NormalizeSingle(s: string)
    requires ',' !in s
    ensures NormalizeList(s) == (if AllWhitespace(s) then [] else [Trim(s)])
  {
    SplitWithoutSeparator(s, ',');
    assert TrimEach([s]) == [Trim(s)];
  }

  /** Proper list items joined with commas normalise back to the same list. */
  lemma {:induction false} NormalizeJoin(items: seq<string>)
    requires forall i :: 0 <= i < |items| ==> IsListItem(items[i])
    ensures NormalizeList(Join(items, ",")) == items
  {
    if items == [] {
      assert Join(items, ",") == "";
      SplitWithoutSeparator("", ',');
      assert TrimEach([""]) == [Trim("")];
    } else {
      SplitJoin(items, ',');
      var trimmed := TrimEach(items);
      forall i | 0 <= i < |items| ensures trimmed[i] == items[i] {
        TrimOfTrimmed(items[i]);
      }
      assert trimmed == items;
    }
  }

  /** Trimming works piecewise. */
  lemma {:induction false} TrimEachAppend(a: seq<string>, b: seq<string>)
    ensures TrimEach(a + b) == TrimEach(a) + TrimEach(b)
  {
    if a == [] {
      assert a + b == b;
    } else {
      assert (a + b)[0] == a[0] && (a + b)[1..] == a[1..] + b;
      TrimEachAppend(a[1..], b);
    }
  }

  /**
   * Normalising text joined at a comma gives the two normalised lists one
   * after the other: entries keep their left-to-right order.
   */
  lemma {:induction false} NormalizeConcat(a: string, b: string)
    ensures NormalizeList(a + "," + b) == NormalizeList(a) + NormalizeList(b)
  {
    var pa, pb := Split(a, ','), Split(b, ',');
    JoinAppend(pa, pb, ",");
    assert Join(pa + pb, ",") == a + "," + b;
    forall i | 0 <= i < |pa + pb| ensures ',' !in (pa + pb)[i] {
      if i < |pa| {
        assert (pa + pb)[i] == pa[i];
      } else {
        assert (pa + pb)[i] == pb[i - |pa|];
      }
    }
    SplitJoin(pa + pb, ',');
    TrimEachAppend(pa, pb);
    DropEmptyAppend(TrimEach(pa), TrimEach(pb));
  }

  /** Normalising is idempotent through the comma-joined text. */
  lemma NormalizeStable(s: string)
    ensures NormalizeList(Join(NormalizeList(s), ",")) == NormalizeList(s)
  {
    NormalizeListItems(s);
    NormalizeJoin(NormalizeList(s));
  }

  /**
   * The patient built by handleSubmit. `id` is the clock-derived suffix of
   * the patient id; `parseFloat` and `roundedBmi` (the one-decimal rounding of
   * weight over height in metres squared) stand for the floating-point parts.
   */
  function NewPatient(form: SignUpForm, id: string, parseFloat: string -> Number,
                      roundedBmi: (Number, Number) -> Number): (p: Patient)
    ensures p.patient_id == "user_" + id
    ensures p.username == Some(form.username) && p.password == Some(form.password)
    ensures p.name_alias == form.name_alias && p.dob == form.dob && p.sex == form.sex
    ensures p.height_cm == parseFloat(form.height_cm) && p.weight_kg == parseFloat(form.weight_kg)
    ensures p.baseline_BMI == roundedBmi(p.height_cm, p.weight_kg)
    ensures p.known_conditions == NormalizeList(form.known_conditions)
    ensures p.medications == NormalizeList(form.medications)
    ensures p.family_history == NormalizeList(form.family_history)
    ensures p.lifestyle_flags == LifestyleFlags(form.smoker, form.alcohol, form.activity_level)
    ensures p.food_pattern_summary == form.food_pattern_summary
  {
    var height := parseFloat(form.height_cm);
    var weight := parseFloat(form.weight_kg);
    Patient(
      "user_" + id, form.name_alias, Some(form.username), Some(form.password), form.dob, form.sex,
      height, weight, roundedBmi(height, weight),
      NormalizeList(form.known_conditions), NormalizeList(form.medications),
      NormalizeList(form.family_history),
      LifestyleFlags(form.smoker, form.alcohol, form.activity_level),
      form.food_pattern_summary)
  }

  /** Every list of a newly signed-up patient holds proper items only. */
  lemma NewPatientListsAreClean(form: SignUpForm, id: string, parseFloat: string -> Number,
                                roundedBmi: (Number, Number) -> Number)
    ensures var p := NewPatient(form, id, parseFloat, roundedBmi);
      && (forall i :: 0 <= i < |p.known_conditions| ==> IsListItem(p.known_conditions[i]))
      && (forall i :: 0 <= i < |p.medications| ==> IsListItem(p.medications[i]))
      && (forall i :: 0 <= i < |p.family_history| ==> IsListItem(p.family_history[i]))
  {
    NormalizeListItems(form.known_conditions);
    NormalizeListItems(form.medications);
    NormalizeListItems(form.family_history);
  }

  /** The starting text "None" normalises to the one-entry list ["None"]. */
  lemma {:induction false} NoneNormalizes()
    ensures NormalizeList("None") == ["None"]
  {
    var none := "None";
    assert ',' !in none;
    assert !IsWhitespace(none[0]) && !IsWhitespace(none[|none| - 1]);
    assert !AllWhitespace(none);
    TrimOfTrimmed(none);
    NormalizeSingle(none);
  }

  /**
   * The page renders no inputs for the three lists, so a patient signed up
   * from the starting form lists the single entry "None" in each.
   */
  lemma UntouchedListsAreNone(form: SignUpForm, id: string, parseFloat: string -> Number,
                              roundedBmi: (Number, Number) -> Number)
    requires form.known_conditions == InitialForm.known_conditions
    requires form.medications == InitialForm.medications
    requires form.family_history == InitialForm.family_history
    ensures var p := NewPatient(form, id, parseFloat, roundedBmi);
      p.known_conditions == ["None"] && p.medications == ["None"] && p.family_history == ["None"]
  {
    NoneNormalizes();
  }

  class SignUpPage {
    var formData: SignUpForm

    constructor ()
      ensures formData == InitialForm
    {
      formData := InitialForm;
    }

    /**
     * handleChange: the named field becomes `checked` for a checkbox and
     * `value` otherwise; every other field is unchanged.
     */
    method HandleChange(e: ChangeEvent<Field>)
      requires e.isCheckbox <==> e.name.IsFlag()
      modifies this
      ensures Get(formData, e.name) == ValueOf(e)
      ensures forall g :: g != e.name ==> Get(formData, g) == Get(old(formData), g)
    {
      formData := Set(formData, e.name, ValueOf(e));
    }

    /** handleSubmit: the new patient built from the current form, which is left as it is. */
    method HandleSubmit(id: string, parseFloat: string -> Number, roundedBmi: (Number, Number) -> Number)
      returns (patient: Patient)
      ensures patient == NewPatient(formData, id, parseFloat, roundedBmi)
    {
      patient := NewPatient(formData, id, parseFloat, roundedBmi);
    }
  }
}
