/**
 * The patient profile card (components/PatientProfile.tsx): its own copy of
 * the age computation, the de-duplicated list of recent symptoms and the
 * activity-level labels.
 */
module PatientProfile {
  import opened Types
  import PredictionService

  /**
   * The component's own calculateAge: the same year difference, less one
   * before the birthday in the current year.
   */
  method CalculateAge(birth: PredictionService.Date, today: PredictionService.Date) returns (age: int)
    ensures PredictionService.IsAgeOn(birth, today, age)
  {
    age := today.year - birth.year;
    var m := today.month - birth.month;
    if m < 0 || (m == 0 && today.day < birth.day) {
      age := age - 1;
    }
  }

  /** Both copies of calculateAge compute the same age: the number of completed years is unique. */
  lemma {:induction false} AgeCopiesAgree(birth: PredictionService.Date, today: PredictionService.Date,
                                          profileAge: int, serviceAge: int)
    requires PredictionService.IsAgeOn(birth, today, profileAge)
    requires PredictionService.IsAgeOn(birth, today, serviceAge)
    ensures profileAge == serviceAge
  {
    PredictionService.AgeUnique(birth, today, profileAge, serviceAge);
  }

  predicate NoDuplicates(s: seq<string>)
  {
    forall i, j :: 0 <= i < j < |s| ==> s[i] != s[j]
  }

  /** The position of the first occurrence of `x` in `xs`. */
  function FirstIndex(xs: seq<string>, x: string): (k: nat)
    requires x in xs
    ensures k < |xs| && xs[k] == x && x !in xs[..k]
  {
    if xs[0] == x then 0 else 1 + FirstIndex(xs[1..], x)
  }

  /** Extending a sequence does not move the first occurrence of an element already present. */
  lemma {:induction false} FirstIndexInPrefix(xs: seq<string>, n: nat, y: string)
    requires n <= |xs| && y in xs[..n]
    ensures FirstIndex(xs, y) == FirstIndex(xs[..n], y)
  {
    var k := FirstIndex(xs[..n], y);
    assert xs[..n][..k] == xs[..k];
  }

  /**
   * `Array.from(new Set(xs))`: each element once, in the order of its first
   * occurrence in `xs`.
   */
  function Dedup(xs: seq<string>): (r: seq<string>)
    ensures forall x :: x in r <==> x in xs
    ensures NoDuplicates(r)
    ensures forall i, j :: 0 <= i < j < |r| ==> FirstIndex(xs, r[i]) < FirstIndex(xs, r[j])
  {
    if xs == [] then []
    else
      var init := xs[..|xs| - 1];
      var x := xs[|xs| - 1];
      var d := Dedup(init);
      assert xs == init + [x];
      assert forall i :: 0 <= i < |d| ==> FirstIndex(xs, d[i]) == FirstIndex(init, d[i]) by {
        forall i | 0 <= i < |d| ensures FirstIndex(xs, d[i]) == FirstIndex(init, d[i]) {
          FirstIndexInPrefix(xs, |xs| - 1, d[i]);
        }
      }
      if x in d then d
      else
        assert FirstIndex(xs, x) == |xs| - 1 by {
          assert x !in init;
        }
        d + [x]
  }

  /** `logs.flatMap(log => log.symptoms)`. */
  function Flatten(logs: seq<DailyLog>): (r: seq<string>)
    ensures forall s :: s in r <==> exists i :: 0 <= i < |logs| && s in logs[i].symptoms
  {
    if logs == [] then []
    else
      var init := logs[..|logs| - 1];
      assert forall i :: 0 <= i < |init| ==> init[i] == logs[i];
      Flatten(init) + logs[|logs| - 1].symptoms
  }

  /**
   * recentSymptoms: every symptom of every log, once each, ordered by first
   * occurrence scanning logs in order and symptoms within a log in order.
   * It is empty, and "None reported" is shown, exactly when no log has a symptom.
   */
  function RecentSymptoms(logs: seq<DailyLog>): (r: seq<string>)
    ensures forall s :: s in r <==> s in Flatten(logs)
    ensures forall s :: s in r <==> exists i :: 0 <= i < |logs| && s in logs[i].symptoms
    ensures NoDuplicates(r)
    ensures forall i, j :: 0 <= i < j < |r| ==> FirstIndex(Flatten(logs), r[i]) < FirstIndex(Flatten(logs), r[j])
    ensures r == [] <==> forall i :: 0 <= i < |logs| ==> logs[i].symptoms == []
  {
    var r := Dedup(Flatten(logs));
    assert r != [] ==> r[0] in r;
    assert (forall i :: 0 <= i < |logs| ==> logs[i].symptoms == []) ==> r == [];
    forall i | 0 <= i < |logs| && logs[i].symptoms != [] ensures r != [] {
      assert logs[i].symptoms[0] in r;
    }
    r
  }

  const ActivityLevels: set<string> := {"sedentary", "low", "moderate", "active"}

  /** activityLevelText: a label for each of the four levels, undefined for any other string. */
  function ActivityLabel(level: string): (shown: Option<string>)
    ensures shown.Some? <==> level in ActivityLevels
    ensures shown.Some? ==> shown.value != ""
  {
    if level == "sedentary" then Some("Sedentary")
    else if level == "low" then Some("Low Activity")
    else if level == "moderate" then Some("Moderate Activity")
    else if level == "active" then Some("Active")
    else None
  }
}
