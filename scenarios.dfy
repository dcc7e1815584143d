/** The twenty preset scenarios and `load_scenario`, which copies a preset
    into the form's session state so that the form shows it. */
module Scenarios {
  import opened Strings
  import Validation

  datatype Option<T> = None | Some(value: T)

  /** One entry of the `presets` table. */
  datatype Preset = Preset(metricType: string, distribution: string, variance: string,
                           paths: int, samples: int, description: string, expectedTest: string)

  /** The `presets` table, keyed by scenario number. */
  const Presets: map<int, Preset> := map[
    1 := Preset("Continuous", "Normal", "Equal", 2, 1000, "t-test", "t-test"),
    2 := Preset("Continuous", "Normal", "Unequal", 2, 1000, "Welch's t-test", "Welch's t-test"),
    3 := Preset("Continuous", "Skewed", "Equal", 2, 1000, "Mann-Whitney", "Mann-Whitney"),
    4 := Preset("Continuous", "Skewed", "Unequal", 2, 1000, "Mann-Whitney", "Mann-Whitney"),
    5 := Preset("Continuous", "Normal", "Equal", 4, 1000, "ANOVA", "ANOVA"),
    6 := Preset("Continuous", "Normal", "Unequal", 4, 1000, "Welch's ANOVA", "Welch's ANOVA"),
    7 := Preset("Continuous", "Skewed", "Equal", 4, 1000, "Kruskal-Wallis", "Kruskal-Wallis"),
    8 := Preset("Continuous", "Skewed", "Unequal", 4, 1000, "Kruskal-Wallis", "Kruskal-Wallis"),
    9 := Preset("Proportion", "Binary", "-", 2, 1000, "Two-Proportion Z-Test", "Two-Proportion Z-Test"),
    10 := Preset("Proportion", "Binary", "-", 4, 1000, "Chi-Square", "Chi-Square"),
    11 := Preset("Categorical", "Uniform", "-", 2, 1000, "Chi-Square", "Chi-Square"),
    12 := Preset("Categorical", "Uniform", "-", 4, 1000, "Chi-Square", "Chi-Square"),
    13 := Preset("Continuous", "Normal", "Equal", 2, 1000, "t-test (duplicate)", "t-test (duplicate)"),
    14 := Preset("Continuous", "Skewed", "Unequal", 2, 1000, "Mann-Whitney (duplicate)",
                 "Mann-Whitney (duplicate)"),
    15 := Preset("Proportion", "Binary", "-", 2, 1000, "Two-Proportion Z-Test (duplicate)",
                 "Two-Proportion Z-Test (duplicate)"),
    16 := Preset("Proportion", "Binary", "-", 4, 1000, "Chi-Square (duplicate)", "Chi-Square (duplicate)"),
    17 := Preset("Continuous", "Normal", "Equal", 4, 1000, "ANOVA (confirm variance handling)",
                 "ANOVA (confirm variance handling)"),
    18 := Preset("Continuous", "Skewed", "Unequal", 4, 1000, "Kruskal-Wallis (reconfirm skew+variance)",
                 "Kruskal-Wallis (reconfirm skew+variance)"),
    19 := Preset("Proportion", "Binary", "-", 4, 1000, "Chi-Square (retest large groups)",
                 "Chi-Square (retest large groups)"),
    20 := Preset("Categorical", "Uniform", "-", 4, 1000, "Chi-Square (multi-level categorical)",
                 "Chi-Square (multi-level categorical)")
  ]

  /** The scenario numbers are 1 to 20. */
  lemma ScenarioNumbers(n: int)
    ensures n in Presets <==> 1 <= n <= 20
  {
  }

  /** Every preset asks for two or four groups of 1000 records; its metric
      type is one the form offers, and a continuous preset names a shape and
      a variance condition the form offers while the others leave the
      variance as "-". */
  lemma PresetsWellFormed(n: int)
    requires n in Presets
    ensures Presets[n].paths == 2 || Presets[n].paths == 4
    ensures Presets[n].samples == 1000
    ensures Presets[n].metricType in MetricTypes
    ensures Presets[n].metricType == "Continuous" ==>
              Presets[n].distribution in Shapes && Presets[n].variance in VarianceConditions
    ensures Presets[n].metricType != "Continuous" ==> Presets[n].variance == "-"
  {
    ScenarioNumbers(n);
  }

  /** The choices the form's select boxes offer. */
  const PathChoices: seq<int> := [2, 4]
  const MetricTypes: seq<string> := ["Continuous", "Proportion", "Categorical"]
  const Shapes: seq<string> := ["Normal", "Skewed"]
  const VarianceConditions: seq<string> := ["Equal", "Unequal"]

  /** The form fields kept in the session state. */
  datatype Settings = Settings(
    currentScenario: Option<int>,
    numPaths: int,
    metricType: string,
    sampleSizePerPath: int,
    fileName: string,
    distributionShape: string,
    varianceCondition: string)

  /** The values the form falls back to when the session holds none, and no
      scenario loaded. */
  const InitialSettings: Settings :=
    Settings(None, 2, "Continuous", 1000, "test inputs/synthetic_data.csv", "Normal", "Equal")

  /** A session state the form can show: each select box finds its stored
      value among its choices, the sample size is within the number input's
      bounds, and a loaded scenario is one of the presets (the sidebar looks
      it up). */
  predicate WellFormed(s: Settings) {
    s.numPaths in PathChoices && s.metricType in MetricTypes &&
    s.distributionShape in Shapes && s.varianceCondition in VarianceConditions &&
    1 <= s.sampleSizePerPath <= 10000 &&
    (s.currentScenario.Some? ==> s.currentScenario.value in Presets)
  }

  /** The output file of scenario `n`: `test inputs/scenario{n}.csv`. */
  function ScenarioFileName(n: nat): string {
    "test inputs/scenario" + DecimalString(n) + ".csv"
  }

  /** What `load_scenario(n)` makes of the session state `s`: for a known
      scenario its number, group count, metric type, sample size and file
      name, and for a continuous one also its shape and variance condition;
      an unknown number changes nothing. */
  function ApplyScenario(s: Settings, n: int): (r: Settings)
    ensures n in Presets ==>
              r.currentScenario == Some(n) && r.numPaths == Presets[n].paths &&
              r.metricType == Presets[n].metricType && r.sampleSizePerPath == Presets[n].samples &&
              r.fileName == ScenarioFileName(n)
    ensures n in Presets && Presets[n].metricType == "Continuous" ==>
              r.distributionShape == Presets[n].distribution && r.varianceCondition == Presets[n].variance
    ensures n !in Presets || Presets[n].metricType != "Continuous" ==>
              r.distributionShape == s.distributionShape && r.varianceCondition == s.varianceCondition
  {
    if n in Presets then
      var p := Presets[n];
      var loaded := s.(currentScenario := Some(n), numPaths := p.paths, metricType := p.metricType,
                       sampleSizePerPath := p.samples, fileName := ScenarioFileName(n));
      if p.metricType == "Continuous" then
        loaded.(distributionShape := p.distribution, varianceCondition := p.variance)
      else loaded
    else s
  }

  /** A number that is not a scenario leaves the session state as it was. */
  lemma UnknownScenarioChangesNothing(s: Settings, n: int)
    requires n !in Presets
    ensures ApplyScenario(s, n) == s
  {
  }

  /** Loading the same scenario twice is the same as loading it once. */
  lemma ApplyScenarioIdempotent(s: Settings, n: int)
    ensures ApplyScenario(ApplyScenario(s, n), n) == ApplyScenario(s, n)
  {
  }

  /** Loading a continuous scenario sets every field, so the result does not
      depend on what the session held before. */
  lemma ContinuousScenarioOverwritesAll(s: Settings, t: Settings, n: int)
    requires n in Presets && Presets[n].metricType == "Continuous"
    ensures ApplyScenario(s, n) == ApplyScenario(t, n)
  {
  }

  /** Loading a proportion or categorical scenario keeps the shape and
      variance condition the session held, and sets every other field the
      same way whatever the session held. */
  lemma NonContinuousKeepsShape(s: Settings, t: Settings, n: int)
    requires n in Presets && Presets[n].metricType != "Continuous"
    ensures ApplyScenario(s, n).distributionShape == s.distributionShape
    ensures ApplyScenario(s, n).varianceCondition == s.varianceCondition
    ensures ApplyScenario(s, n).(distributionShape := t.distributionShape, varianceCondition := t.varianceCondition)
            == ApplyScenario(t, n)
  {
  }

  /** Loading any number keeps a session state the form can show. */
  lemma ApplyScenarioKeepsWellFormed(s: Settings, n: int)
    requires WellFormed(s)
    ensures WellFormed(ApplyScenario(s, n))
  {
    if n in Presets {
      PresetsWellFormed(n);
    }
  }

  /** The fallback values form a session state the form can show. */
  lemma InitialSettingsWellFormed()
    ensures WellFormed(InitialSettings)
  {
  }

  /** Different scenarios write to different files. */
  lemma ScenarioFileNameInjective(m: nat, n: nat)
    requires ScenarioFileName(m) == ScenarioFileName(n)
    ensures m == n
  {
    var prefix := "test inputs/scenario";
    var dm, dn := DecimalString(m), DecimalString(n);
    assert ScenarioFileName(m) == prefix + (dm + ".csv");
    assert ScenarioFileName(n) == prefix + (dn + ".csv");
    assert dm + ".csv" == ScenarioFileName(m)[|prefix|..];
    assert dn + ".csv" == ScenarioFileName(n)[|prefix|..];
    assert dm == (dm + ".csv")[..|dm + ".csv"| - 4];
    assert dn == (dn + ".csv")[..|dn + ".csv"| - 4];
    DecimalStringInjective(m, n);
  }

  /** Once a scenario is loaded, the form passes `validate_inputs` as long as
      the group label prefix is not blank. */
  lemma LoadedScenarioPassesValidation(s: Settings, n: int, prefix: string)
    requires n in Presets && !IsBlank(prefix)
    ensures var r := ApplyScenario(s, n);
            Validation.InputErrors(Validation.Form(r.numPaths, r.sampleSizePerPath, prefix, r.fileName)) == []
  {
    ScenarioNumbers(n);
    PresetsWellFormed(n);
    var name := ScenarioFileName(n);
    var f := Validation.Form(ApplyScenario(s, n).numPaths, ApplyScenario(s, n).sampleSizePerPath, prefix, name);
    assert name == ("test inputs/scenario" + DecimalString(n)) + ".csv";
    EndsWithAppended("test inputs/scenario" + DecimalString(n), ".csv");
    NotBlankWhenFirstIsNotSpace(name);
    Validation.NoErrorsIffValid(f);
  }

  /** The session state behind the form (`st.session_state`). */
  class SessionState {
    var currentScenario: Option<int>
    var numPaths: int
    var metricType: string
    var sampleSizePerPath: int
    var fileName: string
    var distributionShape: string
    var varianceCondition: string

    /** The fields as one value. */
    function Snapshot(): Settings
      reads this
    {
      Settings(currentScenario, numPaths, metricType, sampleSizePerPath, fileName,
               distributionShape, varianceCondition)
    }

    /** The form can show this session: the `.index(...)` look-ups of the
        select boxes find the stored group count, metric type, shape and
        variance condition among their choices, the number input accepts the
        stored sample size, and the sidebar's `presets[...]` look-up finds
        the loaded scenario. */
    ghost predicate Valid()
      reads this
    {
      WellFormed(Snapshot())
    }

    /** A fresh session: no scenario loaded, every field at the form's fallback. */
    constructor()
      ensures Snapshot() == InitialSettings
      ensures Valid()
    {
      currentScenario := None;
      numPaths := 2;
      metricType := "Continuous";
      sampleSizePerPath := 1000;
      fileName := "test inputs/synthetic_data.csv";
      distributionShape := "Normal";
      varianceCondition := "Equal";
    }

    /** `load_scenario`: copies preset `scenarioNum`, if there is one, into
        the session state. */
    method LoadScenario(scenarioNum: int)
      modifies this
      ensures Snapshot() == ApplyScenario(old(Snapshot()), scenarioNum)
      ensures old(Valid()) ==> Valid()
    {
      ghost var before := Snapshot();
      if scenarioNum in Presets {
        var preset := Presets[scenarioNum];
        currentScenario := Some(scenarioNum);
        numPaths := preset.paths;
        metricType := preset.metricType;
        sampleSizePerPath := preset.samples;
        fileName := ScenarioFileName(scenarioNum);
        if preset.metricType == "Continuous" {
          distributionShape := preset.distribution;
          varianceCondition := preset.variance;
        }
      }
      if WellFormed(before) {
        ApplyScenarioKeepsWellFormed(before, scenarioNum);
      }
    }
  }
}
