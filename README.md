# Synthetic data generator — a Dafny model

The program is a small Streamlit app, `data_gen.py`. It builds synthetic A/B-test data sets:
one record per simulated user, with a `user_id`, a `group` label and a `metric`.
Before it generates anything it checks the form's inputs. A sidebar offers twenty preset
scenarios, and clicking one copies the preset into the form's session state.

This project models the parts of the program that decide what gets generated:

- `strings.dfy` (module `Strings`) holds the Python string built-ins the program relies on:
  `str.isspace`, `str.strip()`, `str.endswith`, and the decimal rendering of a
  non-negative `int` in an f-string.
- `validation.dfy` (module `Validation`) models `validate_inputs`. It has a reference
  definition (`InputErrors`: the broken rules in rule order) and a method that performs the
  source's checks one after another. The method is proved to return the messages of the
  reference definition.
- `generators.dfy` (module `Generators`) models the three generators:
  - The per-group parameter rules are functions: the normal and gamma parameters, the
    capped success probability, and the selected and normalised category weights.
  - The record-building loop shared by all three generators is a method with loop
    invariants. It is proved equal to `Table`, a recursive specification of the table,
    which is built block by block.
  - The random draws are a parameter, `sample(i, d)`: the values the random number
    generator returns when group `i` asks for values from distribution `d`.
- `scenarios.dfy` (module `Scenarios`) models:
  - the `presets` table, as a `map`;
  - the session state, as a class whose fields `LoadScenario` updates in place;
  - `load_scenario` itself, proved against the function `ApplyScenario`.

## Model

| member | source | states |
|---|---|---|
| Strings.TrimStartDropsLeadingSpace | data_gen.py:164 | `lstrip` keeps a suffix of the string, drops only white space, and leaves no leading white space |
| Strings.TrimEndDropsTrailingSpace | data_gen.py:167 | `rstrip` keeps a prefix of the string, drops only white space, and leaves no trailing white space |
| Strings.BlankIffAllSpace | data_gen.py:164-170 | `not s.strip()` holds exactly when every character of `s` is white space |
| Strings.NotBlankWhenFirstIsNotSpace | data_gen.py:167 | a string whose first character is not white space is not blank |
| Strings.EndsWithAppended | data_gen.py:169 | a string built as `x + ".csv"` ends with `.csv` |
| Strings.DecimalString | data_gen.py:47 | the f-string rendering of a number is a non-empty string of digits with no leading zero |
| Strings.DecimalRoundTrip | data_gen.py:47 | reading the rendered digits back gives the number |
| Strings.DecimalStringInjective | data_gen.py:47 | different numbers render differently |
| Validation.ValidateInputs | data_gen.py:154-172 | the returned messages are those of the broken rules, in rule order |
| Validation.InputErrorsUnfolded | data_gen.py:158-170 | the rule-by-rule checks produce exactly the filtered rule list |
| Validation.BrokenMembers | data_gen.py:158-170 | a rule appears in the result exactly when it is in the list and broken |
| Validation.BrokenInRuleOrder | data_gen.py:158-170 | filtering keeps the rules in check order, each at most once |
| Validation.NoErrorsIffValid | data_gen.py:154-172 | the list is empty iff both counts are positive, the prefix is not blank, and the file name is not blank and ends with `.csv` |
| Validation.ErrorReportedIffBroken | data_gen.py:158-170 | each message is reported iff its rule is broken |
| Validation.AtMostOneFileNameError | data_gen.py:167-170 | the file name never gets both messages; a blank name gets only "cannot be empty" |
| Validation.ErrorsInFieldOrder | data_gen.py:158-170 | the messages follow the field order (paths, sample size, prefix, file name), at most one per field |
| Validation.AtMostFourErrors | data_gen.py:154-172 | at most four messages are returned |
| Validation.MessageInjective | data_gen.py:159-170 | each message text identifies a single rule |
| Validation.Messages | data_gen.py:159-170 | one message per broken rule, in the same order |
| Generators.GroupLabelInjective | data_gen.py:60 | different group indices get different labels `prefix + " " + chr(65 + i)` |
| Generators.GroupLabel | data_gen.py:60 | the label of group `i` is the prefix, one space, and the character with code `65 + i` |
| Generators.DefaultGroupLabels | data_gen.py:60 | with prefix "Group", group `i` (for `i < 26`) is "Group " followed by the `i`-th capital letter |
| Generators.ProportionProbability | data_gen.py:102-103 | group `i`'s probability, in tenths, is `min(3 + 2i, 9)`, and it lies in [0.3, 0.9] |
| Generators.ProportionProbabilityMonotone | data_gen.py:102-103 | a later group never gets a smaller probability |
| Generators.WeightRow | data_gen.py:128-135 | every weight row has one weight per category |
| Generators.WeightRowSelection | data_gen.py:128-135 | groups 0, 1 and 2 have their own rows, and every group from 3 on shares the fourth row |
| Generators.SumScale | data_gen.py:139 | dividing every weight by `c` divides their sum by `c` |
| Generators.NormalizeSumsToOne | data_gen.py:139 | normalised weights sum to one |
| Generators.WeightRowSumsToOne | data_gen.py:128-135 | every weight row is already a probability vector (non-negative, sum 1) |
| Generators.CategoricalWeightsAreRow | data_gen.py:137-139 | truncating to six and normalising leave the selected row unchanged |
| Generators.ContinuousDistribution | data_gen.py:62-80 | "Normal" gives a normal request and any other shape a gamma one. With "Equal" the parameters are (50, 10) or (2, 10) for every group; otherwise group `i` gets mean `50 + 10i` or shape `2 + 0.5i`, with scale `10 + 5i` |
| Generators.CategoricalWeights | data_gen.py:137-139 | the weights passed to the sampler: one per category, non-negative and summing to one |
| Generators.DistributionForAccepted | data_gen.py:61-80 | every request has a positive scale and shape, a probability in [0, 1], or a probability vector with one weight per option |
| Generators.EqualVarianceSameDistribution | data_gen.py:63-65 | with equal variance all groups draw from one distribution |
| Generators.UnequalVarianceDistinctDistributions | data_gen.py:66-80 | with unequal variance no two groups draw from the same distribution |
| Generators.Block | data_gen.py:83-89 | a group's records carry consecutive ids, the group's label and its drawn values in order |
| Generators.Table | data_gen.py:56-89 | the full table has `num_paths * sample_size_per_path` records |
| Generators.BuildRecords | data_gen.py:56-89 | the shared loop builds exactly `Table` |
| Generators.AppendGroup | data_gen.py:83-89 | the inner loop appends exactly the group's block, and the id counter advances by one per value |
| Generators.GenerateContinuousData | data_gen.py:54-91 | the continuous generator builds `Table` with the continuous requests |
| Generators.GenerateProportionData | data_gen.py:93-116 | the proportion generator builds `Table` with one Bernoulli trial per record |
| Generators.GenerateCategoricalData | data_gen.py:118-152 | the categorical generator builds `Table` with the weighted category choice |
| Generators.TableAt | data_gen.py:56-89 | record `k` has id `k + 1`, group `k / n` and the `k % n`-th value drawn for that group |
| Generators.TableGroupIndex | data_gen.py:59-89 | record `k` has group `i`'s label iff `k / n == i` |
| Generators.TableBlocks | data_gen.py:59-89 | group `i`'s records are exactly positions `i*n` to `i*n + n - 1`, so groups form contiguous blocks in order |
| Generators.TableIdsConsecutive | data_gen.py:57-89 | the ids run 1, 2, ..., N in record order |
| Scenarios.Presets | data_gen.py:16-37 | the twenty presets, keyed 1 to 20, with their metric type, distribution, variance, group count, sample size, description and expected test |
| Scenarios.ApplyScenario | data_gen.py:39-52 | a known scenario sets the scenario number, group count, metric type, sample size and `test inputs/scenario{n}.csv`; a continuous one also sets shape and variance, and otherwise those two are kept |
| Scenarios.ScenarioNumbers | data_gen.py:16-37 | the scenarios are numbered 1 to 20 |
| Scenarios.PresetsWellFormed | data_gen.py:16-37 | every preset has 2 or 4 groups and 1000 records per group, and uses only choices the form offers |
| Scenarios.UnknownScenarioChangesNothing | data_gen.py:41 | an unknown scenario number leaves the session state unchanged |
| Scenarios.ApplyScenarioIdempotent | data_gen.py:39-52 | loading the same scenario twice equals loading it once |
| Scenarios.ContinuousScenarioOverwritesAll | data_gen.py:41-52 | a continuous preset sets every field, so the earlier state does not matter |
| Scenarios.NonContinuousKeepsShape | data_gen.py:49-52 | other presets keep the shape and variance and set every other field |
| Scenarios.ApplyScenarioKeepsWellFormed | data_gen.py:39-52 | loading keeps every stored choice among the form's options and the loaded scenario among the presets |
| Scenarios.InitialSettingsWellFormed | data_gen.py:223-282 | the form's fallback values are among its options |
| Scenarios.ScenarioFileNameInjective | data_gen.py:47 | different scenarios write to different files |
| Scenarios.LoadedScenarioPassesValidation | data_gen.py:39-52 | after loading a scenario the form passes `validate_inputs` whenever the prefix is not blank |
| Scenarios.SessionState.constructor | data_gen.py:180-282 | a new session has no scenario loaded and every field at its fallback value |
| Scenarios.SessionState.LoadScenario | data_gen.py:39-52 | the new session state is `ApplyScenario` of the old one, and a well-formed state stays well-formed |

## Left out

- The Streamlit page is not modelled: layout, buttons, reruns, spinners, download buttons and the preview.
  `InitialSettings` and `WellFormed` record only the fallback values and the options the form's widgets use.
- The random draws are not modelled. Each request becomes a `Distribution` value, and `sample` is a parameter
  standing for what numpy returns. Only the number of values it returns is assumed (`SampleSize`).
- Building a `DataFrame`, `os.makedirs` and `to_csv` are file and library I/O. The table is modelled as a
  sequence of records.
- Generators.BuildRecords: requires `numPaths <= MaxPaths`. Beyond that bound `chr(65 + i)` yields a
  surrogate, which a Dafny `char` cannot hold, or raises `ValueError`; the form offers only 2 or 4 groups.
- Generators.BuildRecords: takes the sample size as a `nat`. For a negative size numpy raises an error, which
  the model does not reproduce.
- Generators.ProportionProbability: computed in exact reals. The source uses binary floating point; for every
  group its result is the double nearest the model's value (for group 3 the sum is 0.9000000000000001 before
  the cap brings it back to 0.9).
- Generators.CategoricalWeightsAreRow: holds in exact reals. In floating point, row 0 sums to
  0.9999999999999999 when added left to right, so normalising shifts its weights by a rounding error.
- Scenarios.SessionState.LoadScenario: models only the seven session fields `load_scenario` touches. How
  widget keys and session entries interact inside Streamlit is not modelled.
