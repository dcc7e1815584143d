/** The form check the generator runs before it builds a data set
    (`validate_inputs`): five rules over the four form fields, reported as an
    ordered list of messages. */
module Validation {
  import opened Strings

  /** The form fields `validate_inputs` receives. */
  datatype Form = Form(numPaths: int, sampleSizePerPath: int, groupPrefix: string, fileName: string)

  /** One rule of the form check; each broken rule is one message. */
  datatype InputError =
    | PathsNotPositive
    | SampleSizeNotPositive
    | PrefixBlank
    | FileNameBlank
    | FileNameNotCsv

  /** The message shown for a broken rule. */
  function Message(e: InputError): string {
    match e
    case PathsNotPositive => "Number of Paths must be greater than 0"
    case SampleSizeNotPositive => "Sample Size Per Path must be greater than 0"
    case PrefixBlank => "Group Label Prefix cannot be empty"
    case FileNameBlank => "File Name cannot be empty"
    case FileNameNotCsv => "File Name must end with .csv"
  }

  /** The form field a rule is about, in the order the form lists them:
      paths, sample size, prefix, file name. */
  function Field(e: InputError): nat {
    match e
    case PathsNotPositive => 0
    case SampleSizeNotPositive => 1
    case PrefixBlank => 2
    case FileNameBlank => 3
    case FileNameNotCsv => 3
  }

  /** Whether the form breaks rule `e`. The `.csv` rule is only checked for a
      file name that is not blank. */
  predicate Violates(e: InputError, f: Form) {
    match e
    case PathsNotPositive => f.numPaths <= 0
    case SampleSizeNotPositive => f.sampleSizePerPath <= 0
    case PrefixBlank => IsBlank(f.groupPrefix)
    case FileNameBlank => IsBlank(f.fileName)
    case FileNameNotCsv => !IsBlank(f.fileName) && !EndsWith(f.fileName, ".csv")
  }

  /** All rules, in the order they are checked. */
  const Rules: seq<InputError> :=
    [PathsNotPositive, SampleSizeNotPositive, PrefixBlank, FileNameBlank, FileNameNotCsv]

  /** The position of a rule in `Rules`. */
  function Rank(e: InputError): nat {
    match e
    case PathsNotPositive => 0
    case SampleSizeNotPositive => 1
    case PrefixBlank => 2
    case FileNameBlank => 3
    case FileNameNotCsv => 4
  }

  /** The rules of `s` are listed in the order they are checked, each once. */
  predicate InRuleOrder(s: seq<InputError>) {
    forall i, j :: 0 <= i < j < |s| ==> Rank(s[i]) < Rank(s[j])
  }

  /** The rules of `rules` that the form breaks, in the order of `rules`. */
  function Broken(rules: seq<InputError>, f: Form): seq<InputError> {
    if rules == [] then []
    else if Violates(rules[0], f) then [rules[0]] + Broken(rules[1..], f)
    else Broken(rules[1..], f)
  }

  /** A rule is in the filtered list exactly when it is one of `rules` and is broken. */
  lemma {:induction false} BrokenMembers(rules: seq<InputError>, f: Form, e: InputError)
    ensures e in Broken(rules, f) <==> e in rules && Violates(e, f)
  {
    if rules != [] {
      BrokenMembers(rules[1..], f, e);
      assert rules == [rules[0]] + rules[1..];
    }
  }

  /** Filtering keeps the rules in the order they are checked. */
  lemma {:induction false} BrokenInRuleOrder(rules: seq<InputError>, f: Form)
    requires InRuleOrder(rules)
    ensures InRuleOrder(Broken(rules, f))
  {
    if rules != [] {
      var rest := Broken(rules[1..], f);
      assert InRuleOrder(rules[1..]) by {
        forall i, j | 0 <= i < j < |rules[1..]|
          ensures Rank(rules[1..][i]) < Rank(rules[1..][j])
        {
          assert rules[1..][i] == rules[i + 1] && rules[1..][j] == rules[j + 1];
        }
      }
      BrokenInRuleOrder(rules[1..], f);
      if Violates(rules[0], f) {
        var r := [rules[0]] + rest;
        forall i, j | 0 <= i < j < |r|
          ensures Rank(r[i]) < Rank(r[j])
        {
          BrokenMembers(rules[1..], f, r[j]);
          assert r[j] == rest[j - 1] && r[j] in rules[1..];
          var q :| 0 <= q < |rules[1..]| && rules[1..][q] == r[j];
          if i > 0 {
            assert r[i] == rest[i - 1];
          } else {
            assert r[j] == rules[q + 1];
          }
        }
      }
    }
  }

  /** Reference definition of the check's result: the broken rules, in rule order. */
  function InputErrors(f: Form): seq<InputError> {
    Broken(Rules, f)
  }

  /** The list of messages for a list of broken rules. */
  function Messages(es: seq<InputError>): (ms: seq<string>)
    ensures |ms| == |es|
    ensures forall i :: 0 <= i < |es| ==> ms[i] == Message(es[i])
  {
    if es == [] then [] else [Message(es[0])] + Messages(es[1..])
  }

  /** `validate_inputs`: checks the rules one after the other and appends the
      message of each broken one. */
  method ValidateInputs(numPaths: int, sampleSizePerPath: int, groupPrefix: string, fileName: string)
    returns (errors: seq<string>)
    ensures errors == Messages(InputErrors(Form(numPaths, sampleSizePerPath, groupPrefix, fileName)))
  {
    ghost var f := Form(numPaths, sampleSizePerPath, groupPrefix, fileName);
    ghost var reported: seq<InputError> := [];
    errors := [];
    if numPaths <= 0 {
      errors := errors + ["Number of Paths must be greater than 0"];
      reported := reported + [PathsNotPositive];
    }
    assert errors == Messages(reported);
    assert reported == Flag(Violates(PathsNotPositive, f), PathsNotPositive);
    if sampleSizePerPath <= 0 {
      MessagesAppend(reported, SampleSizeNotPositive);
      errors := errors + ["Sample Size Per Path must be greater than 0"];
      reported := reported + [SampleSizeNotPositive];
    }
    assert reported == Flag(Violates(PathsNotPositive, f), PathsNotPositive) +
      Flag(Violates(SampleSizeNotPositive, f), SampleSizeNotPositive);
    if |Strip(groupPrefix)| == 0 {
      MessagesAppend(reported, PrefixBlank);
      errors := errors + ["Group Label Prefix cannot be empty"];
      reported := reported + [PrefixBlank];
    }
    assert reported == Flag(Violates(PathsNotPositive, f), PathsNotPositive) +
      Flag(Violates(SampleSizeNotPositive, f), SampleSizeNotPositive) +
      Flag(Violates(PrefixBlank, f), PrefixBlank);
    ghost var before := reported;
    if |Strip(fileName)| == 0 {
      MessagesAppend(reported, FileNameBlank);
      errors := errors + ["File Name cannot be empty"];
      reported := reported + [FileNameBlank];
    } else if !EndsWith(fileName, ".csv") {
      MessagesAppend(reported, FileNameNotCsv);
      errors := errors + ["File Name must end with .csv"];
      reported := reported + [FileNameNotCsv];
    }
    assert reported == before + FileNameFlags(f) by {
      FileNameFlagsCases(f);
    }
    InputErrorsUnfolded(f);
  }

  /** The part of the result about the file name. */
  function FileNameFlags(f: Form): seq<InputError> {
    Flag(Violates(FileNameBlank, f), FileNameBlank) + Flag(Violates(FileNameNotCsv, f), FileNameNotCsv)
  }

  lemma FileNameFlagsCases(f: Form)
    ensures IsBlank(f.fileName) ==> FileNameFlags(f) == [FileNameBlank]
    ensures !IsBlank(f.fileName) && !EndsWith(f.fileName, ".csv") ==> FileNameFlags(f) == [FileNameNotCsv]
    ensures !IsBlank(f.fileName) && EndsWith(f.fileName, ".csv") ==> FileNameFlags(f) == []
  {
  }

  lemma MessagesAppend(es: seq<InputError>, e: InputError)
    ensures Messages(es + [e]) == Messages(es) + [Message(e)]
  {
  }

  /** The result of the check, rule by rule. */
  function Flag(b: bool, e: InputError): seq<InputError> {
    if b then [e] else []
  }

  lemma InputErrorsUnfolded(f: Form)
    ensures InputErrors(f) ==
      Flag(Violates(PathsNotPositive, f), PathsNotPositive) +
      Flag(Violates(SampleSizeNotPositive, f), SampleSizeNotPositive) +
      Flag(Violates(PrefixBlank, f), PrefixBlank) + FileNameFlags(f)
  {
    var a := Flag(Violates(PathsNotPositive, f), PathsNotPositive);
    var b := Flag(Violates(SampleSizeNotPositive, f), SampleSizeNotPositive);
    var c := Flag(Violates(PrefixBlank, f), PrefixBlank);
    var tail := FileNameFlags(f);
    BrokenFirstRules(f);
    BrokenFileNameRules(f);
    assert a + (b + (c + tail)) == a + b + c + tail;
  }

  /** The first three rules, one after the other. */
  lemma BrokenFirstRules(f: Form)
    ensures Broken(Rules, f) ==
      Flag(Violates(PathsNotPositive, f), PathsNotPositive) +
      (Flag(Violates(SampleSizeNotPositive, f), SampleSizeNotPositive) +
       (Flag(Violates(PrefixBlank, f), PrefixBlank) + Broken([FileNameBlank, FileNameNotCsv], f)))
  {
    var r3 := [FileNameBlank, FileNameNotCsv];
    var r2 := [PrefixBlank] + r3;
    var r1 := [SampleSizeNotPositive] + r2;
    assert Rules == [PathsNotPositive] + r1;
    BrokenCons(PathsNotPositive, r1, f);
    BrokenCons(SampleSizeNotPositive, r2, f);
    BrokenCons(PrefixBlank, r3, f);
  }

  /** The two file-name rules. */
  lemma BrokenFileNameRules(f: Form)
    ensures Broken([FileNameBlank, FileNameNotCsv], f) == FileNameFlags(f)
  {
    BrokenCons(FileNameBlank, [FileNameNotCsv], f);
    BrokenCons(FileNameNotCsv, [], f);
    assert [FileNameBlank] + [FileNameNotCsv] == [FileNameBlank, FileNameNotCsv];
    assert [FileNameNotCsv] + [] == [FileNameNotCsv];
  }

  lemma BrokenCons(e: InputError, rest: seq<InputError>, f: Form)
    ensures Broken([e] + rest, f) == Flag(Violates(e, f), e) + Broken(rest, f)
  {
    assert ([e] + rest)[0] == e && ([e] + rest)[1..] == rest;
  }

  /** The form passes (no message at all) exactly when both counts are
      positive, the prefix is not blank, and the file name is not blank and
      ends in `.csv`. */
  lemma NoErrorsIffValid(f: Form)
    ensures InputErrors(f) == [] <==>
      f.numPaths > 0 && f.sampleSizePerPath > 0 && !IsBlank(f.groupPrefix) &&
      !IsBlank(f.fileName) && EndsWith(f.fileName, ".csv")
  {
    InputErrorsUnfolded(f);
  }

  /** Each rule is reported exactly when it is broken. */
  lemma ErrorReportedIffBroken(f: Form, e: InputError)
    ensures e in InputErrors(f) <==> Violates(e, f)
  {
    BrokenMembers(Rules, f, e);
  }

  /** At most one message about the file name: a blank name gets only
      "cannot be empty", a non-blank one at most "must end with .csv". */
  lemma AtMostOneFileNameError(f: Form)
    ensures !(FileNameBlank in InputErrors(f) && FileNameNotCsv in InputErrors(f))
    ensures IsBlank(f.fileName) ==> FileNameBlank in InputErrors(f) && FileNameNotCsv !in InputErrors(f)
  {
    ErrorReportedIffBroken(f, FileNameBlank);
    ErrorReportedIffBroken(f, FileNameNotCsv);
  }

  /** The messages come in the order of the form's fields, one per field at
      most: paths, then sample size, then prefix, then file name. */
  lemma ErrorsInFieldOrder(f: Form)
    ensures forall i, j :: 0 <= i < j < |InputErrors(f)| ==> Field(InputErrors(f)[i]) < Field(InputErrors(f)[j])
  {
    var r := InputErrors(f);
    BrokenInRuleOrder(Rules, f);
    forall i, j | 0 <= i < j < |r|
      ensures Field(r[i]) < Field(r[j])
    {
      ErrorReportedIffBroken(f, r[i]);
      ErrorReportedIffBroken(f, r[j]);
    }
  }

  /** There are never more than four messages. */
  lemma AtMostFourErrors(f: Form)
    ensures |InputErrors(f)| <= 4
  {
    InputErrorsUnfolded(f);
  }

  /** The messages name the broken rules without ambiguity. */
  lemma MessageInjective(d: InputError, e: InputError)
    requires Message(d) == Message(e)
    ensures d == e
  {
  }
}
