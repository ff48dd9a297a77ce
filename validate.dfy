/**
 * `Ubl::Validator`: an XSD stage that short-circuits a Schematron stage, and
 * the formatting of the Schematron report (SVRL) into error lines, fatal
 * ones first. Reading files, schema validation, the container run that
 * produces the report and the XPath query over it are inputs here.
 */
module Validate {
  import opened Wrappers
  import opened Constants

  // ---- the text helpers of get_svrl_errors ----

  /** The characters Ruby's `String#strip` removes: null, tab, line feed, vertical tab, form feed, carriage return, space. */
  predicate IsSpace(c: char) {
    c == ' ' || c == '\t' || c == '\n' || c == '\U{000B}' || c == '\U{000C}' || c == '\r' || c == '\0'
  }

  /** `tr("\n", " ")`. */
  function NewlinesToSpaces(s: string): (r: string)
    ensures |r| == |s|
    ensures forall i :: 0 <= i < |s| ==> r[i] == if s[i] == '\n' then ' ' else s[i]
  {
    if s == [] then [] else [if s[0] == '\n' then ' ' else s[0]] + NewlinesToSpaces(s[1..])
  }

  predicate NoDoubleSpace(s: string) {
    forall i :: 0 <= i < |s| - 1 ==> !(s[i] == ' ' && s[i + 1] == ' ')
  }

  /** `squeeze(" ")`: every run of spaces becomes one space. */
  function Squeeze(s: string): (r: string)
    ensures |r| <= |s|
    ensures |s| > 0 ==> |r| > 0 && r[0] == s[0]
    ensures NoDoubleSpace(r)
  {
    if |s| < 2 then s
    else if s[0] == ' ' && s[1] == ' ' then Squeeze(s[1..])
    else [s[0]] + Squeeze(s[1..])
  }

  /** The characters of a string other than spaces, in order. */
  function NonSpaces(s: string): string {
    if s == [] then [] else (if s[0] == ' ' then [] else [s[0]]) + NonSpaces(s[1..])
  }

  /** Squeezing drops spaces only, never any other character. */
  lemma {:induction false} SqueezeKeepsNonSpaces(s: string)
    ensures NonSpaces(Squeeze(s)) == NonSpaces(s)
  {
    if |s| >= 2 {
      SqueezeKeepsNonSpaces(s[1..]);
      if !(s[0] == ' ' && s[1] == ' ') {
        assert ([s[0]] + Squeeze(s[1..]))[1..] == Squeeze(s[1..]);
      }
    }
  }

  /** A string without double spaces is left as it is; so squeezing twice is squeezing once. */
  lemma {:induction false} SqueezeIdentity(s: string)
    requires NoDoubleSpace(s)
    ensures Squeeze(s) == s
  {
    if |s| >= 2 {
      assert NoDoubleSpace(s[1..]) by {
        forall i | 0 <= i < |s[1..]| - 1
          ensures !(s[1..][i] == ' ' && s[1..][i + 1] == ' ')
        {
          assert s[1..][i] == s[i + 1] && s[1..][i + 1] == s[i + 2];
        }
      }
      SqueezeIdentity(s[1..]);
      assert !(s[0] == ' ' && s[1] == ' ');
    }
  }

  lemma SqueezeIdempotent(s: string)
    ensures Squeeze(Squeeze(s)) == Squeeze(s)
  {
    SqueezeIdentity(Squeeze(s));
  }

  /** A run of `n` spaces. */
  function Spaces(n: nat): (s: string)
    ensures |s| == n && forall i :: 0 <= i < n ==> s[i] == ' '
  {
    seq(n, _ => ' ')
  }

  /** A run of one or more spaces squeezes to a single space. */
  lemma {:induction false} SqueezeSpaces(n: nat)
    requires n >= 1
    ensures Squeeze(Spaces(n)) == " "
  {
    if n == 1 {
      assert Spaces(1) == " ";
    } else {
      assert Spaces(n)[1..] == Spaces(n - 1);
      SqueezeSpaces(n - 1);
    }
  }

  /**
   * Squeezing works piece by piece across a cut that does not fall inside a
   * run of spaces; with `SqueezeSpaces` this fixes the result on every input.
   */
  lemma {:induction false} SqueezeAppend(a: string, b: string)
    requires a == [] || b == [] || a[|a| - 1] != ' ' || b[0] != ' '
    ensures Squeeze(a + b) == Squeeze(a) + Squeeze(b)
  {
    if a == [] {
      assert a + b == b;
    } else if b == [] {
      assert a + b == a;
    } else if |a| == 1 {
      assert (a + b)[1..] == b;
    } else {
      assert (a + b)[1..] == a[1..] + b;
      assert a[1..][|a| - 2] == a[|a| - 1];
      SqueezeAppend(a[1..], b);
      if !(a[0] == ' ' && a[1] == ' ') {
        assert [a[0]] + (Squeeze(a[1..]) + Squeeze(b)) == [a[0]] + Squeeze(a[1..]) + Squeeze(b);
      }
    }
  }

  lemma SqueezeExample()
    ensures Squeeze("a  b") == "a b"
  {
    assert "a  b" == "a" + (Spaces(2) + "b");
    SqueezeSpaces(2);
    SqueezeAppend(Spaces(2), "b");
    SqueezeAppend("a", Spaces(2) + "b");
  }

  /** The number of leading whitespace characters. */
  function LeadingSpaces(s: string): (k: nat)
    ensures k <= |s|
    ensures forall i :: 0 <= i < k ==> IsSpace(s[i])
    ensures k < |s| ==> !IsSpace(s[k])
  {
    if s != [] && IsSpace(s[0]) then 1 + LeadingSpaces(s[1..]) else 0
  }

  /** The number of trailing whitespace characters. */
  function TrailingSpaces(s: string): (k: nat)
    ensures k <= |s|
    ensures forall i :: |s| - k <= i < |s| ==> IsSpace(s[i])
    ensures k < |s| ==> !IsSpace(s[|s| - k - 1])
  {
    if s != [] && IsSpace(s[|s| - 1]) then 1 + TrailingSpaces(s[..|s| - 1]) else 0
  }

  /** `strip`: the string without its leading and trailing whitespace. */
  function Strip(s: string): (r: string)
    ensures |r| == 0 || (!IsSpace(r[0]) && !IsSpace(r[|r| - 1]))
  {
    var a := LeadingSpaces(s);
    if a == |s| then [] else
      var t := s[a..];
      assert t[0] == s[a];
      var b := TrailingSpaces(t);
      assert b < |t|;
      t[..|t| - b]
  }

  /** What strip removes is whitespace, and what it keeps is a contiguous part of the input. */
  lemma StripSlice(s: string)
    ensures exists i, j ::
      (&& 0 <= i <= j <= |s| && Strip(s) == s[i..j]
       && (forall k :: 0 <= k < i ==> IsSpace(s[k]))
       && (forall k :: j <= k < |s| ==> IsSpace(s[k])))
  {
    var a := LeadingSpaces(s);
    if a == |s| {
      assert Strip(s) == s[a..a];
    } else {
      var t := s[a..];
      var b := TrailingSpaces(t);
      assert Strip(s) == s[a..|s| - b];
      forall k | |s| - b <= k < |s|
        ensures IsSpace(s[k])
      {
        assert s[k] == t[k - a];
      }
    }
  }

  lemma NoDoubleSpaceSlice(s: string, i: nat, j: nat)
    requires NoDoubleSpace(s) && i <= j <= |s|
    ensures NoDoubleSpace(s[i..j])
  {
    forall k | 0 <= k < |s[i..j]| - 1
      ensures !(s[i..j][k] == ' ' && s[i..j][k + 1] == ' ')
    {
      assert s[i..j][k] == s[i + k] && s[i..j][k + 1] == s[i + k + 1];
    }
  }

  /** `Array#join(sep)`. */
  function Join(parts: seq<string>, sep: string): string {
    if parts == [] then []
    else if |parts| == 1 then parts[0]
    else Join(parts[..|parts| - 1], sep) + sep + parts[|parts| - 1]
  }

  /** The text of a failed assert: its `text` children joined by spaces, newlines made spaces, spaces squeezed, then stripped. */
  function NormalizeText(texts: seq<string>): string {
    Strip(Squeeze(NewlinesToSpaces(Join(texts, " "))))
  }

  /** Stripping keeps a string free of double spaces and of any character it lacked. */
  lemma StripKeeps(s: string, c: char)
    requires NoDoubleSpace(s)
    ensures NoDoubleSpace(Strip(s))
    ensures c !in s ==> c !in Strip(s)
  {
    var a := LeadingSpaces(s);
    if a < |s| {
      var t := s[a..];
      var b := TrailingSpaces(t);
      NoDoubleSpaceSlice(s, a, |s|);
      NoDoubleSpaceSlice(t, 0, |t| - b);
      assert t[0..|t| - b] == Strip(s);
      if c in Strip(s) {
        var k :| 0 <= k < |Strip(s)| && Strip(s)[k] == c;
        assert s[a + k] == c;
      }
    }
  }

  /** Normalised text has no newline, no two spaces in a row, and no whitespace at either end. */
  lemma NormalizeTextClean(texts: seq<string>)
    ensures var r := NormalizeText(texts);
      && '\n' !in r
      && NoDoubleSpace(r)
      && (|r| == 0 || (!IsSpace(r[0]) && !IsSpace(r[|r| - 1])))
  {
    var t := NewlinesToSpaces(Join(texts, " "));
    assert '\n' !in t;
    SqueezeKeepsChars(t, '\n');
    StripKeeps(Squeeze(t), '\n');
  }

  /** Squeezing introduces no character that was not there. */
  lemma {:induction false} SqueezeKeepsChars(s: string, c: char)
    requires c !in s
    ensures c !in Squeeze(s)
  {
    if |s| >= 2 {
      assert c !in s[1..];
      SqueezeKeepsChars(s[1..], c);
    }
  }

  // ---- failed asserts to error lines ----

  /** A `failed-assert` node of the report: its `flag` and `test` attributes and the content of its `text` children. */
  datatype FailedAssert = FailedAssert(flag: string, texts: seq<string>, test: string)

  /** One error line: the flag, the normalised text, then on a second line indented by seven spaces the squeezed test. */
  function ErrorLine(flag: string, a: FailedAssert): string {
    flag + ": " + NormalizeText(a.texts) + "\n       " + Squeeze(a.test)
  }

  predicate StartsWith(s: string, prefix: string) {
    |prefix| <= |s| && s[..|prefix|] == prefix
  }

  /**
   * An error line is the flag, the normalised text and the seven-space
   * indent, followed by the test expression with its space runs squeezed and
   * nothing else of it changed.
   */
  lemma ErrorLineParts(flag: string, a: FailedAssert)
    ensures var line, head := ErrorLine(flag, a), flag + ": " + NormalizeText(a.texts) + "\n       ";
      && StartsWith(line, head)
      && line[|head|..] == Squeeze(a.test)
      && NoDoubleSpace(line[|head|..])
      && NonSpaces(line[|head|..]) == NonSpaces(a.test)
      && (|a.test| > 0 ==> |line| > |head| && line[|head|] == a.test[0])
  {
    var head := flag + ": " + NormalizeText(a.texts) + "\n       ";
    assert ErrorLine(flag, a)[|head|..] == Squeeze(a.test);
    SqueezeKeepsNonSpaces(a.test);
  }

  /** The error lines of the asserts flagged `flag`, in document order. */
  function FlagErrors(report: seq<FailedAssert>, flag: string): (r: seq<string>)
    ensures |r| <= |report|
    ensures forall i :: 0 <= i < |r| ==> StartsWith(r[i], flag + ": ")
  {
    if report == [] then []
    else
      var rest := FlagErrors(report[..|report| - 1], flag);
      var a := report[|report| - 1];
      if a.flag == flag then rest + [ErrorLine(flag, a)] else rest
  }

  /** Errors of one flag keep document order: the errors of a concatenated report are the concatenated errors. */
  lemma {:induction false} FlagErrorsAppend(a: seq<FailedAssert>, b: seq<FailedAssert>, flag: string)
    ensures FlagErrors(a + b, flag) == FlagErrors(a, flag) + FlagErrors(b, flag)
  {
    if b != [] {
      assert (a + b)[..|a + b| - 1] == a + b[..|b| - 1];
      FlagErrorsAppend(a, b[..|b| - 1], flag);
    } else {
      assert a + b == a;
    }
  }

  /** One assert gives one line if it has the flag, and none otherwise. */
  lemma FlagErrorsSingle(a: FailedAssert, flag: string)
    ensures FlagErrors([a], flag) == if a.flag == flag then [ErrorLine(flag, a)] else []
  {
    assert [a][..0] == [];
  }

  /** `get_svrl_errors`: walks the matching asserts and appends one error line per assert. */
  method GetSvrlErrors(report: seq<FailedAssert>, flag: string) returns (errors: seq<string>)
    ensures errors == FlagErrors(report, flag)
  {
    errors := [];
    var i := 0;
    while i < |report|
      invariant 0 <= i <= |report|
      invariant errors == FlagErrors(report[..i], flag)
    {
      assert report[..i + 1][..i] == report[..i];
      if report[i].flag == flag {
        errors := errors + [ErrorLine(flag, report[i])];
      }
      i := i + 1;
    }
    assert report[..i] == report;
  }

  /** The error list `parse_svrl_errors` produces: all fatal lines, then all warning lines. */
  function SvrlErrors(report: seq<FailedAssert>): seq<string> {
    FlagErrors(report, "fatal") + FlagErrors(report, "warning")
  }

  /** `parse_svrl_errors`: the two lists, pushed in order and flattened. */
  method ParseSvrlErrors(report: seq<FailedAssert>) returns (errors: seq<string>)
    ensures errors == SvrlErrors(report)
  {
    var fatal := GetSvrlErrors(report, "fatal");
    var warning := GetSvrlErrors(report, "warning");
    errors := fatal + warning;
  }

  lemma FlagsExclusive(s: string)
    ensures !(StartsWith(s, "fatal: ") && StartsWith(s, "warning: "))
  {
    if StartsWith(s, "fatal: ") {
      assert s[0] == "fatal: "[0];
    }
  }

  /**
   * Every fatal line comes before every warning line: the list is a block of
   * lines starting "fatal: " followed by a block starting "warning: ", and
   * once a warning line appears no fatal line follows.
   */
  lemma FatalBeforeWarnings(report: seq<FailedAssert>)
    ensures var r, f := SvrlErrors(report), |FlagErrors(report, "fatal")|;
      && (forall i :: 0 <= i < f ==> StartsWith(r[i], "fatal: "))
      && (forall i :: f <= i < |r| ==> StartsWith(r[i], "warning: "))
      && forall i, j :: 0 <= i < j < |r| && StartsWith(r[i], "warning: ") ==> !StartsWith(r[j], "fatal: ")
  {
    var r, f := SvrlErrors(report), |FlagErrors(report, "fatal")|;
    var fatal, warning := FlagErrors(report, "fatal"), FlagErrors(report, "warning");
    assert "fatal" + ": " == "fatal: ";
    assert "warning" + ": " == "warning: ";
    forall i | 0 <= i < f
      ensures StartsWith(r[i], "fatal: ")
    {
      assert r[i] == fatal[i];
    }
    forall i | f <= i < |r|
      ensures StartsWith(r[i], "warning: ")
    {
      assert r[i] == warning[i - f];
    }
    forall i, j | 0 <= i < j < |r| && StartsWith(r[i], "warning: ")
      ensures !StartsWith(r[j], "fatal: ")
    {
      FlagsExclusive(r[i]);
      FlagsExclusive(r[j]);
    }
  }

  // ---- the XSD stage ----

  /** How the schema stage ended: no schema file, Nokogiri's list of messages, or an exception. */
  datatype XsdOutcome = SchemaMissing | Validated(messages: seq<string>) | Raised(message: string)

  /** `validate_xsd`. */
  function XsdErrors(xsdPath: string, outcome: XsdOutcome): (r: seq<string>)
    ensures |r| == 0 <==> outcome == Validated([])
    ensures outcome.SchemaMissing? ==> r == ["XSD not found: " + xsdPath]
    ensures outcome.Raised? ==> r == ["XSD validation error: " + outcome.message]
    ensures outcome.Validated? ==> r == outcome.messages
  {
    match outcome
    case SchemaMissing => ["XSD not found: " + xsdPath]
    case Validated(messages) => messages
    case Raised(message) => ["XSD validation error: " + message]
  }

  /** `File.join` of a directory and a relative path. */
  function JoinPath(dir: string, rel: string): string {
    if dir != [] && dir[|dir| - 1] == '/' then dir + rel else dir + "/" + rel
  }

  const INVOICE_XSD := "../../xsd/maindoc/UBL-Invoice-2.1.xsd"
  const CREDIT_NOTE_XSD := "../../xsd/maindoc/UBL-CreditNote-2.1.xsd"

  /** The two schema paths under the same directory are different files, each ending in its own schema's name. */
  lemma SchemaChoice(dir: string)
    ensures JoinPath(dir, INVOICE_XSD) != JoinPath(dir, CREDIT_NOTE_XSD)
    ensures JoinPath(dir, INVOICE_XSD)[|JoinPath(dir, INVOICE_XSD)| - |INVOICE_XSD|..] == INVOICE_XSD
    ensures JoinPath(dir, CREDIT_NOTE_XSD)[|JoinPath(dir, CREDIT_NOTE_XSD)| - |CREDIT_NOTE_XSD|..] == CREDIT_NOTE_XSD
  {
    assert |INVOICE_XSD| != |CREDIT_NOTE_XSD|;
  }

  // ---- the Schematron stage and the validator ----

  /**
   * The container that runs the Schematron rules on a file: `report` gives
   * the report it prints for a file path and the UBL.BE environment flag;
   * `runs` logs each run as the file path and whether that flag was passed.
   */
  class SchematronRunner {
    const report: (string, bool) -> seq<FailedAssert>
    var runs: seq<(string, bool)>

    constructor (report: (string, bool) -> seq<FailedAssert>)
      ensures this.report == report && runs == []
    {
      this.report := report;
      runs := [];
    }

    /** `validate_schematron`: one run, with `-e UBL_BE=true` exactly when `belgian`, then the report parsed. */
    method Run(path: string, belgian: bool) returns (errors: seq<string>)
      modifies this`runs
      ensures runs == old(runs) + [(path, belgian)]
      ensures errors == SvrlErrors(report(path, belgian))
    {
      runs := runs + [(path, belgian)];
      errors := ParseSvrlErrors(report(path, belgian));
    }
  }

  class Validator {
    const ublBe: bool
    const schematron: bool

    /** `initialize(extension: nil, schematron: true)`. */
    constructor (extension: Option<string> := None, schematron: bool := true)
      ensures ublBe <==> extension == Some(UBL_BE)
      ensures this.schematron == schematron
    {
      ublBe := extension == Some(UBL_BE);
      this.schematron := schematron;
    }

    /**
     * `validate`: the XSD errors if there are any, without running the
     * Schematron stage; otherwise the Schematron errors when that stage is
     * enabled, after one run, and nothing when it is not.
     */
    method Validate(path: string, xsdPath: string, xsd: string -> XsdOutcome, runner: SchematronRunner)
      returns (errors: seq<string>)
      modifies runner`runs
      ensures var x := XsdErrors(xsdPath, xsd(xsdPath));
        && (|x| > 0 ==> errors == x && runner.runs == old(runner.runs))
        && (|x| == 0 && schematron ==> errors == SvrlErrors(runner.report(path, ublBe)) && runner.runs == old(runner.runs) + [(path, ublBe)])
        && (|x| == 0 && !schematron ==> errors == [] && runner.runs == old(runner.runs))
    {
      errors := XsdErrors(xsdPath, xsd(xsdPath));
      if |errors| > 0 {
        return;
      }
      if schematron {
        errors := runner.Run(path, ublBe);
      }
    }

    /** `validate_invoice`: `validate` against the Invoice 2.1 schema, found relative to the library directory `dir`. */
    method ValidateInvoice(path: string, dir: string, xsd: string -> XsdOutcome, runner: SchematronRunner)
      returns (errors: seq<string>)
      modifies runner`runs
      ensures var x := XsdErrors(JoinPath(dir, INVOICE_XSD), xsd(JoinPath(dir, INVOICE_XSD)));
        && (|x| > 0 ==> errors == x && runner.runs == old(runner.runs))
        && (|x| == 0 && schematron ==> errors == SvrlErrors(runner.report(path, ublBe)) && runner.runs == old(runner.runs) + [(path, ublBe)])
        && (|x| == 0 && !schematron ==> errors == [] && runner.runs == old(runner.runs))
    {
      errors := Validate(path, JoinPath(dir, INVOICE_XSD), xsd, runner);
    }

    /** `validate_credit_note`: `validate` against the CreditNote 2.1 schema. */
    method ValidateCreditNote(path: string, dir: string, xsd: string -> XsdOutcome, runner: SchematronRunner)
      returns (errors: seq<string>)
      modifies runner`runs
      ensures var x := XsdErrors(JoinPath(dir, CREDIT_NOTE_XSD), xsd(JoinPath(dir, CREDIT_NOTE_XSD)));
        && (|x| > 0 ==> errors == x && runner.runs == old(runner.runs))
        && (|x| == 0 && schematron ==> errors == SvrlErrors(runner.report(path, ublBe)) && runner.runs == old(runner.runs) + [(path, ublBe)])
        && (|x| == 0 && !schematron ==> errors == [] && runner.runs == old(runner.runs))
    {
      errors := Validate(path, JoinPath(dir, CREDIT_NOTE_XSD), xsd, runner);
    }
  }
}
