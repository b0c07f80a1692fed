/**
 The comment ModuleAnnotator::annotate puts at the head of the annotated IR:
 a record of the run's configuration (slicing criteria, slicing switches,
 pointer analysis and its field sensitivity).
 */
module ModuleHeader {

  /** The pointer analyses the header names; every other kind is `OtherAnalysis`. */
  datatype AnalysisType = FlowInsensitive | FlowSensitive | FlowSensitiveInvalidate | OtherAnalysis

  /** Field sensitivity of the pointer analysis: the UNKNOWN offset, or a concrete bound. */
  datatype FieldSensitivity = Unknown | Known(bound: nat)

  /** The part of the slicer options that the header reports. */
  datatype Config = Config(
    slicingCriteria: string,
    secondarySlicingCriteria: string,
    forwardSlicing: bool,
    removeSlicingCriteria: bool,
    undefinedArePure: bool,
    analysisType: AnalysisType,
    fieldSensitivity: FieldSensitivity)

  /** A decimal digit character. */
  predicate IsDigit(c: char)
  {
    '0' <= c <= '9'
  }

  /** std::to_string of an unsigned value: its decimal digits, no leading zero. */
  function DecimalString(n: nat): (s: string)
    ensures |s| >= 1
    ensures forall i :: 0 <= i < |s| ==> IsDigit(s[i])
    ensures s[0] == '0' ==> n == 0
  {
    if n < 10 then [('0' as int + n) as char]
    else DecimalString(n / 10) + [('0' as int + n % 10) as char]
  }

  /** Reads a string of decimal digits back as a number. */
  function DecimalValue(s: string): nat
    requires forall i :: 0 <= i < |s| ==> IsDigit(s[i])
  {
    if s == [] then 0
    else
      assert IsDigit(s[|s| - 1]);
      10 * DecimalValue(s[..|s| - 1]) + (s[|s| - 1] as int - '0' as int)
  }

  /** Reading the printed number gives the number back. */
  lemma {:induction false} DecimalRoundTrip(n: nat)
    ensures DecimalValue(DecimalString(n)) == n
  {
    var s := DecimalString(n);
    if n >= 10 {
      DecimalRoundTrip(n / 10);
      assert s[..|s| - 1] == DecimalString(n / 10);
    }
  }

  /** Distinct numbers print differently. */
  lemma DecimalStringInjective(m: nat, n: nat)
    ensures DecimalString(m) == DecimalString(n) ==> m == n
  {
    DecimalRoundTrip(m);
    DecimalRoundTrip(n);
  }

  /** std::to_string of a bool, which prints it as the integer 0 or 1. */
  function BoolText(b: bool): string
  {
    if b then "1" else "0"
  }

  const Banner: string := "; -- Generated by llvm-slicer --\n"
  const CriteriaLabel: string := ";   * slicing criteria: '"
  const SecondaryLabel: string := ";   * secondary slicing criteria: '"
  const ForwardLabel: string := ";   * forward slice: '"
  const RemoveLabel: string := ";   * remove slicing criteria: '"
  const UndefinedPureLabel: string := ";   * undefined are pure: '"
  const CloseQuote: string := "'\n"
  const PtaLabel: string := ";   * pointer analysis: "
  const FieldSensitivityLabel: string := ";   * PTA field sensitivity: "

  /** The description of the pointer analysis; nothing at all for other kinds. */
  function PtaDescription(a: AnalysisType): string
  {
    match a
    case FlowInsensitive => "flow-insensitive\n"
    case FlowSensitive => "flow-sensitive\n"
    case FlowSensitiveInvalidate => "flow-sensitive with invalidate\n"
    case OtherAnalysis => ""
  }

  /** The closing of the header: `full` for UNKNOWN, the decimal bound otherwise. */
  function FieldSensitivityText(f: FieldSensitivity): string
  {
    match f
    case Unknown => "full\n\n"
    case Known(n) => DecimalString(n) + "\n\n"
  }

  /** Everything up to the pointer-analysis label: banner, criteria and switches. */
  function Preamble(c: Config): string
  {
    Banner
    + CriteriaLabel + c.slicingCriteria + CloseQuote
    + SecondaryLabel + c.secondarySlicingCriteria + CloseQuote
    + ForwardLabel + BoolText(c.forwardSlicing) + CloseQuote
    + RemoveLabel + BoolText(c.removeSlicingCriteria) + CloseQuote
    + UndefinedPureLabel + BoolText(c.undefinedArePure) + CloseQuote
    + PtaLabel
  }

  /** The whole module comment. */
  function ModuleComment(c: Config): string
  {
    Preamble(c) + PtaDescription(c.analysisType)
    + FieldSensitivityLabel + FieldSensitivityText(c.fieldSensitivity)
  }

  /** The module comment built by successive appends, in the order the tool appends. */
  method BuildModuleComment(c: Config) returns (comment: string)
    ensures comment == ModuleComment(c)
  {
    comment := Banner
      + CriteriaLabel + c.slicingCriteria + CloseQuote
      + SecondaryLabel + c.secondarySlicingCriteria + CloseQuote
      + ForwardLabel + BoolText(c.forwardSlicing) + CloseQuote
      + RemoveLabel + BoolText(c.removeSlicingCriteria) + CloseQuote
      + UndefinedPureLabel + BoolText(c.undefinedArePure) + CloseQuote
      + PtaLabel;
    assert comment == Preamble(c);
    if c.analysisType == FlowInsensitive {
      comment := comment + "flow-insensitive\n";
    } else if c.analysisType == FlowSensitive {
      comment := comment + "flow-sensitive\n";
    } else if c.analysisType == FlowSensitiveInvalidate {
      comment := comment + "flow-sensitive with invalidate\n";
    }
    assert comment == Preamble(c) + PtaDescription(c.analysisType);
    comment := comment + FieldSensitivityLabel;
    if c.fieldSensitivity == Unknown {
      comment := comment + "full\n\n";
    } else {
      comment := comment + DecimalString(c.fieldSensitivity.bound) + "\n\n";
    }
  }

  /** `p` is an initial segment of `s`. */
  predicate IsPrefix(p: string, s: string)
  {
    |p| <= |s| && s[..|p|] == p
  }

  /** Equal concatenations whose first parts have equal length agree part by part. */
  lemma SplitEqual(x: string, r: string, y: string, q: string)
    requires x + r == y + q && |x| == |y|
    ensures x == y && r == q
  {
    assert x == (x + r)[..|x|] && y == (y + q)[..|y|];
    assert r == (x + r)[|x|..] && q == (y + q)[|y|..];
  }

  /**
   The comment opens with the banner and then quotes both criteria verbatim,
   each right after its label's opening quote and followed by a closing quote.
   */
  lemma ModuleCommentQuotesCriteria(c: Config)
    ensures IsPrefix(Banner
                     + CriteriaLabel + c.slicingCriteria + CloseQuote
                     + SecondaryLabel + c.secondarySlicingCriteria + CloseQuote,
                     ModuleComment(c))
    ensures CriteriaLabel[|CriteriaLabel| - 1] == '\'' && SecondaryLabel[|SecondaryLabel| - 1] == '\''
    ensures CloseQuote[0] == '\''
  {
  }

  /** The pointer-analysis line names exactly one of the three known analyses, or nothing. */
  lemma PtaDescriptionDistinct(a: AnalysisType, b: AnalysisType)
    ensures PtaDescription(a) == "" <==> a == OtherAnalysis
    ensures PtaDescription(a) == PtaDescription(b) ==> a == b
  {
  }

  /** The comment ends with `full` and a blank line for UNKNOWN, else with the decimal bound. */
  lemma ModuleCommentEnding(c: Config)
    ensures var s := ModuleComment(c);
      c.fieldSensitivity == Unknown ==> |s| >= 6 && s[|s| - 6..] == "full\n\n"
    ensures var s := ModuleComment(c);
      c.fieldSensitivity.Known? ==>
        var d := DecimalString(c.fieldSensitivity.bound);
        |s| >= |d| + 2 && s[|s| - |d| - 2..] == d + "\n\n"
        && DecimalValue(d) == c.fieldSensitivity.bound
  {
    var head := Preamble(c) + PtaDescription(c.analysisType) + FieldSensitivityLabel;
    var t := FieldSensitivityText(c.fieldSensitivity);
    assert (head + t)[|head|..] == t;
    if c.fieldSensitivity.Known? {
      DecimalRoundTrip(c.fieldSensitivity.bound);
    }
  }

  /** The first character of the closing text tells UNKNOWN (`f`) from a bound (a digit). */
  lemma FieldSensitivityTextFirst(f: FieldSensitivity)
    ensures |FieldSensitivityText(f)| >= 1
    ensures f.Known? <==> IsDigit(FieldSensitivityText(f)[0])
  {
  }

  /** The closing text determines the field sensitivity. */
  lemma FieldSensitivityTextInjective(f: FieldSensitivity, g: FieldSensitivity)
    requires FieldSensitivityText(f) == FieldSensitivityText(g)
    ensures f == g
  {
    FieldSensitivityTextFirst(f);
    FieldSensitivityTextFirst(g);
    if f.Known? {
      var tf, tg := FieldSensitivityText(f), FieldSensitivityText(g);
      assert DecimalString(f.bound) == tf[..|tf| - 2];
      assert DecimalString(g.bound) == tg[..|tg| - 2];
      DecimalStringInjective(f.bound, g.bound);
    }
  }

  /**
   Reads the analysis back from the text that follows the pointer-analysis
   label. Nothing printed leaves the `;` of the next label first; otherwise the
   text starts with `flow-`, position 5 is the `i` of `insensitive` or the `s`
   of `sensitive`, and position 14 is the line break that ends
   `flow-sensitive` or the space before `with invalidate`. The next label
   makes the text at least 15 characters long in every case.
   */
  function AnalysisOf(tail: string): AnalysisType
  {
    if |tail| < 15 || tail[0] == ';' then OtherAnalysis
    else if tail[5] == 'i' then FlowInsensitive
    else if tail[14] == '\n' then FlowSensitive
    else FlowSensitiveInvalidate
  }

  /** The description, followed by the field-sensitivity line, names the analysis unambiguously. */
  lemma AnalysisOfDescription(a: AnalysisType, f: FieldSensitivity)
    ensures AnalysisOf(PtaDescription(a) + (FieldSensitivityLabel + FieldSensitivityText(f))) == a
  {
  }

  /** The text after the pointer-analysis label determines the analysis and the field sensitivity. */
  lemma AnalysisTailInjective(a: AnalysisType, f: FieldSensitivity, b: AnalysisType, g: FieldSensitivity)
    requires PtaDescription(a) + (FieldSensitivityLabel + FieldSensitivityText(f))
          == PtaDescription(b) + (FieldSensitivityLabel + FieldSensitivityText(g))
    ensures a == b && f == g
  {
    AnalysisOfDescription(a, f);
    AnalysisOfDescription(b, g);
    SplitEqual(PtaDescription(a), FieldSensitivityLabel + FieldSensitivityText(f),
               PtaDescription(b), FieldSensitivityLabel + FieldSensitivityText(g));
    SplitEqual(FieldSensitivityLabel, FieldSensitivityText(f),
               FieldSensitivityLabel, FieldSensitivityText(g));
    FieldSensitivityTextInjective(f, g);
  }

  /** A switch printed between its label and a closing quote determines the switch. */
  lemma SwitchTextInjective(x: string, b: bool, y: string, e: bool)
    requires x + BoolText(b) + CloseQuote == y + BoolText(e) + CloseQuote
    requires |x| == |y|
    ensures x == y && b == e
  {
    SplitEqual(x + BoolText(b), CloseQuote, y + BoolText(e), CloseQuote);
    SplitEqual(x, BoolText(b), y, BoolText(e));
  }

  /** For the same criteria strings, the preamble determines the three switches. */
  lemma PreambleDeterminesSwitches(c: Config, d: Config)
    requires c.slicingCriteria == d.slicingCriteria
    requires c.secondarySlicingCriteria == d.secondarySlicingCriteria
    requires Preamble(c) == Preamble(d)
    ensures c.forwardSlicing == d.forwardSlicing
    ensures c.removeSlicingCriteria == d.removeSlicingCriteria
    ensures c.undefinedArePure == d.undefinedArePure
  {
    var crit := Banner
      + CriteriaLabel + c.slicingCriteria + CloseQuote
      + SecondaryLabel + c.secondarySlicingCriteria + CloseQuote;
    var x1 := crit + ForwardLabel;
    var x2 := x1 + BoolText(c.forwardSlicing) + CloseQuote + RemoveLabel;
    var y2 := x1 + BoolText(d.forwardSlicing) + CloseQuote + RemoveLabel;
    var x3 := x2 + BoolText(c.removeSlicingCriteria) + CloseQuote + UndefinedPureLabel;
    var y3 := y2 + BoolText(d.removeSlicingCriteria) + CloseQuote + UndefinedPureLabel;
    assert Preamble(c) == x3 + BoolText(c.undefinedArePure) + CloseQuote + PtaLabel;
    assert Preamble(d) == y3 + BoolText(d.undefinedArePure) + CloseQuote + PtaLabel;
    SplitEqual(x3 + BoolText(c.undefinedArePure) + CloseQuote, PtaLabel,
               y3 + BoolText(d.undefinedArePure) + CloseQuote, PtaLabel);
    SwitchTextInjective(x3, c.undefinedArePure, y3, d.undefinedArePure);
    SplitEqual(x2 + BoolText(c.removeSlicingCriteria) + CloseQuote, UndefinedPureLabel,
               y2 + BoolText(d.removeSlicingCriteria) + CloseQuote, UndefinedPureLabel);
    SwitchTextInjective(x2, c.removeSlicingCriteria, y2, d.removeSlicingCriteria);
    SplitEqual(x1 + BoolText(c.forwardSlicing) + CloseQuote, RemoveLabel,
               x1 + BoolText(d.forwardSlicing) + CloseQuote, RemoveLabel);
    SwitchTextInjective(x1, c.forwardSlicing, x1, d.forwardSlicing);
  }

  /** Re-associates a four-part concatenation to the right. */
  lemma Regroup(p: string, x: string, y: string, z: string)
    ensures p + x + y + z == p + (x + (y + z))
  {
  }

  /**
   For the same criteria strings, the comment determines every other setting:
   the three switches, the pointer analysis (the kinds it does not name count
   as one) and the field sensitivity.
   */
  lemma ModuleCommentDeterminesSettings(c: Config, d: Config)
    requires c.slicingCriteria == d.slicingCriteria
    requires c.secondarySlicingCriteria == d.secondarySlicingCriteria
    requires ModuleComment(c) == ModuleComment(d)
    ensures c == d
  {
    var tc := FieldSensitivityLabel + FieldSensitivityText(c.fieldSensitivity);
    var td := FieldSensitivityLabel + FieldSensitivityText(d.fieldSensitivity);
    Regroup(Preamble(c), PtaDescription(c.analysisType), FieldSensitivityLabel,
            FieldSensitivityText(c.fieldSensitivity));
    Regroup(Preamble(d), PtaDescription(d.analysisType), FieldSensitivityLabel,
            FieldSensitivityText(d.fieldSensitivity));
    assert |Preamble(c)| == |Preamble(d)|;
    SplitEqual(Preamble(c), PtaDescription(c.analysisType) + tc,
               Preamble(d), PtaDescription(d.analysisType) + td);
    AnalysisTailInjective(c.analysisType, c.fieldSensitivity, d.analysisType, d.fieldSensitivity);
    PreambleDeterminesSwitches(c, d);
  }
}
