/**
 * ConversionIssueReporter: collects conversion issues and, when asked to
 * report, throws one InvalidOperationException whose message lists them all.
 */
module IssueReporting {
  import opened Wrappers
  import opened Text
  import opened Clr
  import opened Properties
  import opened SafeStrings
  import opened Issues

  /** The first line of every report. */
  const ReportHeader := "Could not convert " + "all input values into " + "their expected types:"

  /** StringBuilder.AppendLine's line terminator. */
  const NewLine := "\n"

  const IssueHeaderStart := "---- Problem["
  const IssueHeaderEnd := "] --------------------"

  /** GetIssueHeader: the issue number between the fixed start and end. */
  function GetIssueHeader(issueNo: int): (r: string)
    ensures |r| > |IssueHeaderStart| + |IssueHeaderEnd|
    ensures r[..|IssueHeaderStart|] == IssueHeaderStart
    ensures r[|r| - |IssueHeaderEnd|..] == IssueHeaderEnd
    ensures r[|IssueHeaderStart|..|r| - |IssueHeaderEnd|] == IntToString(issueNo)
  {
    var number := IntToString(issueNo);
    var r := IssueHeaderStart + number + IssueHeaderEnd;
    assert r[..|IssueHeaderStart|] == IssueHeaderStart;
    assert r[|IssueHeaderStart|..|r| - |IssueHeaderEnd|] == number;
    r
  }

  /** The number can be read back from an issue header, so distinct issues get distinct headers. */
  lemma IssueHeaderNumber(issueNo: nat)
    ensures var h := GetIssueHeader(issueNo);
      var digits := h[|IssueHeaderStart|..|h| - |IssueHeaderEnd|];
      (forall i :: 0 <= i < |digits| ==> IsDigit(digits[i])) && ParseDigits(digits) == issueNo
  {
    ParseNatToString(issueNo);
  }

  /** Issue headers hold no line break. */
  lemma IssueHeaderIsOneLine(issueNo: nat)
    ensures '\n' !in GetIssueHeader(issueNo)
  {
    var h := GetIssueHeader(issueNo);
    var digits := NatToString(issueNo);
    assert h == IssueHeaderStart + digits + IssueHeaderEnd;
    assert '\n' !in IssueHeaderStart && '\n' !in IssueHeaderEnd;
    assert forall i :: 0 <= i < |digits| ==> digits[i] != '\n';
  }

  /** The labels of the seven lines of a rendered issue, in order. */
  const Labels: seq<string> := [
    "Settings Type:   ",
    "Property:        ",
    "Property Type:   ",
    "Attempted Value: ",
    "Attempted Keys:  ",
    "Message:         ",
    "Exception:       "
  ]

  /**
   * What follows each label: the settings object's type, the property's name
   * and type, the value, the keys, the message and the exception, each
   * rendered by SafeString.
   */
  function Fields(issue: ConversionIssue): (r: seq<string>)
    ensures |r| == |Labels|
  {
    [ GetTypeName(Some(issue.settings.runtimeType)),
      GetString(match issue.property case None => None case Some(p) => p.name),
      GetTypeName(match issue.property case None => None case Some(p) => p.propertyType),
      GetString(issue.value),
      GetStringList(Some(issue.keys)),
      GetString(issue.message),
      GetString(match issue.exception case None => None case Some(e) => Some(ExceptionToString(e))) ]
  }

  function RenderLines(issue: ConversionIssue): (r: seq<string>)
    ensures |r| == |Labels|
    ensures forall k :: 0 <= k < |Labels| ==> r[k] == Labels[k] + Fields(issue)[k]
  {
    var f := Fields(issue);
    [Labels[0] + f[0], Labels[1] + f[1], Labels[2] + f[2], Labels[3] + f[3],
     Labels[4] + f[4], Labels[5] + f[5], Labels[6] + f[6]]
  }

  /** RenderConversionIssue: the seven labelled lines, a line break after each but the last. */
  function RenderConversionIssue(issue: ConversionIssue): string
  {
    Join(RenderLines(issue), NewLine)
  }

  predicate IsOneLine(s: string)
  {
    '\n' !in s
  }

  lemma LabelsAreOneLine()
    ensures forall k :: 0 <= k < |Labels| ==> IsOneLine(Labels[k])
  {
  }

  /** When no field holds a line break, the rendering has exactly seven lines, each a label and its field. */
  lemma RenderedLines(issue: ConversionIssue)
    requires forall k :: 0 <= k < |Labels| ==> IsOneLine(Fields(issue)[k])
    ensures Split(RenderConversionIssue(issue), '\n') == RenderLines(issue)
    ensures forall k :: 0 <= k < |Labels| ==> IsOneLine(RenderLines(issue)[k])
  {
    var lines := RenderLines(issue);
    LabelsAreOneLine();
    forall k | 0 <= k < |Labels| ensures IsOneLine(lines[k]) {
      assert lines[k] == Labels[k] + Fields(issue)[k];
    }
    SplitJoin(lines, '\n');
  }

  /** An issue fresh from For renders the settings type and the null marker everywhere else. */
  lemma NullIssueFields(settings: SettingsObject)
    ensures Fields(For(Some(settings)).value) ==
      [FullName(settings.runtimeType), NullString, NullString, NullString, NullString, NullString, NullString]
  {
  }

  /** The part of the report about issue number `issueNo`: its header, its rendering and a line break after each. */
  function Section(issueNo: int, issue: ConversionIssue): string
  {
    GetIssueHeader(issueNo) + NewLine + RenderConversionIssue(issue) + NewLine
  }

  /** The sections of `issues`, numbered from `first`. */
  function Sections(issues: seq<ConversionIssue>, first: int): string
  {
    if |issues| == 0 then ""
    else Sections(issues[..|issues| - 1], first) + Section(first + |issues| - 1, issues[|issues| - 1])
  }

  /** The message ReportIssues throws: the report header and a line break, then every issue numbered from 1. */
  function Report(issues: seq<ConversionIssue>): string
  {
    ReportHeader + NewLine + Sections(issues, 1)
  }

  /** The report's lines, one list entry per line. */
  function SectionLines(issues: seq<ConversionIssue>, first: int): seq<string>
  {
    if |issues| == 0 then []
    else SectionLines(issues[..|issues| - 1], first) + [GetIssueHeader(first + |issues| - 1)] + RenderLines(issues[|issues| - 1])
  }

  /** A section, as lines: the issue header, the seven lines, and the empty rest after the final line break. */
  lemma SectionAsLines(issueNo: int, issue: ConversionIssue)
    ensures Join([GetIssueHeader(issueNo)] + RenderLines(issue) + [""], NewLine) == Section(issueNo, issue)
  {
    var h, lines := GetIssueHeader(issueNo), RenderLines(issue);
    AppendAssociates([h], lines, [""]);
    JoinConcat([h], lines + [""], NewLine);
    JoinConcat(lines, [""], NewLine);
    AppendAssociates(h + NewLine, RenderConversionIssue(issue), NewLine);
    AppendAssociates(h, NewLine, RenderConversionIssue(issue) + NewLine);
    assert Join(lines + [""], NewLine) == RenderConversionIssue(issue) + NewLine;
  }

  /** The lines before the last issue's section, and that section's lines. */
  lemma SectionLinesSplit(prefix: seq<string>, issues: seq<ConversionIssue>, first: int)
    requires |issues| > 0
    ensures var pre, last := issues[..|issues| - 1], issues[|issues| - 1];
      prefix + SectionLines(issues, first) + [""] ==
      (prefix + SectionLines(pre, first)) + ([GetIssueHeader(first + |issues| - 1)] + RenderLines(last) + [""])
  {
    var pre, last := issues[..|issues| - 1], issues[|issues| - 1];
    var lines, h, rendered := SectionLines(pre, first), [GetIssueHeader(first + |issues| - 1)], RenderLines(last);
    var a := prefix + lines;
    AppendAssociates(prefix, lines + h, rendered);
    AppendAssociates(prefix, lines, h);
    AppendAssociates(a, h, rendered);
    AppendAssociates(a, h + rendered, [""]);
  }

  /** One more issue: its section's lines join into its section. */
  lemma SectionsAsLinesStep(prefix: seq<string>, issues: seq<ConversionIssue>, first: int)
    requires |prefix| > 0 && |issues| > 0
    requires Join(prefix + SectionLines(issues[..|issues| - 1], first) + [""], NewLine) ==
      Join(prefix, NewLine) + NewLine + Sections(issues[..|issues| - 1], first)
    ensures Join(prefix + SectionLines(issues, first) + [""], NewLine) == Join(prefix, NewLine) + NewLine + Sections(issues, first)
  {
    var pre := issues[..|issues| - 1];
    var last := issues[|issues| - 1];
    var n := first + |issues| - 1;
    var a := prefix + SectionLines(pre, first);
    var b := [GetIssueHeader(n)] + RenderLines(last) + [""];
    var section := Section(n, last);
    JoinConcat(a, [""], NewLine);
    assert Join(a, NewLine) + NewLine == Join(prefix, NewLine) + NewLine + Sections(pre, first);
    SectionLinesSplit(prefix, issues, first);
    JoinConcat(a, b, NewLine);
    SectionAsLines(n, last);
    assert Join(a + b, NewLine) == Join(a, NewLine) + NewLine + section;
    AppendAssociates(Join(a, NewLine), NewLine, section);
    AppendAssociates(Join(prefix, NewLine) + NewLine, Sections(pre, first), section);
  }

  lemma {:induction false} SectionsAsLines(prefix: seq<string>, issues: seq<ConversionIssue>, first: int)
    requires |prefix| > 0
    ensures Join(prefix + SectionLines(issues, first) + [""], NewLine) == Join(prefix, NewLine) + NewLine + Sections(issues, first)
  {
    if |issues| == 0 {
      assert prefix + SectionLines(issues, first) + [""] == prefix + [""];
      JoinConcat(prefix, [""], NewLine);
    } else {
      SectionsAsLines(prefix, issues[..|issues| - 1], first);
      SectionsAsLinesStep(prefix, issues, first);
    }
  }

  lemma ReportHeaderIsOneLine()
    ensures '\n' !in ReportHeader
  {
    assert '\n' !in "Could not convert ";
    assert '\n' !in "all input values into ";
    assert '\n' !in "their expected types:";
  }

  /** The report written as its list of lines joined by line breaks. */
  lemma ReportAsLines(issues: seq<ConversionIssue>)
    ensures Report(issues) == Join([ReportHeader] + SectionLines(issues, 1) + [""], NewLine)
  {
    SectionsAsLines([ReportHeader], issues, 1);
  }

  /**
   * When no field of any issue holds a line break, the report is, line by
   * line: the report header; for each issue its numbered header and its seven
   * lines; and the empty line after the final line break.
   */
  lemma ReportLines(issues: seq<ConversionIssue>)
    requires forall i, k :: 0 <= i < |issues| && 0 <= k < |Labels| ==> IsOneLine(Fields(issues[i])[k])
    ensures Split(Report(issues), '\n') == [ReportHeader] + SectionLines(issues, 1) + [""]
  {
    ReportAsLines(issues);
    ReportLinesAreOneLine(issues);
    SplitJoin([ReportHeader] + SectionLines(issues, 1) + [""], '\n');
  }

  lemma ReportLinesAreOneLine(issues: seq<ConversionIssue>)
    requires forall i, k :: 0 <= i < |issues| && 0 <= k < |Labels| ==> IsOneLine(Fields(issues[i])[k])
    ensures var lines := [ReportHeader] + SectionLines(issues, 1) + [""];
      forall k :: 0 <= k < |lines| ==> '\n' !in lines[k]
  {
    ReportHeaderIsOneLine();
    OneLineSections(issues, 1);
    OneLineAround(ReportHeader, SectionLines(issues, 1));
  }

  /** A one-line head, one-line middle lines and an empty tail are all one line each. */
  lemma OneLineAround(head: string, middle: seq<string>)
    requires '\n' !in head
    requires forall k :: 0 <= k < |middle| ==> IsOneLine(middle[k])
    ensures var lines := [head] + middle + [""];
      forall k :: 0 <= k < |lines| ==> '\n' !in lines[k]
  {
    var lines := [head] + middle + [""];
    forall k | 0 <= k < |lines| ensures '\n' !in lines[k] {
      if k == 0 {
        assert lines[k] == head;
      } else if k < |lines| - 1 {
        assert lines[k] == middle[k - 1];
      }
    }
  }

  lemma {:induction false} OneLineSections(issues: seq<ConversionIssue>, first: nat)
    requires forall i, k :: 0 <= i < |issues| && 0 <= k < |Labels| ==> IsOneLine(Fields(issues[i])[k])
    ensures forall k :: 0 <= k < |SectionLines(issues, first)| ==> IsOneLine(SectionLines(issues, first)[k])
  {
    if |issues| > 0 {
      var pre := issues[..|issues| - 1];
      var last := issues[|issues| - 1];
      OneLineSections(pre, first);
      RenderedLines(last);
      IssueHeaderIsOneLine(first + |issues| - 1);
    }
  }

  /** The two-issue report of the tests. */
  lemma TwoIssueReport(a: ConversionIssue, b: ConversionIssue)
    ensures Report([a, b]) == ReportHeader + NewLine + Section(1, a) + Section(2, b)
  {
    assert [a, b][..1] == [a];
    assert [a][..0] == [];
    assert Sections([a], 1) == "" + Section(1, a) == Section(1, a);
    assert Sections([a, b], 1) == Section(1, a) + Section(2, b);
    AppendAssociates(ReportHeader + NewLine, Section(1, a), Section(2, b));
  }

  lemma SectionsSnoc(issues: seq<ConversionIssue>, i: nat)
    requires i < |issues|
    ensures Sections(issues[..i + 1], 1) == Sections(issues[..i], 1) + Section(i + 1, issues[i])
  {
    assert issues[..i + 1][..i] == issues[..i];
  }

  class ConversionIssueReporter {
    var issues: seq<ConversionIssue>

    constructor()
      ensures issues == []
    {
      issues := [];
    }

    /** AddIssue: the issue goes at the end; the earlier ones keep their order. */
    method AddIssue(problem: ConversionIssue)
      modifies this
      ensures issues == old(issues) + [problem]
    {
      issues := issues + [problem];
    }

    /**
     * ReportIssues: returns normally when there is no issue, otherwise throws
     * an InvalidOperationException carrying the report. The issues are kept.
     */
    method ReportIssues() returns (thrown: Option<Exception>)
      ensures thrown.None? <==> issues == []
      ensures thrown.Some? ==> thrown.value == InvalidOperation(Report(issues))
    {
      if |issues| == 0 {
        return None;
      }
      var counter := 0;
      var head := ReportHeader + NewLine;
      var builder := head;
      for i := 0 to |issues|
        invariant counter == i
        invariant builder == head + Sections(issues[..i], 1)
      {
        counter := counter + 1;
        ghost var before := builder;
        var issueHeader, rendering := GetIssueHeader(counter), RenderConversionIssue(issues[i]);
        builder := builder + issueHeader + NewLine;
        builder := builder + rendering + NewLine;
        AppendAssociates(before, issueHeader, NewLine);
        AppendAssociates(before, issueHeader + NewLine, rendering);
        AppendAssociates(before, issueHeader + NewLine + rendering, NewLine);
        SectionsSnoc(issues, i);
        AppendAssociates(head, Sections(issues[..i], 1), Section(counter, issues[i]));
      }
      assert issues[..|issues|] == issues;
      thrown := Some(InvalidOperation(builder));
    }
  }
}
