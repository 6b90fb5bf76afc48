/**
 * A finding as the scanning service returns it, the severity badge that
 * labels it, and the card that displays it (frontend/src/App.jsx, SeverityBadge
 * and FindingCard).
 */
module Findings {
  import opened Wrappers

  /**
   * One reported issue. The client never validates `severity`, so it stays an
   * open string; `lineNumber` and `code` may be missing from the response.
   */
  datatype Finding = Finding(
    severity: string,
    title: string,
    description: string,
    lineNumber: Option<int>,
    code: Option<string>)

  /** The colour table of the badge: one background class per recognised severity. */
  const SeverityConfig: map<string, string> := map[
    "CRITICAL" := "bg-red-600",
    "HIGH" := "bg-orange-600",
    "MEDIUM" := "bg-yellow-600",
    "LOW" := "bg-blue-600"
  ]

  /** The classes every badge carries before its colour. */
  const BadgeBaseClasses: seq<string> :=
    ["px-4", "py-2", "rounded-full", "text-white", "text-sm", "font-bold", "uppercase"]

  /** What the template literal writes for a table lookup that finds nothing. */
  const MissingColour := "undefined"

  /** A rendered badge: its class tokens in order, and its text. */
  datatype Badge = Badge(classes: seq<string>, text: string)

  /** The table lookup `severityConfig[severity]`; `None` stands for `undefined`. */
  function SeverityColour(severity: string): (r: Option<string>)
    ensures r.Some? <==> severity in {"CRITICAL", "HIGH", "MEDIUM", "LOW"}
    ensures r.Some? ==> r.value in SeverityConfig.Values && r.value != MissingColour
  {
    if severity in SeverityConfig then Some(SeverityConfig[severity]) else None
  }

  /** The four recognised severities get four different colours. */
  lemma SeverityColoursDistinct(s1: string, s2: string)
    requires s1 in SeverityConfig && s2 in SeverityConfig && s1 != s2
    ensures SeverityColour(s1).Some? && SeverityColour(s2).Some?
    ensures SeverityColour(s1).value != SeverityColour(s2).value
  {
  }

  /**
   * The badge: it carries a colour class exactly when the severity is in the
   * table, that class is the table's, and its text is the severity as received.
   * An unknown severity does not fail: it shows its raw text without a colour.
   */
  function SeverityBadge(severity: string): (b: Badge)
    ensures b.text == severity
    ensures |b.classes| == |BadgeBaseClasses| + 1
    ensures forall c :: c in SeverityConfig.Values ==> (c in b.classes <==> SeverityColour(severity) == Some(c))
  {
    var colour := match SeverityColour(severity) case Some(c) => c case None => MissingColour;
    Badge(BadgeBaseClasses + [colour], severity)
  }

  /**
   * What `{finding.line_number && <p>Line …</p>}` renders: nothing when the field
   * is missing, the label for a non-zero number, and React's literal text "0"
   * for the falsy number 0.
   */
  datatype LineSlot = NoLine | LineLabel(n: int) | StrayZero

  /** What one card shows. `snippet` is the `<pre>` block, absent when not rendered. */
  datatype CardView = CardView(
    badge: Badge,
    title: string,
    description: string,
    line: LineSlot,
    snippet: Option<string>)

  /**
   * A card for finding `f` in the given disclosure state. Badge, title and
   * description always show; the line label shows exactly for a non-zero line
   * number; the snippet shows exactly when expanded and `code` is a non-empty
   * string.
   */
  function RenderCard(f: Finding, expanded: bool): (v: CardView)
    ensures v.badge == SeverityBadge(f.severity) && v.title == f.title && v.description == f.description
    ensures v.line.LineLabel? <==> f.lineNumber.Some? && f.lineNumber.value != 0
    ensures v.line.LineLabel? ==> v.line.n == f.lineNumber.value
    ensures v.line.StrayZero? <==> f.lineNumber == Some(0)
    ensures v.snippet.Some? <==> expanded && f.code.Some? && f.code.value != ""
    ensures v.snippet.Some? ==> f.code == v.snippet
  {
    var line := match f.lineNumber
      case None => NoLine
      case Some(n) => if n == 0 then StrayZero else LineLabel(n);
    var snippet := if expanded && f.code.Some? && f.code.value != "" then f.code else None;
    CardView(SeverityBadge(f.severity), f.title, f.description, line, snippet)
  }

  /** Expanding or collapsing a card changes nothing but its snippet, and nothing at all when its code is missing or empty. */
  lemma ExpansionOnlyAffectsSnippet(f: Finding, e1: bool, e2: bool)
    ensures RenderCard(f, e1).(snippet := None) == RenderCard(f, e2).(snippet := None)
    ensures !(f.code.Some? && f.code.value != "") ==> RenderCard(f, e1) == RenderCard(f, e2)
  {
  }

  /** One mounted card: the finding it shows and its local `expanded` flag. */
  class FindingCard {
    const finding: Finding
    var expanded: bool

    /** A card mounts collapsed. */
    constructor (finding: Finding)
      ensures this.finding == finding && !expanded
      ensures View() == RenderCard(finding, false)
    {
      this.finding := finding;
      expanded := false;
    }

    function View(): CardView
      reads this
    {
      RenderCard(finding, expanded)
    }

    /** A click on the card flips `expanded`. */
    method Click()
      modifies this
      ensures expanded == !old(expanded)
      ensures View() == RenderCard(finding, !old(expanded))
    {
      expanded := !expanded;
    }
  }

  /** Two clicks in a row leave the card as it was. */
  method DoubleClick(card: FindingCard)
    modifies card
    ensures card.expanded == old(card.expanded)
    ensures card.View() == old(card.View())
  {
    card.Click();
    card.Click();
  }
}
