/** The results view (frontend/src/App.jsx, ResultsList): a three-way choice. */
module Results {
  import opened Findings

  /** One `<FindingCard key={i} finding={f} />` of the list. */
  datatype Card = Card(key: int, finding: Finding)

  /** The branch the view renders. */
  datatype ResultsView =
    | Scanning
    | NoVulnerabilities
    | FindingsList(heading: string, cards: seq<Card>)

  const HeadingPrefix := "Security Findings \U{2013} "

  /** The list heading, which names the scanned contract. */
  function Heading(contractName: string): (h: string)
    ensures |h| == |HeadingPrefix| + |contractName| && h[|HeadingPrefix|..] == contractName
  {
    HeadingPrefix + contractName
  }

  /**
   * Loading wins whatever the findings and name are; otherwise an empty list
   * gives the "no vulnerabilities" state; otherwise the heading and one card per
   * finding, keyed by its position, in the findings' order.
   */
  function ResultsList(findings: seq<Finding>, loading: bool, contractName: string): (v: ResultsView)
    ensures v.Scanning? <==> loading
    ensures v.NoVulnerabilities? <==> !loading && |findings| == 0
    ensures v.FindingsList? <==> !loading && |findings| > 0
    ensures v.FindingsList? ==> v.heading == Heading(contractName)
    ensures v.FindingsList? ==> |v.cards| == |findings|
    ensures v.FindingsList? ==> forall i :: 0 <= i < |v.cards| ==> v.cards[i] == Card(i, findings[i])
  {
    if loading then Scanning
    else if |findings| == 0 then NoVulnerabilities
    else FindingsList(Heading(contractName), seq(|findings|, i requires 0 <= i < |findings| => Card(i, findings[i])))
  }

  /** The findings the cards of a list display, in order. */
  function CardFindings(cards: seq<Card>): (fs: seq<Finding>)
    ensures |fs| == |cards|
    ensures forall i :: 0 <= i < |cards| ==> fs[i] == cards[i].finding
  {
    if cards == [] then [] else [cards[0].finding] + CardFindings(cards[1..])
  }

  /**
   * A listed view shows exactly the given findings, in the given order, and no
   * two cards share a key.
   */
  lemma ListShowsFindingsInOrder(findings: seq<Finding>, contractName: string)
    requires |findings| > 0
    ensures ResultsList(findings, false, contractName).FindingsList?
    ensures CardFindings(ResultsList(findings, false, contractName).cards) == findings
    ensures var cards := ResultsList(findings, false, contractName).cards;
      forall i, j :: 0 <= i < |cards| && 0 <= j < |cards| && cards[i].key == cards[j].key ==> i == j
  {
  }
}
