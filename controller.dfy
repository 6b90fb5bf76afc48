/**
 * The scan controller (frontend/src/App.jsx, App and handleScan): five state
 * cells, the two halves of an asynchronous scan, and "New Scan".
 */
module Controller {
  import opened Wrappers
  import opened Findings
  import opened Results
  import opened JsText
  import opened ScanForm

  /** The `page` cell: 'scan' or 'results'. */
  datatype Page = Scan | Results

  /** How `apiClient.scanContract` settles: a response whose `findings` may be missing, or a thrown error's message. */
  datatype ScanOutcome = Succeeded(findings: Option<seq<Finding>>) | Failed(message: string)

  /** The call `apiClient.scanContract(code, name)` that a scan issues. */
  datatype ScanRequest = ScanRequest(code: string, name: string)

  /** A snapshot of the five state cells. */
  datatype ScanState = ScanState(
    page: Page,
    findings: seq<Finding>,
    contractName: string,
    loading: bool,
    error: string)

  const Initial := ScanState(Scan, [], "", false, "")

  /** `handleScan` up to the `await`: loading on, error cleared, name recorded. */
  function AfterBegin(s: ScanState, name: string): (t: ScanState)
    ensures t.loading && t.error == "" && t.contractName == name
    ensures t.page == s.page && t.findings == s.findings
  {
    s.(loading := true, error := "", contractName := name)
  }

  /**
   * `handleScan` after the `await`: a response replaces the findings (an empty
   * list when the field is missing) and moves to the results page; a failure
   * records its message and keeps page and findings; loading ends either way.
   */
  function AfterSettle(s: ScanState, outcome: ScanOutcome): (t: ScanState)
    ensures !t.loading && t.contractName == s.contractName
    ensures outcome.Succeeded? ==>
      t.page == Results && t.findings == outcome.findings.GetOr([]) && t.error == s.error
    ensures outcome.Failed? ==>
      t.page == s.page && t.findings == s.findings && t.error == outcome.message
  {
    match outcome
    case Succeeded(fs) => s.(findings := fs.GetOr([]), page := Results, loading := false)
    case Failed(msg) => s.(error := msg, loading := false)
  }

  /** "New Scan": back to the form, every other cell kept. */
  function AfterNewScan(s: ScanState): (t: ScanState)
    ensures t.page == Scan
    ensures t.findings == s.findings && t.contractName == s.contractName
    ensures t.loading == s.loading && t.error == s.error
  {
    s.(page := Scan)
  }

  /** What a user or the scanning service can do. */
  datatype Event =
    | SubmitForm(code: string)
    | Settle(outcome: ScanOutcome)
    | ClickNewScan

  /**
   * Which events the page offers: the form exists only on the scan page and its
   * button is disabled while loading; a scan settles only while one is
   * outstanding; "New Scan" exists only on the results page.
   */
  predicate Enabled(s: ScanState, e: Event) {
    match e
    case SubmitForm(_) => s.page == Scan && !s.loading
    case Settle(_) => s.loading
    case ClickNewScan => s.page == Results
  }

  /** The controller's response to an offered event; a blank form submission never reaches it. */
  function Step(s: ScanState, e: Event): ScanState
    requires Enabled(s, e)
  {
    match e
    case SubmitForm(code) =>
      (match SubmissionFor(code)
       case None => s
       case Some(sub) => AfterBegin(s, sub.name))
    case Settle(outcome) => AfterSettle(s, outcome)
    case ClickNewScan => AfterNewScan(s)
  }

  /** The state after a sequence of events, or `None` once one of them is not offered. */
  function Run(s: ScanState, events: seq<Event>): Option<ScanState>
    decreases |events|
  {
    if events == [] then Some(s)
    else if !Enabled(s, events[0]) then None
    else Run(Step(s, events[0]), events[1..])
  }

  /**
   * What holds in every state the page can reach: while loading the form is
   * showing and no error is recorded; on the results page there is no error
   * (and so no scan in flight).
   */
  predicate Inv(s: ScanState) {
    && (s.loading ==> s.page == Scan && s.error == "")
    && (s.page == Results ==> s.error == "" && !s.loading)
  }

  /** The recorded name is only ever the initial one or the form's fixed one. */
  predicate NamedByForm(s: ScanState) {
    s.contractName == "" || s.contractName == DefaultContractName
  }

  lemma StepKeepsInv(s: ScanState, e: Event)
    requires Inv(s) && NamedByForm(s) && Enabled(s, e)
    ensures Inv(Step(s, e)) && NamedByForm(Step(s, e))
  {
  }

  lemma {:induction false} RunKeepsInv(s: ScanState, events: seq<Event>)
    requires Inv(s) && NamedByForm(s)
    ensures Run(s, events).Some? ==> Inv(Run(s, events).value) && NamedByForm(Run(s, events).value)
    decreases |events|
  {
    if events != [] && Enabled(s, events[0]) {
      StepKeepsInv(s, events[0]);
      RunKeepsInv(Step(s, events[0]), events[1..]);
    }
  }

  /** Blank text starts nothing: the state does not change. */
  lemma BlankSubmitStartsNothing(s: ScanState, code: string)
    requires Enabled(s, SubmitForm(code)) && IsBlank(code)
    ensures Step(s, SubmitForm(code)) == s
  {
  }

  /** Non-blank text starts a scan under the fixed name; a second submission is then not offered. */
  lemma SubmitStartsScan(s: ScanState, code: string)
    requires Enabled(s, SubmitForm(code)) && !IsBlank(code)
    ensures Step(s, SubmitForm(code)) == AfterBegin(s, DefaultContractName)
    ensures !Enabled(Step(s, SubmitForm(code)), SubmitForm(code))
  {
  }

  /** A scan that succeeds ends on the results page, not loading, with the response's findings listed in order (or the empty state). */
  lemma SuccessfulScanShowsFindings(s: ScanState, name: string, fs: Option<seq<Finding>>)
    ensures var t := AfterSettle(AfterBegin(s, name), Succeeded(fs));
      && t.page == Results && !t.loading && t.error == "" && t.contractName == name
      && t.findings == fs.GetOr([])
      && (fs.GetOr([]) == [] ==> Render(t).results == NoVulnerabilities)
      && (fs.GetOr([]) != [] ==> Render(t).results.FindingsList? && CardFindings(Render(t).results.cards) == fs.GetOr([]))
  {
  }

  /** A scan that fails keeps the page and findings of before the submission, records the message and stops loading. */
  lemma FailedScanKeepsPage(s: ScanState, name: string, message: string)
    ensures var t := AfterSettle(AfterBegin(s, name), Failed(message));
      && t.page == s.page && t.findings == s.findings && t.error == message && !t.loading
  {
  }

  /** What the page shows. */
  datatype Screen =
    | InputScreen(banner: Option<string>, submitDisabled: bool)
    | ResultsScreen(banner: Option<string>, results: ResultsView)

  /** The error banner `{error && …}`: shown for a non-empty message. */
  function Banner(error: string): (b: Option<string>)
    ensures b.Some? <==> error != ""
    ensures b.Some? ==> b.value == error
  {
    if error == "" then None else Some(error)
  }

  /**
   * The page as written: the form (its button disabled while loading) on the
   * scan page, with no error banner; on the results page the banner and the
   * results view.
   */
  function Render(s: ScanState): (v: Screen)
    ensures v.InputScreen? <==> s.page == Scan
    ensures v.InputScreen? ==> v.banner.None? && v.submitDisabled == s.loading
    ensures v.ResultsScreen? ==> v.banner == Banner(s.error) && v.results == ResultsList(s.findings, s.loading, s.contractName)
  {
    match s.page
    case Scan => InputScreen(None, s.loading)
    case Results => ResultsScreen(Banner(s.error), ResultsList(s.findings, s.loading, s.contractName))
  }

  /**
   * As written, no reachable page ever shows the error banner, so a failed
   * scan's message is never displayed; nor does the results page ever show the
   * scanning indicator.
   */
  lemma ErrorBannerUnreachable(events: seq<Event>)
    ensures Run(Initial, events).Some? ==> Render(Run(Initial, events).value).banner.None?
    ensures Run(Initial, events).Some? && Render(Run(Initial, events).value).ResultsScreen? ==>
      !Render(Run(Initial, events).value).results.Scanning?
  {
    RunKeepsInv(Initial, events);
  }

  /** A failing scan of "contract C {}" records "Service unavailable" and shows the plain form. */
  lemma FailedScanMessageHidden()
    ensures var r := Run(Initial, [SubmitForm("contract C {}"), Settle(Failed("Service unavailable"))]);
      && r.Some? && r.value.error == "Service unavailable" && r.value.page == Scan
      && Render(r.value) == InputScreen(None, false)
  {
  }

  /** The page with the banner over whichever view is active. */
  function RenderWithBanner(s: ScanState): (v: Screen)
    ensures v.InputScreen? <==> s.page == Scan
    ensures v.banner == Banner(s.error)
    ensures v.InputScreen? ==> v.submitDisabled == s.loading
    ensures v.ResultsScreen? ==> v.results == ResultsList(s.findings, s.loading, s.contractName)
  {
    match s.page
    case Scan => InputScreen(Banner(s.error), s.loading)
    case Results => ResultsScreen(Banner(s.error), ResultsList(s.findings, s.loading, s.contractName))
  }

  /** With the banner on both pages, a failed scan's message is shown verbatim on the form. */
  lemma FailedScanMessageShown(events: seq<Event>, message: string)
    requires Run(Initial, events).Some? && Run(Initial, events).value.loading
    requires message != ""
    ensures var t := AfterSettle(Run(Initial, events).value, Failed(message));
      RenderWithBanner(t) == InputScreen(Some(message), false)
  {
    RunKeepsInv(Initial, events);
  }

  /** The five `useState` cells of App. */
  class App {
    var page: Page
    var findings: seq<Finding>
    var contractName: string
    var loading: bool
    var error: string

    function State(): ScanState
      reads this
    {
      ScanState(page, findings, contractName, loading, error)
    }

    ghost predicate Valid()
      reads this
    {
      Inv(State())
    }

    constructor ()
      ensures State() == Initial && Valid()
      ensures Render(State()).banner.None?
    {
      page := Scan;
      findings := [];
      contractName := "";
      loading := false;
      error := "";
    }

    /** `handleScan` up to the `await`; the form's disabled button keeps it from running twice at once. */
    method HandleScanBegin(code: string, name: string) returns (request: ScanRequest)
      requires Valid() && page == Scan && !loading
      modifies this
      ensures Valid()
      ensures State() == AfterBegin(old(State()), name)
      ensures Render(State()).banner.None?
      ensures request == ScanRequest(code, name)
    {
      loading := true;
      error := "";
      contractName := name;
      request := ScanRequest(code, name);
    }

    /** `handleScan` from the `await` on: the `try` body or the `catch`, then the `finally`. */
    method HandleScanSettle(outcome: ScanOutcome)
      requires Valid() && loading
      modifies this
      ensures Valid()
      ensures State() == AfterSettle(old(State()), outcome)
      ensures Render(State()).banner.None?
    {
      match outcome {
        case Succeeded(fs) =>
          findings := fs.GetOr([]);
          page := Results;
        case Failed(message) =>
          error := message;
      }
      loading := false;
    }

    /** The "New Scan" button. */
    method NewScan()
      requires Valid()
      modifies this
      ensures Valid()
      ensures State() == AfterNewScan(old(State()))
      ensures Render(State()).banner.None?
    {
      page := Scan;
    }

    /** The form wired to `handleScan`: a blank submission leaves the controller alone. */
    method SubmitFromForm(form: ScanForm) returns (request: Option<ScanRequest>)
      requires Valid() && page == Scan && !loading
      modifies this, form
      ensures Valid()
      ensures State() == Step(old(State()), SubmitForm(old(form.code)))
      ensures Render(State()).banner.None?
      ensures request.None? <==> IsBlank(old(form.code))
      ensures request.Some? ==> request.value == ScanRequest(old(form.code), DefaultContractName)
      ensures form.code == old(form.code)
      ensures request.None? ==> form.error == EmptyCodeMessage
      ensures request.Some? ==> form.error == "" && form.ErrorShown().None?
    {
      var emitted := form.Submit();
      match emitted
      case None =>
        request := None;
      case Some(sub) =>
        var r := HandleScanBegin(sub.code, sub.name);
        request := Some(r);
    }
  }
}
