/** The legacy three-tab Publication creation wizard
    (src/client/components/forms/publication.jsx): its component state, the
    handlers that change it, the flags render derives from it, and which
    navigation controls render wires to which tab. */
module PublicationWizard {
  import opened Options
  import opened PublicationPayload

  /** The tabs, by their nav keys. */
  const AliasesTab: int := 1
  const DataTab: int := 2
  const RevisionTab: int := 3

  /** The error a failed request is rejected with; its shape is not read. */
  type RequestError = string

  /** How the creation request settles. */
  datatype Outcome = Ok(response: Response) | Err(error: RequestError)

  /** A navigation control the user can activate: a step's "next" or "back"
      button, or a nav item, which passes its key. */
  datatype NavEvent = Next | Back | SelectTab(key: int)

  /** Whether render puts the control on screen while `tab` is shown. The
      Aliases step has only "next", the PublicationData step both buttons,
      the RevisionNote step only "back"; each step is visible only on its own
      tab. The nav items carry the keys 1, 2 and 3 and are always shown. */
  predicate Wired(tab: int, ev: NavEvent)
  {
    match ev
    case Next => tab == AliasesTab || tab == DataTab
    case Back => tab == DataTab || tab == RevisionTab
    case SelectTab(key) => key == AliasesTab || key == DataTab || key == RevisionTab
  }

  /** The tab the handler of a control moves to: nextClick adds one,
      backClick subtracts one, handleTab takes the key as it is. */
  function TabAfter(tab: int, ev: NavEvent): (r: int)
    ensures ev.Next? ==> r == tab + 1
    ensures ev.Back? ==> r == tab - 1
    ensures ev.SelectTab? ==> r == ev.key
  {
    match ev
    case Next => tab + 1
    case Back => tab - 1
    case SelectTab(key) => key
  }

  /** The tab reached after a series of controls. */
  function TabAfterAll(tab: int, evs: seq<NavEvent>): (r: int)
    decreases |evs|
  {
    if evs == [] then tab else TabAfterAll(TabAfter(tab, evs[0]), evs[1..])
  }

  /** Every control in the series was on screen when it was used. */
  predicate AllWired(tab: int, evs: seq<NavEvent>)
    decreases |evs|
  {
    evs == [] || (Wired(tab, evs[0]) && AllWired(TabAfter(tab, evs[0]), evs[1..]))
  }

  /** No control that is on screen moves the wizard off its three tabs. */
  lemma WiredEventStaysInRange(tab: int, ev: NavEvent)
    requires AliasesTab <= tab <= RevisionTab && Wired(tab, ev)
    ensures AliasesTab <= TabAfter(tab, ev) <= RevisionTab
  {
  }

  /** Whatever the user clicks, the wizard stays on one of its three tabs. */
  lemma {:induction false} WiredEventsStayInRange(tab: int, evs: seq<NavEvent>)
    requires AliasesTab <= tab <= RevisionTab && AllWired(tab, evs)
    ensures AliasesTab <= TabAfterAll(tab, evs) <= RevisionTab
    decreases |evs|
  {
    if evs != [] {
      WiredEventStaysInRange(tab, evs[0]);
      WiredEventsStayInRange(TabAfter(tab, evs[0]), evs[1..]);
    }
  }

  /** The end steps lack the control that points outward: the last has no
      "next" and the first no "back"; either would leave the three tabs. */
  lemma EndTabsLackOutwardControl()
    ensures !Wired(RevisionTab, Next) && TabAfter(RevisionTab, Next) == 4
    ensures !Wired(AliasesTab, Back) && TabAfter(AliasesTab, Back) == 0
  {
  }

  /** What render derives from the state. */
  datatype WizardView = WizardView(
    spinner: bool,
    activeKey: int,
    aliasesWarning: bool,
    dataWarning: bool,
    submitDisabled: bool,
    aliasesVisible: bool,
    dataVisible: bool,
    revisionVisible: bool)

  /** The view of a given state: the spinner while waiting, a warning icon on
      a tab whose step was invalid when last read, submission disabled
      unless both steps were valid, and the step of the current tab shown. */
  function ViewOf(tab: int, aliasesValid: bool, dataValid: bool, waiting: bool): (v: WizardView)
    ensures v.spinner <==> waiting
    ensures v.activeKey == tab
    ensures v.aliasesWarning <==> !aliasesValid
    ensures v.dataWarning <==> !dataValid
    ensures !v.submitDisabled <==> aliasesValid && dataValid
  {
    WizardView(
      waiting,
      tab,
      !aliasesValid,
      !dataValid,
      !(aliasesValid && dataValid),
      tab == AliasesTab,
      tab == DataTab,
      tab == RevisionTab)
  }

  /** Submission is offered exactly when neither tab shows a warning. */
  lemma SubmitEnabledIffNoWarning(tab: int, aliasesValid: bool, dataValid: bool, waiting: bool)
    ensures var v := ViewOf(tab, aliasesValid, dataValid, waiting);
      !v.submitDisabled <==> !v.aliasesWarning && !v.dataWarning
  {
  }

  /** On one of the three tabs exactly one step is visible, and it is the
      step of that tab; off them no step is. */
  lemma ExactlyOneStepVisible(tab: int, aliasesValid: bool, dataValid: bool, waiting: bool)
    ensures var v := ViewOf(tab, aliasesValid, dataValid, waiting);
      && (AliasesTab <= tab <= RevisionTab <==>
          (if v.aliasesVisible then 1 else 0) + (if v.dataVisible then 1 else 0)
            + (if v.revisionVisible then 1 else 0) == 1)
      && (v.aliasesVisible <==> tab == AliasesTab)
      && (v.dataVisible <==> tab == DataTab)
      && (v.revisionVisible <==> tab == RevisionTab)
  {
  }

  /** The wizard component. Besides its state fields it records, as plain
      data, the effects it has on the world: every creation request it has
      posted, and the navigation the browser was last told to perform. */
  class Wizard {
    var tab: int
    var aliasesValid: bool
    var dataValid: bool
    var waiting: bool
    var error: Option<RequestError>
    var requests: seq<Payload>
    var location: Option<Navigation>

    /** The wizard is on one of its three tabs. */
    predicate OnATab()
      reads this
    {
      AliasesTab <= tab <= RevisionTab
    }

    /** getInitialState: the first tab, both steps taken as valid, nothing
        pending, no error. */
    constructor ()
      ensures tab == AliasesTab && aliasesValid && dataValid && !waiting
      ensures error == None && requests == [] && location == None
      ensures OnATab()
    {
      tab := AliasesTab;
      aliasesValid := true;
      dataValid := true;
      waiting := false;
      error := None;
      requests := [];
      location := None;
    }

    /** What render shows for the current state. */
    function View(): (v: WizardView)
      reads this
      ensures v.spinner <==> waiting
      ensures v.activeKey == tab
      ensures v.aliasesWarning <==> !aliasesValid
      ensures v.dataWarning <==> !dataValid
      ensures !v.submitDisabled <==> !v.aliasesWarning && !v.dataWarning
      ensures v.revisionVisible && !v.submitDisabled <==> tab == RevisionTab && aliasesValid && dataValid
      ensures OnATab() <==> (if v.aliasesVisible then 1 else 0) + (if v.dataVisible then 1 else 0)
                              + (if v.revisionVisible then 1 else 0) == 1
    {
      ViewOf(tab, aliasesValid, dataValid, waiting)
    }

    /** setTab: move to `t` and re-read both steps' current validity. */
    method SetTab(t: int, aliasesValidNow: bool, dataValidNow: bool)
      modifies this
      ensures tab == t && aliasesValid == aliasesValidNow && dataValid == dataValidNow
      ensures waiting == old(waiting) && error == old(error)
      ensures requests == old(requests) && location == old(location)
    {
      tab, aliasesValid, dataValid := t, aliasesValidNow, dataValidNow;
    }

    /** backClick. */
    method BackClick(aliasesValidNow: bool, dataValidNow: bool)
      modifies this
      ensures tab == old(tab) - 1 && aliasesValid == aliasesValidNow && dataValid == dataValidNow
      ensures waiting == old(waiting) && error == old(error)
      ensures requests == old(requests) && location == old(location)
    {
      SetTab(tab - 1, aliasesValidNow, dataValidNow);
    }

    /** nextClick. */
    method NextClick(aliasesValidNow: bool, dataValidNow: bool)
      modifies this
      ensures tab == old(tab) + 1 && aliasesValid == aliasesValidNow && dataValid == dataValidNow
      ensures waiting == old(waiting) && error == old(error)
      ensures requests == old(requests) && location == old(location)
    {
      SetTab(tab + 1, aliasesValidNow, dataValidNow);
    }

    /** handleTab: the nav's select handler. */
    method HandleTab(tabKey: int, aliasesValidNow: bool, dataValidNow: bool)
      modifies this
      ensures tab == tabKey && aliasesValid == aliasesValidNow && dataValid == dataValidNow
      ensures waiting == old(waiting) && error == old(error)
      ensures requests == old(requests) && location == old(location)
    {
      SetTab(tabKey, aliasesValidNow, dataValidNow);
    }

    /** The user activates a navigation control; the handler render wired to
        it runs. A control that is on screen keeps the wizard on its tabs. */
    method Navigate(ev: NavEvent, aliasesValidNow: bool, dataValidNow: bool)
      modifies this
      ensures tab == TabAfter(old(tab), ev)
      ensures aliasesValid == aliasesValidNow && dataValid == dataValidNow
      ensures waiting == old(waiting) && error == old(error)
      ensures requests == old(requests) && location == old(location)
      ensures old(OnATab()) && Wired(old(tab), ev) ==> OnATab()
    {
      match ev
      case Next => NextClick(aliasesValidNow, dataValidNow);
      case Back => BackClick(aliasesValidNow, dataValidNow);
      case SelectTab(key) => HandleTab(key, aliasesValidNow, dataValidNow);
    }

    /** handleSubmit: build the payload from the steps' current values, set
        `waiting` and post the payload. It does not look at the validity
        flags nor at `waiting`: a second call posts a second request. */
    method HandleSubmit(parseInt: ParseInt, rows: seq<AliasRow>, data: PublicationFields, note: string)
      modifies this
      ensures waiting
      ensures requests == old(requests) + [BuildPayload(parseInt, rows, data, note)]
      ensures tab == old(tab) && aliasesValid == old(aliasesValid) && dataValid == old(dataValid)
      ensures error == old(error) && location == old(location)
    {
      var payload := BuildPayload(parseInt, rows, data, note);
      waiting := true;
      requests := requests + [payload];
    }

    /** The posted request settles. On success the browser is sent to the
        login page or to the new publication; on failure only `error` is
        set, and `waiting` stays as it was, so the spinner stays up. */
    method Resolve(outcome: Outcome)
      modifies this
      ensures outcome.Ok? ==> location == Some(RedirectFor(outcome.response)) && error == old(error)
      ensures outcome.Err? ==> error == Some(outcome.error) && location == old(location)
      ensures waiting == old(waiting) && tab == old(tab)
      ensures aliasesValid == old(aliasesValid) && dataValid == old(dataValid)
      ensures requests == old(requests)
    {
      match outcome
      case Ok(response) => location := Some(RedirectFor(response));
      case Err(e) => error := Some(e);
    }
  }

  /** A session: open the wizard, submit, and see the request fail. The
      spinner is still shown afterwards and the failed payload is on record. */
  method FailedSubmissionLeavesSpinner(parseInt: ParseInt, rows: seq<AliasRow>, data: PublicationFields,
                                       note: string, e: RequestError)
    returns (v: WizardView, posted: seq<Payload>)
    ensures v.spinner
    ensures posted == [BuildPayload(parseInt, rows, data, note)]
  {
    var w := new Wizard();
    w.HandleSubmit(parseInt, rows, data, note);
    w.Resolve(Err(e));
    v := w.View();
    posted := w.requests;
  }
}
