/** The "Create a widget" dialog: eight state cells, the submit handler that hands the
    form to the store's `addWidget` and resets it, the display-mode wrapper passed to
    the configure tab, and the two enabling conditions. */
module AddWidgetModal {
  import opened Wrappers
  import opened Collaborators

  datatype DisplayMode = Card | Table | Chart {
    /** The tag the store receives as the widget's `type`. */
    function Name(): (s: string)
      ensures s in ["card", "table", "chart"]
    {
      match this
      case Card => "card"
      case Table => "table"
      case Chart => "chart"
    }
  }

  /** The outcome of the last "Test API" press, as the result panel shows it. */
  datatype ApiTestResult = ApiTestResult(
    success: bool,
    message: string,
    fields: seq<Field>,
    rawData: Option<Json>)

  /** A snapshot of the dialog's state cells. */
  datatype FormState = FormState(
    widgetName: string,
    apiUrl: string,
    refreshInterval: int,
    displayMode: DisplayMode,
    selectedTheme: string,
    selectedFields: seq<string>,
    currentTab: string,
    apiTestResult: Option<ApiTestResult>)

  const DefaultRefreshInterval: int := 30

  /** The values the cells start with and are reset to. */
  const InitialForm: FormState :=
    FormState("", "", DefaultRefreshInterval, Card, "default", [], "configure", None)

  /** `apiTestResult?.success`: a result exists and it reports success. */
  predicate TestSucceeded(s: FormState) {
    s.apiTestResult.Some? && s.apiTestResult.value.success
  }

  /** The guard of the submit handler (`canUseApi`). It does not look at the selection. */
  predicate SubmitAllowed(s: FormState)
    ensures SubmitAllowed(s) ==> CanProceed(s) && s.apiUrl != ""
  {
    s.widgetName != "" && s.apiUrl != "" && TestSucceeded(s)
  }

  /** `canProceed`: a name and a successful test. */
  predicate CanProceed(s: FormState) {
    s.widgetName != "" && TestSucceeded(s)
  }

  /** The Add button is enabled when none of its three disabling conditions holds. */
  predicate AddButtonEnabled(s: FormState)
    ensures AddButtonEnabled(s) ==> CanProceed(s) && |s.selectedFields| > 0
  {
    !(!TestSucceeded(s) || |s.selectedFields| == 0 || s.widgetName == "")
  }

  /** What the submit handler passes to `addWidget`. */
  function ConfigOf(s: FormState): WidgetConfig {
    WidgetConfig(s.widgetName, s.displayMode.Name(), s.apiUrl, s.selectedFields,
                 s.refreshInterval, s.selectedTheme)
  }

  /** How the three conditions relate: the button adds a non-empty selection to
      `canProceed`, the submit guard adds a non-empty URL to it. */
  lemma GuardsCompared(s: FormState)
    ensures AddButtonEnabled(s) <==> CanProceed(s) && |s.selectedFields| > 0
    ensures SubmitAllowed(s) <==> CanProceed(s) && s.apiUrl != ""
    ensures AddButtonEnabled(s) ==> CanProceed(s)
    ensures SubmitAllowed(s) ==> CanProceed(s)
  {
  }

  /** A successful test in the state cells used by the two witnesses below. */
  const Tested: ApiTestResult := ApiTestResult(true, "ok", [], None)

  /** The button is no stronger than the handler: the URL can be cleared after a
      successful test, which leaves the button enabled while a press does nothing. */
  lemma EnabledButtonMayNotSubmit()
    ensures exists s :: AddButtonEnabled(s) && !SubmitAllowed(s)
  {
    var s := InitialForm.(widgetName := "w", selectedFields := ["p"], apiTestResult := Some(Tested));
    assert AddButtonEnabled(s) && !SubmitAllowed(s);
  }

  /** The handler is no stronger than the button on the selection: it would submit an
      empty selection. */
  lemma SubmitIgnoresSelection()
    ensures exists s :: SubmitAllowed(s) && s.selectedFields == [] && !AddButtonEnabled(s)
  {
    var s := InitialForm.(widgetName := "w", apiUrl := "u", apiTestResult := Some(Tested));
    assert SubmitAllowed(s) && s.selectedFields == [] && !AddButtonEnabled(s);
  }

  /** The reset state neither submits nor enables any button, so a second press after
      a successful submit adds nothing. */
  lemma InitialFormIsInert()
    ensures !SubmitAllowed(InitialForm) && !CanProceed(InitialForm) && !AddButtonEnabled(InitialForm)
  {
  }

  /** Right after a display-mode change nothing can be added: no guard holds. */
  lemma ModeChangeRequiresNewTest(s: FormState, mode: DisplayMode)
    ensures var t := s.(displayMode := mode, apiTestResult := None, selectedFields := []);
      !SubmitAllowed(t) && !CanProceed(t) && !AddButtonEnabled(t)
  {
  }

  /** The dialog's state cells; `log` receives its calls to `addWidget` and `onClose`. */
  class AddWidgetForm {
    var widgetName: string
    var apiUrl: string
    var refreshInterval: int
    var displayMode: DisplayMode
    var selectedTheme: string
    var selectedFields: seq<string>
    var currentTab: string
    var apiTestResult: Option<ApiTestResult>
    const log: CallLog

    function State(): FormState
      reads this
    {
      FormState(widgetName, apiUrl, refreshInterval, displayMode, selectedTheme,
                selectedFields, currentTab, apiTestResult)
    }

    constructor (log: CallLog)
      ensures State() == InitialForm && this.log == log
    {
      widgetName := "";
      apiUrl := "";
      refreshInterval := DefaultRefreshInterval;
      displayMode := Card;
      selectedTheme := "default";
      selectedFields := [];
      currentTab := "configure";
      apiTestResult := None;
      this.log := log;
    }

    /** The name input's change handler. */
    method SetWidgetName(name: string)
      modifies this
      ensures State() == old(State()).(widgetName := name)
    {
      widgetName := name;
    }

    /** The URL input's change handler; it keeps an earlier test result. */
    method SetApiUrl(url: string)
      modifies this
      ensures State() == old(State()).(apiUrl := url)
    {
      apiUrl := url;
    }

    /** The interval input's change handler: the number is stored as given. */
    method SetRefreshInterval(interval: int)
      modifies this
      ensures State() == old(State()).(refreshInterval := interval)
    {
      refreshInterval := interval;
    }

    /** The theme tab's selection handler. */
    method SetSelectedTheme(theme: string)
      modifies this
      ensures State() == old(State()).(selectedTheme := theme)
    {
      selectedTheme := theme;
    }

    /** The wrapper handed to the configure tab as `setDisplayMode`: a new mode
        invalidates the test result and the selection. */
    method ChangeDisplayMode(mode: DisplayMode)
      modifies this
      ensures State() == old(State()).(displayMode := mode, apiTestResult := None,
                                        selectedFields := [])
    {
      displayMode := mode;
      apiTestResult := None;
      selectedFields := [];
    }

    /** The Cancel button calls `onClose` directly: the cells keep their values. */
    method Cancel()
      modifies log
      ensures log.calls == old(log.calls) + [CloseModal]
    {
      log.Record(CloseModal);
    }

    /** `handleSubmit`: when the guard holds, one `addWidget` with the current form,
        every cell back to its initial value, then `onClose`; otherwise nothing. */
    method HandleSubmit()
      modifies this, log
      ensures SubmitAllowed(old(State())) ==>
        State() == InitialForm &&
        log.calls == old(log.calls) + [AddWidget(ConfigOf(old(State()))), CloseModal]
      ensures !SubmitAllowed(old(State())) ==>
        State() == old(State()) && log.calls == old(log.calls)
    {
      var canUseApi := widgetName != "" && apiUrl != "" &&
                       apiTestResult.Some? && apiTestResult.value.success;
      if !canUseApi {
        return;
      }
      log.Record(AddWidget(WidgetConfig(widgetName, displayMode.Name(), apiUrl,
                                        selectedFields, refreshInterval, selectedTheme)));
      widgetName := "";
      apiUrl := "";
      refreshInterval := DefaultRefreshInterval;
      displayMode := Card;
      selectedTheme := "default";
      selectedFields := [];
      currentTab := "configure";
      apiTestResult := None;
      log.Record(CloseModal);
    }
  }
}
