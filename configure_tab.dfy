/** The configure tab of the widget builder: probing the API, building the test result,
    preselecting default fields, the field checkboxes and the cap on offered fields. */
module ConfigureTab {
  import opened Wrappers
  import opened Decimal
  import opened Collaborators
  import opened AddWidgetModal

  /** How the awaited part of a test ends: the response's payload together with what
      `extractFields` made of it, or a thrown value (`Some(message)` for an `Error`). */
  datatype FetchOutcome =
    | Fetched(data: Json, fields: seq<Field>)
    | Threw(errorMessage: Option<string>)

  /** What the test handler's closure captured when the button was pressed. */
  datatype Probe = Probe(url: string, mode: DisplayMode)

  const SuccessPrefix: string := "API connection successful! "
  const SuccessSuffix: string := " fields found."
  const FallbackFailureMessage: string := "Failed to connect to API"

  /** At most this many fields are offered as checkboxes. */
  const MaxOfferedFields: nat := 40

  /** In the other display modes this many leading fields are preselected. */
  const DefaultFieldCount: nat := 4

  function Min(a: nat, b: nat): nat {
    if a <= b then a else b
  }

  function SuccessMessage(count: nat): string {
    SuccessPrefix + NatToString(count) + SuccessSuffix
  }

  /** The success message states the number of fields, and the number can be read back
      from between its fixed prefix and suffix. */
  lemma SuccessMessageReportsCount(count: nat)
    ensures var m := SuccessMessage(count);
      |m| > |SuccessPrefix| + |SuccessSuffix| &&
      m[..|SuccessPrefix|] == SuccessPrefix &&
      m[|m| - |SuccessSuffix|..] == SuccessSuffix &&
      AllDigits(m[|SuccessPrefix|..|m| - |SuccessSuffix|]) &&
      DecimalValue(m[|SuccessPrefix|..|m| - |SuccessSuffix|]) == count
  {
    var m := SuccessMessage(count);
    assert m[|SuccessPrefix|..|m| - |SuccessSuffix|] == NatToString(count);
    DecimalRoundTrip(count);
  }

  function FailureMessage(errorMessage: Option<string>): string {
    match errorMessage
    case Some(text) => text
    case None => FallbackFailureMessage
  }

  /** The result shown after the awaited part of a test. */
  function ResultOf(outcome: FetchOutcome): (r: ApiTestResult)
    ensures r.success <==> outcome.Fetched?
    ensures outcome.Fetched? ==>
      r.fields == outcome.fields && r.rawData == Some(outcome.data) &&
      r.message == SuccessMessage(|outcome.fields|)
    ensures outcome.Threw? ==>
      r.fields == [] && r.rawData == None &&
      (outcome.errorMessage.Some? ==> r.message == outcome.errorMessage.value) &&
      (outcome.errorMessage.None? ==> r.message == FallbackFailureMessage)
  {
    match outcome
    case Fetched(data, fields) =>
      ApiTestResult(true, SuccessMessage(|fields|), fields, Some(data))
    case Threw(errorMessage) =>
      ApiTestResult(false, FailureMessage(errorMessage), [], None)
  }

  /** `fields.find(f => f.type === t)`, as an index. */
  function FindType(fields: seq<Field>, t: string): (r: Option<nat>)
    ensures r.Some? ==> IsFirstOfType(fields, r.value, t)
    ensures r.None? ==> forall j :: 0 <= j < |fields| ==> fields[j].fieldType != t
  {
    if fields == [] then None
    else if fields[0].fieldType == t then Some(0)
    else match FindType(fields[1..], t)
      case None => None
      case Some(k) => Some(k + 1)
  }

  /** Field `i` is the earliest one whose type is `t`. */
  predicate IsFirstOfType(fields: seq<Field>, i: int, t: string) {
    0 <= i < |fields| && fields[i].fieldType == t &&
    forall j :: 0 <= j < i ==> fields[j].fieldType != t
  }

  /** The path of an optional match (`?.path`). */
  function PathAt(fields: seq<Field>, i: Option<nat>): Option<string>
    requires i.Some? ==> i.value < |fields|
  {
    match i
    case None => None
    case Some(k) => Some(fields[k].path)
  }

  /** `.filter(Boolean)` on one entry: keeps a defined, non-empty path. */
  function Truthy(p: Option<string>): seq<string> {
    if p.Some? && p.value != "" then [p.value] else []
  }

  function Paths(fields: seq<Field>): (r: seq<string>)
    ensures |r| == |fields| && forall i :: 0 <= i < |r| ==> r[i] == fields[i].path
  {
    if fields == [] then [] else [fields[0].path] + Paths(fields[1..])
  }

  /** The selection made right after a successful test. */
  function DefaultSelection(mode: DisplayMode, fields: seq<Field>): (r: seq<string>)
    ensures |r| <= DefaultFieldCount
    ensures forall k :: 0 <= k < |r| ==> exists i :: 0 <= i < |fields| && fields[i].path == r[k]
  {
    if mode == Chart then
      var labelPath := PathAt(fields, FindType(fields, "string"));
      var numericPath := PathAt(fields, FindType(fields, "number"));
      Truthy(labelPath) + Truthy(numericPath)
    else
      Paths(fields[..Min(DefaultFieldCount, |fields|)])
  }

  /** Outside chart mode the defaults are the first min(4, n) paths, in order. */
  lemma DefaultSelectionLeadingPaths(mode: DisplayMode, fields: seq<Field>)
    requires mode != Chart
    ensures var r := DefaultSelection(mode, fields);
      |r| == Min(DefaultFieldCount, |fields|) &&
      forall i :: 0 <= i < |r| ==> r[i] == fields[i].path
  {
  }

  /** In chart mode the defaults are the first string-typed path, then the first
      number-typed path, each left out when there is none or when it is empty. */
  lemma DefaultSelectionForChart(fields: seq<Field>)
    ensures var r := DefaultSelection(Chart, fields);
      |r| <= 2 &&
      (forall k :: 0 <= k < |r| ==> r[k] != "") &&
      (forall i :: IsFirstOfType(fields, i, "string") ==>
        (fields[i].path != "" <==> 0 < |r| && r[0] == fields[i].path)) &&
      (forall j :: IsFirstOfType(fields, j, "number") ==>
        (fields[j].path != "" <==> 0 < |r| && r[|r| - 1] == fields[j].path)) &&
      (|r| == 2 ==> exists i, j :: IsFirstOfType(fields, i, "string") &&
                                   IsFirstOfType(fields, j, "number") &&
                                   r == [fields[i].path, fields[j].path]) &&
      (|r| == 1 ==> exists i :: (IsFirstOfType(fields, i, "string") ||
                                 IsFirstOfType(fields, i, "number")) &&
                               r == [fields[i].path]) &&
      (forall i, j ::
         (IsFirstOfType(fields, i, "string") && IsFirstOfType(fields, j, "number") &&
          fields[i].path != "" && fields[j].path != "") ==>
         r == [fields[i].path, fields[j].path])
  {
  }

  /** `selectedFields.filter(p => p !== path)`. */
  function RemovePath(selected: seq<string>, path: string): (r: seq<string>)
    ensures path !in r
    ensures forall q :: q != path ==> (q in r <==> q in selected)
    ensures |r| <= |selected|
  {
    if selected == [] then []
    else (if selected[0] == path then [] else [selected[0]]) + RemovePath(selected[1..], path)
  }

  /** Removing distributes over concatenation, so the remaining paths keep their order. */
  lemma {:induction false} RemovePathDistributes(a: seq<string>, b: seq<string>, path: string)
    ensures RemovePath(a + b, path) == RemovePath(a, path) + RemovePath(b, path)
  {
    if a != [] {
      assert (a + b)[1..] == a[1..] + b;
      RemovePathDistributes(a[1..], b, path);
    } else {
      assert a + b == b;
    }
  }

  /** Removing a path that is not selected changes nothing. */
  lemma {:induction false} RemoveAbsentPath(selected: seq<string>, path: string)
    requires path !in selected
    ensures RemovePath(selected, path) == selected
  {
    if selected != [] {
      RemoveAbsentPath(selected[1..], path);
    }
  }

  /** A checkbox's change handler: checking appends, unchecking removes. */
  function ToggledSelection(selected: seq<string>, path: string, checked: bool): (r: seq<string>)
    ensures path in r <==> checked
    ensures forall q :: q != path ==> (q in r <==> q in selected)
  {
    if checked then selected + [path] else RemovePath(selected, path)
  }

  predicate NoDuplicates(s: seq<string>) {
    forall i, j :: 0 <= i < j < |s| ==> s[i] != s[j]
  }

  lemma {:induction false} RemovePathKeepsNoDuplicates(selected: seq<string>, path: string)
    requires NoDuplicates(selected)
    ensures NoDuplicates(RemovePath(selected, path))
  {
    if selected != [] {
      RemovePathKeepsNoDuplicates(selected[1..], path);
      assert selected[0] !in selected[1..];
    }
  }

  /** A click flips the box (`checked` becomes the opposite of `includes(path)`), so a
      duplicate-free selection stays duplicate-free. */
  lemma ClickKeepsNoDuplicates(selected: seq<string>, path: string, checked: bool)
    requires NoDuplicates(selected)
    requires checked == (path !in selected)
    ensures NoDuplicates(ToggledSelection(selected, path, checked))
  {
    if !checked {
      RemovePathKeepsNoDuplicates(selected, path);
    }
  }

  /** Checking a box appends its path; unchecking it again restores the selection. */
  lemma CheckThenUncheck(selected: seq<string>, path: string)
    requires path !in selected
    ensures ToggledSelection(selected, path, true) == selected + [path]
    ensures ToggledSelection(ToggledSelection(selected, path, true), path, false) == selected
  {
    RemovePathDistributes(selected, [path], path);
    RemoveAbsentPath(selected, path);
    assert RemovePath([path], path) == [];
  }

  /** The fields offered as checkboxes: only after a successful test with at least one
      field, and then no more than the first forty. */
  function OfferedFields(result: Option<ApiTestResult>): (r: seq<Field>)
    ensures |r| <= MaxOfferedFields
    ensures r != [] ==> result.Some? && result.value.success && r <= result.value.fields
    ensures result.Some? && result.value.success ==>
      |r| == Min(MaxOfferedFields, |result.value.fields|)
  {
    if result.Some? && result.value.success && |result.value.fields| > 0 then
      result.value.fields[..Min(MaxOfferedFields, |result.value.fields|)]
    else
      []
  }

  /** The tab's own cell and the dialog whose cells it sets through its props. */
  class ConfigureTabState {
    var isTestingApi: bool
    const form: AddWidgetForm

    constructor (form: AddWidgetForm)
      ensures !isTestingApi && this.form == form
    {
      isTestingApi := false;
      this.form := form;
    }

    /** The "Test API" button is enabled for a non-empty URL while no test runs. */
    predicate TestButtonEnabled()
      reads this, form
    {
      form.apiUrl != "" && !isTestingApi
    }

    /** The synchronous part of `handleTestApi`, up to the awaited fetch. With an empty
        URL nothing happens; otherwise the tab is marked testing, the old result is
        cleared, the fetch is issued, and the returned probe is what the rest of the
        handler will use. */
    method HandleTestApi() returns (probe: Option<Probe>)
      modifies this, form, form.log
      ensures old(form.apiUrl) == "" ==>
        probe == None && isTestingApi == old(isTestingApi) &&
        form.State() == old(form.State()) && form.log.calls == old(form.log.calls)
      ensures old(form.apiUrl) != "" ==>
        probe == Some(Probe(old(form.apiUrl), old(form.displayMode))) && isTestingApi &&
        form.State() == old(form.State()).(apiTestResult := None) &&
        form.log.calls == old(form.log.calls) + [FetchApi(old(form.apiUrl))]
      ensures old(TestButtonEnabled()) ==>
        probe.Some? && form.log.calls == old(form.log.calls) + [FetchApi(old(form.apiUrl))]
    {
      if form.apiUrl == "" {
        return None;
      }
      isTestingApi := true;
      form.apiTestResult := None;
      form.log.Record(FetchApi(form.apiUrl));
      probe := Some(Probe(form.apiUrl, form.displayMode));
    }

    /** The awaited part of `handleTestApi`: on success the result and the default
        selection for the captured mode; on failure a failed result with no fields and
        the selection left alone; in both cases the testing flag is cleared. */
    method CompleteTestApi(probe: Probe, outcome: FetchOutcome)
      modifies this, form
      ensures !isTestingApi
      ensures outcome.Fetched? ==>
        form.State() == old(form.State()).(
          apiTestResult := Some(ResultOf(outcome)),
          selectedFields := DefaultSelection(probe.mode, outcome.fields))
      ensures outcome.Threw? ==>
        form.State() == old(form.State()).(apiTestResult := Some(ResultOf(outcome)))
    {
      form.apiTestResult := Some(ResultOf(outcome));
      if outcome.Fetched? {
        form.selectedFields := DefaultSelection(probe.mode, outcome.fields);
      }
      isTestingApi := false;
    }

    /** The change handler of the checkbox for `path`. */
    method OnFieldChecked(path: string, checked: bool)
      modifies form
      ensures form.State() == old(form.State()).(
        selectedFields := ToggledSelection(old(form.selectedFields), path, checked))
    {
      if checked {
        form.selectedFields := form.selectedFields + [path];
      } else {
        form.selectedFields := RemovePath(form.selectedFields, path);
      }
    }
  }
}
