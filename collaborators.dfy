/** The collaborators the dashboard components call but whose code is not part of this
    model: the widget store, the API client, the field extractor and the modal's
    `onClose` callback. Their data shapes are given as values; every call made into
    them is appended to a log, in order, and nothing is assumed about what they do. */
module Collaborators {

  /** A parsed JSON value, carried as an opaque sample or payload. */
  datatype Json =
    | JNull
    | JBool(b: bool)
    | JNumber(n: int)
    | JString(s: string)
    | JArray(items: seq<Json>)
    | JObject(members: seq<(string, Json)>)

  /** One descriptor produced by `extractFields`: where it is, its inferred type tag
      (`"string"`, `"number"`, ...) and a sample value. */
  datatype Field = Field(path: string, fieldType: string, value: Json)

  /** The part of a stored widget the dashboard reads. `widgetType`, the widget's
      `type` field, is a plain string because the renderer has a branch for tags other
      than the three known ones. */
  datatype Widget = Widget(
    id: string,
    name: string,
    widgetType: string,
    apiUrl: string,
    position: int,
    isLoading: bool)

  /** The argument of the store's `addWidget`. */
  datatype WidgetConfig = WidgetConfig(
    name: string,
    widgetType: string,
    apiUrl: string,
    selectedFields: seq<string>,
    refreshInterval: int,
    theme: string)

  /** A call into a collaborator. */
  datatype Call =
    | FetchApi(url: string)                          // apiClient.fetch({ url })
    | RefreshWidget(id: string)                      // store.refreshWidget(id)
    | ReorderWidgets(fromIndex: nat, toIndex: nat)   // store.reorderWidgets(from, to)
    | AddWidget(config: WidgetConfig)                // store.addWidget(config)
    | CloseModal                                     // the modal's onClose()

  /** The ordered record of every call made into the collaborators. */
  class CallLog {
    var calls: seq<Call>

    constructor ()
      ensures calls == []
    {
      calls := [];
    }

    method Record(c: Call)
      modifies this
      ensures calls == old(calls) + [c]
    {
      calls := calls + [c];
    }
  }
}
