/** The dialog and its configure tab together: the dialog renders the tab and hands it
    its state setters, so the tab's handlers change the dialog's cells. */
module WidgetBuilder {
  import opened Collaborators
  import opened AddWidgetModal
  import opened ConfigureTab

  /** The dialog used the way its controls allow: name, URL, a test that succeeds and
      finds at least one field, then Add, which is enabled at that point. The store
      receives one widget with the preselected fields, and the dialog is closed and
      reset. */
  method CreateWidgetFlow(name: string, url: string, data: Json, fields: seq<Field>)
    returns (log: CallLog)
    requires name != "" && url != "" && fields != []
    ensures log.calls == [FetchApi(url),
                          AddWidget(WidgetConfig(name, "card", url,
                                                 DefaultSelection(Card, fields), 30, "default")),
                          CloseModal]
  {
    log := new CallLog();
    var form := new AddWidgetForm(log);
    var tab := new ConfigureTabState(form);
    form.SetWidgetName(name);
    form.SetApiUrl(url);
    var probe := tab.HandleTestApi();
    tab.CompleteTestApi(probe.value, Fetched(data, fields));
    assert AddButtonEnabled(form.State());
    form.HandleSubmit();
  }
}
