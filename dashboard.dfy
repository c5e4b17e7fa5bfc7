/** The dashboard page: the periodic refresh tick, the drag-end handler, the grid that
    shows the widgets in position order, the renderer dispatch and the type counts. */
module Dashboard {
  import opened Wrappers
  import opened Collaborators

  // ---------------------------------------------------------------- refresh tick

  /** A widget the tick refreshes: not loading and with a non-empty URL. */
  predicate Eligible(w: Widget) {
    !w.isLoading && w.apiUrl != ""
  }

  /** The calls one tick makes, walking the widgets in collection order. */
  function TickCalls(ws: seq<Widget>): (r: seq<Call>)
    ensures |r| <= |ws|
    ensures forall k :: 0 <= k < |r| ==> r[k].RefreshWidget?
  {
    if ws == [] then []
    else
      var w := ws[|ws| - 1];
      TickCalls(ws[..|ws| - 1]) + (if Eligible(w) then [RefreshWidget(w.id)] else [])
  }

  /** The indices of the eligible widgets, ascending: every eligible index, once, and no
      other. */
  function EligibleIndices(ws: seq<Widget>): (r: seq<int>)
    ensures forall k :: 0 <= k < |r| ==> 0 <= r[k] < |ws| && Eligible(ws[r[k]])
    ensures forall k, l :: 0 <= k < l < |r| ==> r[k] < r[l]
    ensures forall i :: 0 <= i < |ws| && Eligible(ws[i]) ==> i in r
  {
    if ws == [] then []
    else
      var n := |ws| - 1;
      EligibleIndices(ws[..n]) + (if Eligible(ws[n]) then [n] else [])
  }

  /** The k-th call of a tick refreshes the k-th eligible widget: the tick refreshes
      exactly the eligible widgets, each once, in collection order. */
  lemma {:induction false} TickRefreshesEligibleInOrder(ws: seq<Widget>)
    ensures |TickCalls(ws)| == |EligibleIndices(ws)|
    ensures forall k :: 0 <= k < |TickCalls(ws)| ==>
      TickCalls(ws)[k] == RefreshWidget(ws[EligibleIndices(ws)[k]].id)
  {
    if ws != [] {
      var n := |ws| - 1;
      TickRefreshesEligibleInOrder(ws[..n]);
    }
  }

  predicate UniqueIds(ws: seq<Widget>) {
    forall i, j :: 0 <= i < j < |ws| ==> ws[i].id != ws[j].id
  }

  function Occurrences(calls: seq<Call>, c: Call): nat {
    if calls == [] then 0
    else Occurrences(calls[..|calls| - 1], c) + (if calls[|calls| - 1] == c then 1 else 0)
  }

  lemma {:induction false} OccurrencesAppend(a: seq<Call>, b: seq<Call>, c: Call)
    ensures Occurrences(a + b, c) == Occurrences(a, c) + Occurrences(b, c)
    decreases |b|
  {
    if b != [] {
      assert (a + b)[..|a + b| - 1] == a + b[..|b| - 1];
      OccurrencesAppend(a, b[..|b| - 1], c);
    } else {
      assert a + b == a;
    }
  }

  lemma {:induction false} OccurrencesPositive(calls: seq<Call>, c: Call)
    ensures Occurrences(calls, c) > 0 <==> c in calls
  {
    if calls != [] {
      var n := |calls| - 1;
      OccurrencesPositive(calls[..n], c);
      assert calls == calls[..n] + [calls[n]];
    }
  }

  /** A tick never refreshes an id that no widget carries. */
  lemma {:induction false} TickSkipsUnknownIds(ws: seq<Widget>, id: string)
    requires forall i :: 0 <= i < |ws| ==> ws[i].id != id
    ensures Occurrences(TickCalls(ws), RefreshWidget(id)) == 0
  {
    if ws != [] {
      var n := |ws| - 1;
      TickSkipsUnknownIds(ws[..n], id);
      var tail := if Eligible(ws[n]) then [RefreshWidget(ws[n].id)] else [];
      OccurrencesAppend(TickCalls(ws[..n]), tail, RefreshWidget(id));
      assert tail == [] || tail[..0] == [];
    }
  }

  /** With distinct ids, a tick refreshes each eligible widget exactly once and never a
      widget that is loading or has no URL. */
  lemma {:induction false} TickRefreshesEachEligibleOnce(ws: seq<Widget>, i: int)
    requires UniqueIds(ws) && 0 <= i < |ws|
    ensures Occurrences(TickCalls(ws), RefreshWidget(ws[i].id)) == if Eligible(ws[i]) then 1 else 0
    ensures RefreshWidget(ws[i].id) in TickCalls(ws) <==> Eligible(ws[i])
    ensures ws[i].isLoading ==> RefreshWidget(ws[i].id) !in TickCalls(ws)
  {
    var n := |ws| - 1;
    var c := RefreshWidget(ws[i].id);
    var tail := if Eligible(ws[n]) then [RefreshWidget(ws[n].id)] else [];
    assert TickCalls(ws) == TickCalls(ws[..n]) + tail;
    OccurrencesAppend(TickCalls(ws[..n]), tail, c);
    assert tail == [] || tail[..0] == [];
    if i < n {
      TickRefreshesEachEligibleOnce(ws[..n], i);
      assert ws[..n][i] == ws[i];
    } else {
      TickSkipsUnknownIds(ws[..n], ws[i].id);
    }
    OccurrencesPositive(TickCalls(ws), c);
  }

  /** The tick's callback: every eligible widget of the captured collection is handed
      to the store's `refreshWidget`, in order. */
  method RefreshTick(widgets: seq<Widget>, log: CallLog)
    modifies log
    ensures log.calls == old(log.calls) + TickCalls(widgets)
  {
    var i := 0;
    while i < |widgets|
      invariant 0 <= i <= |widgets|
      invariant log.calls == old(log.calls) + TickCalls(widgets[..i])
    {
      var w := widgets[i];
      assert widgets[..i + 1][..i] == widgets[..i];
      if !w.isLoading && w.apiUrl != "" {
        log.Record(RefreshWidget(w.id));
      }
      i := i + 1;
    }
    assert widgets[..i] == widgets;
  }

  // ---------------------------------------------------------------- drag and drop

  datatype DraggableLocation = DraggableLocation(droppableId: string, index: nat)

  /** What the drag-and-drop library reports when a drag ends. */
  datatype DropResult = DropResult(source: DraggableLocation, destination: Option<DraggableLocation>)

  /** `handleDragEnd`: a drop outside any list makes no call; any other drop asks the
      store to move the widget from the source index to the destination index. */
  method HandleDragEnd(result: DropResult, log: CallLog)
    modifies log
    ensures result.destination.None? ==> log.calls == old(log.calls)
    ensures result.destination.Some? ==>
      log.calls == old(log.calls) +
                   [ReorderWidgets(result.source.index, result.destination.value.index)]
  {
    if result.destination.None? {
      return;
    }
    log.Record(ReorderWidgets(result.source.index, result.destination.value.index));
  }

  // ---------------------------------------------------------------- rendering

  /** The component a widget is drawn with. */
  datatype Component = CardWidget(widget: Widget) | TableWidget(widget: Widget) | ChartWidget(widget: Widget)

  /** The type tag each component stands for. */
  function ComponentType(c: Component): string {
    match c
    case CardWidget(_) => "card"
    case TableWidget(_) => "table"
    case ChartWidget(_) => "chart"
  }

  /** `renderWidget`: dispatch on the type tag; an unknown tag renders nothing. A
      rendered component carries the widget and stands for the widget's own tag. */
  function RenderWidget(w: Widget): (r: Option<Component>)
    ensures r.Some? <==> w.widgetType in {"card", "table", "chart"}
    ensures r.Some? ==> r.value.widget == w && ComponentType(r.value) == w.widgetType
  {
    match w.widgetType
    case "card" => Some(CardWidget(w))
    case "table" => Some(TableWidget(w))
    case "chart" => Some(ChartWidget(w))
    case _ => None
  }

  predicate SortedByPosition(ws: seq<Widget>) {
    forall i, j :: 0 <= i < j < |ws| ==> ws[i].position <= ws[j].position
  }

  /** Exchanges two adjacent widgets; the array keeps the same widgets. */
  method SwapAdjacent(a: array<Widget>, j: int)
    requires 0 < j < a.Length
    modifies a
    ensures a[j - 1] == old(a[j]) && a[j] == old(a[j - 1])
    ensures forall k :: 0 <= k < a.Length && k != j - 1 && k != j ==> a[k] == old(a[k])
    ensures multiset(a[..]) == old(multiset(a[..]))
  {
    a[j - 1], a[j] := a[j], a[j - 1];
  }

  /** `widgets.sort((a, b) => a.position - b.position)`, which reorders the store's
      array in place: ascending by position, the same widgets as before. */
  method SortByPosition(a: array<Widget>)
    modifies a
    ensures SortedByPosition(a[..])
    ensures multiset(a[..]) == old(multiset(a[..]))
  {
    var i := 0;
    while i < a.Length
      invariant 0 <= i <= a.Length
      invariant forall k, l :: 0 <= k < l < i ==> a[k].position <= a[l].position
      invariant multiset(a[..]) == old(multiset(a[..]))
    {
      var j := i;
      while j > 0 && a[j - 1].position > a[j].position
        invariant 0 <= j <= i
        invariant multiset(a[..]) == old(multiset(a[..]))
        invariant forall k, l :: 0 <= k < l <= i && k != j && l != j ==> a[k].position <= a[l].position
        invariant forall l :: j < l <= i ==> a[j].position < a[l].position
      {
        SwapAdjacent(a, j);
        j := j - 1;
      }
      i := i + 1;
    }
  }

  predicate DistinctPositions(ws: seq<Widget>) {
    forall i, j :: 0 <= i < j < |ws| ==> ws[i].position != ws[j].position
  }

  /** When positions are distinct, as the store keeps them, the position-sorted view is
      determined by the widgets alone: any two sorted arrangements of the same widgets
      are equal, so the grid does not depend on the order the store holds them in. */
  lemma {:induction false} SortedViewIsUnique(a: seq<Widget>, b: seq<Widget>)
    requires multiset(a) == multiset(b)
    requires SortedByPosition(a) && SortedByPosition(b) && DistinctPositions(a)
    ensures a == b
    decreases |a|
  {
    if a != [] {
      assert |b| == |multiset(b)| == |multiset(a)| == |a|;
      SortedHeadsAgree(a, b);
      TailMultiset(a);
      TailMultiset(b);
      SortedViewIsUnique(a[1..], b[1..]);
      assert a == [a[0]] + a[1..] && b == [b[0]] + b[1..];
    }
  }

  /** The least position of the common widgets is at the front of both arrangements. */
  lemma SortedHeadsAgree(a: seq<Widget>, b: seq<Widget>)
    requires multiset(a) == multiset(b) && a != [] && b != []
    requires SortedByPosition(a) && SortedByPosition(b) && DistinctPositions(a)
    ensures a[0] == b[0]
  {
    assert a[0] in multiset(b);
    var k :| 0 <= k < |b| && b[k] == a[0];
    assert b[0] in multiset(a);
    var m :| 0 <= m < |a| && a[m] == b[0];
    assert b[0].position <= b[k].position;
    assert a[0].position <= a[m].position;
  }

  lemma TailMultiset(s: seq<Widget>)
    requires s != []
    ensures multiset(s[1..]) == multiset(s) - multiset{s[0]}
  {
    assert s == [s[0]] + s[1..];
  }

  /** One cell of the grid: the draggable's id and index and what it draws. */
  datatype Slot = Slot(draggableId: string, index: nat, content: Option<Component>)

  /** The grid: sort the widgets in place, then give the widget at each place of the
      sorted view that place as its draggable index. */
  method RenderGrid(widgets: array<Widget>) returns (slots: seq<Slot>)
    modifies widgets
    ensures SortedByPosition(widgets[..])
    ensures multiset(widgets[..]) == old(multiset(widgets[..]))
    ensures |slots| == widgets.Length
    ensures forall i :: 0 <= i < |slots| ==>
      slots[i] == Slot(widgets[i].id, i, RenderWidget(widgets[i]))
  {
    SortByPosition(widgets);
    var view := widgets[..];
    slots := seq(|view|, i requires 0 <= i < |view| => Slot(view[i].id, i, RenderWidget(view[i])));
  }

  // ---------------------------------------------------------------- statistics

  /** `widgets.filter(w => w.type === t).length`. */
  function CountOfType(ws: seq<Widget>, t: string): (n: nat)
    ensures n <= |ws|
  {
    if ws == [] then 0
    else CountOfType(ws[1..], t) + (if ws[0].widgetType == t then 1 else 0)
  }

  /** The three counts never exceed the total, and they make up the total exactly when
      every widget has one of the three known types. */
  lemma {:induction false} TypeCountsAddUp(ws: seq<Widget>)
    ensures CountOfType(ws, "card") + CountOfType(ws, "table") + CountOfType(ws, "chart") <= |ws|
    ensures (forall i :: 0 <= i < |ws| ==> ws[i].widgetType in {"card", "table", "chart"}) <==>
      CountOfType(ws, "card") + CountOfType(ws, "table") + CountOfType(ws, "chart") == |ws|
  {
    if ws != [] {
      TypeCountsAddUp(ws[1..]);
      if forall i :: 0 <= i < |ws[1..]| ==> ws[1..][i].widgetType in {"card", "table", "chart"} {
        assert forall i :: 0 < i < |ws| ==> ws[i].widgetType == ws[1..][i - 1].widgetType;
      } else {
        var i :| 0 <= i < |ws[1..]| && ws[1..][i].widgetType !in {"card", "table", "chart"};
        assert ws[i + 1] == ws[1..][i];
      }
    }
  }
}
