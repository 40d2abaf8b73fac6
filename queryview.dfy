/**
 * The query result view (kscope/core/queryview.cpp): the consumer end of an
 * engine connection. It clears its list model when a query starts, appends
 * every delivered batch, shows at most one progress bar while the query runs,
 * and on normal completion may request navigation to a single result.
 */
module QueryViews {
  import opened Common
  import opened Locations
  import opened Engine

  /** What the progress bar shows. */
  datatype Bar = Bar(caption: string, cur: nat, total: nat)

  /**
   * The observable state of a view: the associated query, the model's rows,
   * the progress bar (if one exists), the auto-select flag, and every
   * location the view has requested navigation to, oldest first.
   */
  datatype ViewState = ViewState(
    query: Option<Query>,
    locs: seq<Location>,
    bar: Option<Bar>,
    autoSelect: bool,
    requested: seq<Location>)

  /** The columns the view asks its model for, in display order. */
  const ViewColumns: seq<Columns> := [Scope, File, Line, Columns.Text]

  /** initQuery: stores the query and empties the model. */
  function Initialized(s: ViewState, q: Query): (r: ViewState)
    ensures r.query == Some(q) && r.locs == []
    ensures r.bar == s.bar && r.autoSelect == s.autoSelect && r.requested == s.requested
  {
    s.(query := Some(q), locs := [])
  }

  /** onDataReady: appends the batch to the model. */
  function WithBatch(s: ViewState, batch: seq<Location>): (r: ViewState)
    ensures |r.locs| == |s.locs| + |batch|
    ensures r.locs[..|s.locs|] == s.locs && r.locs[|s.locs|..] == batch
    ensures r.(locs := s.locs) == s
  {
    s.(locs := s.locs + batch)
  }

  /** onProgress: creates the bar if there is none, then updates it. */
  function WithProgress(s: ViewState, text: string, cur: nat, total: nat): (r: ViewState)
    ensures r.bar.Some? && r.bar.value.caption == text && r.bar.value.cur == cur && r.bar.value.total == total
    ensures r.(bar := s.bar) == s
  {
    s.(bar := Some(Bar(text, cur, total)))
  }

  /**
   * onFinished: drops the bar; with auto-select on, a model of exactly one
   * row whose first location can be read is requested.
   */
  function Finish(s: ViewState): (r: ViewState)
    ensures r.bar.None? && r.locs == s.locs && r.query == s.query && r.autoSelect == s.autoSelect
    ensures |s.requested| <= |r.requested| <= |s.requested| + 1
    ensures r.requested[..|s.requested|] == s.requested
    ensures |r.requested| == |s.requested| + 1 <==> s.autoSelect && |s.locs| == 1
    ensures |r.requested| == |s.requested| + 1 ==> r.requested[|s.requested|] == s.locs[0]
  {
    var single := s.autoSelect && |s.locs| == 1;
    s.(bar := None, requested := s.requested + if single then [s.locs[0]] else [])
  }

  /** onAborted: drops the bar and leaves the model as it is. */
  function Abort(s: ViewState): (r: ViewState)
    ensures r.bar.None?
    ensures r.locs == s.locs && r.requested == s.requested && r.query == s.query && r.autoSelect == s.autoSelect
  {
    s.(bar := None)
  }

  /** handleDoubleClick: requests the clicked location if the index names a row. */
  function DoubleClicked(s: ViewState, index: ModelIndex): (r: ViewState)
    ensures r.(requested := s.requested) == s
    ensures |s.requested| <= |r.requested| <= |s.requested| + 1
    ensures r.requested[..|s.requested|] == s.requested
    ensures |r.requested| == |s.requested| + 1 <==> index.Index? && 0 <= index.row < |s.locs|
    ensures |r.requested| == |s.requested| + 1 ==> r.requested[|s.requested|] == s.locs[index.row]
  {
    if index.Index? && 0 <= index.row < |s.locs| then
      s.(requested := s.requested + [s.locs[index.row]])
    else s
  }

  /** One engine callback, as the view handles it. */
  function Step(s: ViewState, cb: Callback): ViewState
  {
    match cb
    case DataReady(batch) => WithBatch(s, batch)
    case Progress(text, cur, total) => WithProgress(s, text, cur, total)
    case Finished => Finish(s)
    case Aborted => Abort(s)
  }

  /** A sequence of callbacks, handled in order. */
  function Replay(s: ViewState, cbs: seq<Callback>): ViewState
    decreases |cbs|
  {
    if cbs == [] then s else Replay(Step(s, cbs[0]), cbs[1..])
  }

  /** A trace of callbacks that contains no terminal one. */
  predicate NonTerminal(cbs: seq<Callback>)
  {
    forall i :: 0 <= i < |cbs| ==> cbs[i].DataReady? || cbs[i].Progress?
  }

  /** Whether a trace contains a progress callback. */
  predicate HasProgress(cbs: seq<Callback>)
  {
    exists i :: 0 <= i < |cbs| && cbs[i].Progress?
  }

  /** The bar the last progress callback of a trace leaves, if any. */
  function LastBar(cbs: seq<Callback>, prior: Option<Bar>): Option<Bar>
    decreases |cbs|
  {
    if cbs == [] then prior
    else LastBar(cbs[1..], if cbs[0].Progress? then Some(Bar(cbs[0].text, cbs[0].cur, cbs[0].total)) else prior)
  }

  /** Handling a split trace is handling its parts one after the other. */
  lemma {:induction false} ReplayAppend(s: ViewState, a: seq<Callback>, b: seq<Callback>)
    ensures Replay(s, a + b) == Replay(Replay(s, a), b)
    decreases |a|
  {
    if a == [] {
      assert a + b == b;
    } else {
      assert (a + b)[1..] == a[1..] + b;
      ReplayAppend(Step(s, a[0]), a[1..], b);
    }
  }

  /**
   * Whatever the trace, terminal callbacks included, the model ends holding
   * the rows it had followed by every delivered batch in order.
   */
  lemma {:induction false} ReplayLocs(s: ViewState, cbs: seq<Callback>)
    ensures Replay(s, cbs).locs == s.locs + Delivered(cbs)
    decreases |cbs|
  {
    if cbs != [] {
      var s1 := Step(s, cbs[0]);
      ReplayLocs(s1, cbs[1..]);
      if cbs[0].DataReady? {
        assert Delivered(cbs) == cbs[0].batch + Delivered(cbs[1..]);
      } else {
        assert Delivered(cbs) == [] + Delivered(cbs[1..]);
      }
    }
  }

  /**
   * The start result, seen from the view: after initQuery the model holds
   * exactly what the operation delivered, and an operation that honours its
   * start result and did not start leaves the view as initQuery left it,
   * with an empty model, the bar as before and no navigation requested.
   */
  lemma QueryStartResult(s: ViewState, q: Query, op: Operation)
    ensures Replay(Initialized(s, q), op.callbacks).locs == Delivered(op.callbacks)
    ensures HonoursStartResult(op) && !op.started ==>
      && Replay(Initialized(s, q), op.callbacks) == Initialized(s, q)
      && Replay(Initialized(s, q), op.callbacks).locs == []
      && Replay(Initialized(s, q), op.callbacks).bar == s.bar
      && Replay(Initialized(s, q), op.callbacks).requested == s.requested
  {
    ReplayLocs(Initialized(s, q), op.callbacks);
  }

  /**
   * While a query runs, the model holds exactly the concatenation of the
   * delivered batches (so add([A]); add([B]) ends like add([A, B])), no
   * navigation is requested, and the bar is the one the last progress report
   * set.
   */
  lemma {:induction false} RunningQueryAccumulates(s: ViewState, cbs: seq<Callback>)
    requires NonTerminal(cbs)
    ensures Replay(s, cbs).locs == s.locs + Delivered(cbs)
    ensures Replay(s, cbs).requested == s.requested
    ensures Replay(s, cbs).query == s.query && Replay(s, cbs).autoSelect == s.autoSelect
    ensures Replay(s, cbs).bar == LastBar(cbs, s.bar)
    decreases |cbs|
  {
    if cbs != [] {
      assert NonTerminal(cbs[1..]) by {
        forall i | 0 <= i < |cbs[1..]| ensures cbs[1..][i].DataReady? || cbs[1..][i].Progress? {
          assert cbs[1..][i] == cbs[i + 1];
        }
      }
      var s1 := Step(s, cbs[0]);
      RunningQueryAccumulates(s1, cbs[1..]);
      assert Replay(s, cbs) == Replay(s1, cbs[1..]);
      assert s1.requested == s.requested && s1.query == s.query && s1.autoSelect == s.autoSelect;
      assert LastBar(cbs, s.bar) == LastBar(cbs[1..], s1.bar);
    }
    ReplayLocs(s, cbs);
  }

  /** A bar exists after a running trace iff one existed before or progress was reported. */
  lemma {:induction false} LastBarExists(cbs: seq<Callback>, prior: Option<Bar>)
    ensures LastBar(cbs, prior).Some? <==> prior.Some? || HasProgress(cbs)
    decreases |cbs|
  {
    if cbs != [] {
      var next := if cbs[0].Progress? then Some(Bar(cbs[0].text, cbs[0].cur, cbs[0].total)) else prior;
      LastBarExists(cbs[1..], next);
      if HasProgress(cbs[1..]) {
        var i :| 0 <= i < |cbs[1..]| && cbs[1..][i].Progress?;
        assert cbs[i + 1].Progress?;
      }
      if HasProgress(cbs) && !cbs[0].Progress? {
        var i :| 0 <= i < |cbs| && cbs[i].Progress?;
        assert cbs[1..][i - 1].Progress?;
      }
    }
  }

  /**
   * Auto-select: after initQuery, any running trace and onFinished, the view
   * has requested exactly one navigation, to the single delivered location,
   * when auto-select is on and exactly one location was delivered; otherwise
   * it has requested none. No bar remains and the results stay in the model.
   */
  lemma AutoSelectSingleResult(s: ViewState, q: Query, cbs: seq<Callback>)
    requires NonTerminal(cbs)
    ensures var t := Replay(Initialized(s, q), cbs + [Finished]);
      && t.requested == s.requested + (if s.autoSelect && |Delivered(cbs)| == 1 then Delivered(cbs) else [])
      && t.locs == Delivered(cbs)
      && t.bar.None?
  {
    var s0 := Initialized(s, q);
    ReplayAppend(s0, cbs, [Finished]);
    RunningQueryAccumulates(s0, cbs);
  }

  /**
   * Abort: after initQuery, any running trace and onAborted, the partial
   * results remain in the model, no navigation was requested and no bar
   * remains.
   */
  lemma AbortKeepsPartialResults(s: ViewState, q: Query, cbs: seq<Callback>)
    requires NonTerminal(cbs)
    ensures var t := Replay(Initialized(s, q), cbs + [Aborted]);
      && t.locs == Delivered(cbs)
      && t.requested == s.requested
      && t.bar.None?
  {
    var s0 := Initialized(s, q);
    ReplayAppend(s0, cbs, [Aborted]);
    RunningQueryAccumulates(s0, cbs);
  }

  /** Whatever came before, a terminal callback leaves no progress bar. */
  lemma TerminalDropsBar(s: ViewState, cbs: seq<Callback>, last: Callback)
    requires last.Finished? || last.Aborted?
    ensures Replay(s, cbs + [last]).bar.None?
  {
    ReplayAppend(s, cbs, [last]);
  }

  /** The bar widget: its label and progress values. */
  class ProgressBar {
    var caption: string
    var cur: nat
    var total: nat

    constructor ()
      ensures caption == "" && cur == 0 && total == 0
    {
      caption, cur, total := "", 0, 0;
    }

    method SetLabel(text: string)
      modifies this
      ensures caption == text && cur == old(cur) && total == old(total)
    {
      caption := text;
    }

    method SetProgress(c: nat, t: nat)
      modifies this
      ensures caption == old(caption) && cur == c && total == t
    {
      cur, total := c, t;
    }
  }

  /**
   * The view. The source's view is itself the connection; here it owns one.
   * `requested` logs the locationRequested signals it has emitted.
   */
  class QueryView {
    const model: LocationListModel
    const connection: Connection
    var query: Option<Query>
    var progBar: ProgressBar?
    var autoSelectSingleResult: bool
    var requested: seq<Location>

    /** The view's observable state. */
    function Abs(): ViewState
      reads this, model, progBar
    {
      ViewState(query, model.locList,
        if progBar == null then None else Some(Bar(progBar.caption, progBar.cur, progBar.total)),
        autoSelectSingleResult, requested)
    }

    constructor ()
      ensures Abs() == ViewState(None, [], None, false, [])
      ensures model.colList == ViewColumns
      ensures fresh(model) && fresh(connection) && connection.ctrlObject == null
    {
      model := new LocationListModel(ViewColumns);
      connection := new Connection();
      query := None;
      progBar := null;
      autoSelectSingleResult := false;
      requested := [];
    }

    /** Turns auto-selection of a single result on or off. */
    method SetAutoSelectSingleResult(on: bool)
      modifies this
      ensures Abs() == old(Abs()).(autoSelect := on)
      ensures progBar == old(progBar)
    {
      autoSelectSingleResult := on;
    }

    method InitQuery(q: Query)
      modifies this, model
      ensures Abs() == Initialized(old(Abs()), q)
      ensures progBar == old(progBar)
    {
      query := Some(q);
      model.Clear();
    }

    method OnDataReady(batch: seq<Location>)
      modifies model
      ensures Abs() == WithBatch(old(Abs()), batch)
    {
      model.Add(batch);
    }

    /** Reuses the existing bar; creates one only when there is none. */
    method OnProgress(text: string, cur: nat, total: nat)
      modifies this, progBar
      ensures Abs() == WithProgress(old(Abs()), text, cur, total)
      ensures old(progBar) != null ==> progBar == old(progBar)
      ensures old(progBar) == null ==> fresh(progBar)
    {
      if progBar == null {
        progBar := new ProgressBar();
      }
      progBar.SetLabel(text);
      progBar.SetProgress(cur, total);
    }

    method OnFinished()
      modifies this
      ensures Abs() == Finish(old(Abs()))
      ensures progBar == null
    {
      progBar := null;
      var rows := model.RowCount();
      if autoSelectSingleResult && rows == 1 {
        var ok, loc := model.FirstLocation();
        if ok {
          requested := requested + [loc];
        }
      }
    }

    method OnAborted()
      modifies this
      ensures Abs() == Abort(old(Abs()))
      ensures progBar == null
    {
      progBar := null;
    }

    method HandleDoubleClick(index: ModelIndex)
      modifies this
      ensures Abs() == DoubleClicked(old(Abs()), index)
      ensures progBar == old(progBar)
    {
      var ok, loc := model.LocationFromIndex(index);
      if ok {
        requested := requested + [loc];
      }
    }

    /** The bar's Cancel button: forwards to the connection's stop(). */
    method StopQuery()
      requires connection.ctrlObject != null
      modifies connection.ctrlObject
      ensures connection.ctrlObject.stopCalls == old(connection.ctrlObject.stopCalls) + 1
    {
      connection.Stop();
    }
  }
}
