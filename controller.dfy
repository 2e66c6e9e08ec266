/**
 * The dashboard's data source: how it decides between the live board and
 * the built-in preview slate, and the two edits that write to the board.
 * Each callback of the component (start-up, the 3-second timer, the answer
 * to the context request, a context change, a finished board fetch, the
 * "Load Demo Mode" button, a title move and an edit save) is one method of `Dashboard`.
 * Monday API calls are not made: their outcomes are parameters.
 */
module DataSource {
  import opened Wrappers
  import opened Text
  import opened Slate
  import opened Sample
  import opened Normalize
  import opened Aggregate
  import opened Projection

  /** The `data` of a context message: `boardId` and `boardIds`, either possibly absent. */
  datatype Context = Context(boardId: Option<string>, boardIds: seq<string>)

  /**
   * `data.boardId || (boardIds.length > 0 ? boardIds[0] : null)`, with the
   * empty string standing for every falsy outcome.
   */
  function ContextBoard(c: Context): (r: string)
    ensures c.boardId.Some? && c.boardId.value != "" ==> r == c.boardId.value
    ensures (c.boardId.None? || c.boardId.value == "") && |c.boardIds| > 0 ==> r == c.boardIds[0]
    ensures (c.boardId.None? || c.boardId.value == "") && |c.boardIds| == 0 ==> r == ""
  {
    if c.boardId.Some? && c.boardId.value != "" then c.boardId.value
    else if |c.boardIds| > 0 then c.boardIds[0]
    else ""
  }

  /** How a board query ends, as `fetchBoardData` tells the cases apart. */
  datatype FetchOutcome =
    | ApiFailed                       // the API call itself rejected
    | NoResponseData                  // no response, or no `data` in it
    | NoBoardItems                    // no board, or no `items_page.items`
    | BoardItems(raws: seq<BoardItem>)

  /** Ids of the preview slate start with `sample`; edits to them never reach the board. */
  predicate IsSampleId(id: string) {
    StartsWith(id, "sample")
  }

  class Dashboard {
    var items: seq<Item>
    var yearTotals: YearTotals
    var chart: seq<ChartRow>
    var loading: bool
    var error: string
    var bypassed: bool
    var boardId: string
    /** The start-up effect has run. */
    var started: bool
    /** Start-up took the Monday path: the timer, the context request and the listener are live. */
    var armed: bool
    /** The `initialized` flag shared by the timer and the context request. */
    var initialized: bool
    /** Board fetches started and not yet finished. */
    var inFlight: nat
    var editing: Option<string>
    var edits: EditValues

    /** The totals and chart are those of the items, or still the initial empty ones. */
    predicate Consistent()
      reads this
    {
      || (yearTotals == Table(items) && chart == ChartRows(yearTotals))
      || (items == [] && yearTotals == [] && chart == [])
    }

    predicate Valid()
      reads this
    {
      && error == ""
      && Consistent()
      && (initialized ==> armed)
      && (armed ==> started)
    }

    /** The state of the first render. */
    constructor ()
      ensures Valid()
      ensures items == [] && yearTotals == [] && chart == []
      ensures loading && error == "" && !bypassed && boardId == ""
      ensures !started && !armed && !initialized && inFlight == 0
      ensures editing == None && edits == NoEdits
    {
      items := [];
      yearTotals := [];
      chart := [];
      loading := true;
      error := "";
      bypassed := false;
      boardId := "";
      started := false;
      armed := false;
      initialized := false;
      inFlight := 0;
      editing := None;
      edits := NoEdits;
    }

    /** `setItems(list); calculateYearTotals(list)`. */
    method SetItems(list: seq<Item>)
      modifies this
      ensures items == list && yearTotals == Table(list) && chart == ChartRows(yearTotals)
      ensures loading == old(loading) && error == old(error) && bypassed == old(bypassed)
      ensures boardId == old(boardId) && started == old(started) && armed == old(armed)
      ensures initialized == old(initialized) && inFlight == old(inFlight)
      ensures editing == old(editing) && edits == old(edits)
    {
      items := list;
      yearTotals, chart := CalculateYearTotals(list);
    }

    /** `loadSampleData`: the preview slate, not loading, no error. */
    method LoadSample()
      modifies this
      ensures items == SampleItems && yearTotals == Table(SampleItems) && chart == ChartRows(yearTotals)
      ensures !loading && error == ""
      ensures bypassed == old(bypassed) && boardId == old(boardId) && started == old(started)
      ensures armed == old(armed) && initialized == old(initialized) && inFlight == old(inFlight)
      ensures editing == old(editing) && edits == old(edits)
    {
      loading := false;
      SetItems(SampleItems);
      loading := false;
      error := "";
    }

    /** The preview slate with the troubleshooter bypassed: where every fallback ends. */
    predicate ShowsSample()
      reads this
    {
      items == SampleItems && !loading && error == "" && bypassed
    }

    /** `fetchBoardData` up to its API call: loading is switched on. */
    method BeginFetch()
      modifies this
      ensures loading && inFlight == old(inFlight) + 1
      ensures items == old(items) && yearTotals == old(yearTotals) && chart == old(chart)
      ensures error == old(error) && bypassed == old(bypassed) && boardId == old(boardId)
      ensures started == old(started) && armed == old(armed) && initialized == old(initialized)
      ensures editing == old(editing) && edits == old(edits)
    {
      loading := true;
      inFlight := inFlight + 1;
    }

    /**
     * The start-up effect. Dev mode outside Monday and a failed SDK both go
     * straight to the preview slate; otherwise the timer, the context
     * request and the context listener are set up.
     */
    method Start(devMode: bool, mondayEnvironment: bool, sdkError: bool)
      requires Valid() && !started
      modifies this
      ensures Valid() && started
      ensures (devMode && !mondayEnvironment) || sdkError ==>
        ShowsSample() && yearTotals == Table(SampleItems) && chart == ChartRows(yearTotals) && !armed && !initialized
      ensures !((devMode && !mondayEnvironment) || sdkError) ==>
        armed && !initialized && items == old(items) && yearTotals == old(yearTotals) && chart == old(chart)
        && loading == old(loading) && error == old(error) && bypassed == old(bypassed)
      ensures boardId == old(boardId) && inFlight == old(inFlight)
      ensures editing == old(editing) && edits == old(edits)
    {
      started := true;
      if devMode && !mondayEnvironment {
        LoadSample();
        bypassed := true;
      } else if sdkError {
        LoadSample();
        bypassed := true;
      } else {
        armed := true;
      }
    }

    /** The 3-second timer: the preview slate, unless the context came first. */
    method Timeout()
      requires Valid()
      modifies this
      ensures Valid()
      ensures !old(armed) || old(initialized) ==> unchanged(this)
      ensures old(armed) && !old(initialized) ==>
        ShowsSample() && yearTotals == Table(SampleItems) && chart == ChartRows(yearTotals) && initialized
      ensures boardId == old(boardId) && inFlight == old(inFlight) && armed == old(armed) && started == old(started)
      ensures editing == old(editing) && edits == old(edits)
    {
      if armed && !initialized {
        LoadSample();
        bypassed := true;
        initialized := true;
      }
    }

    /**
     * `monday.get('context')` resolved (`None` for a null context). Too late
     * after the timer; with a board, fetch it; with none, the preview slate.
     * A null context sets `initialized` and then fails on `context.data`,
     * and the catch does nothing because `initialized` is already set.
     */
    method ContextResolved(context: Option<Context>)
      requires Valid()
      modifies this
      ensures Valid()
      ensures !old(armed) || old(initialized) ==> unchanged(this)
      ensures old(armed) && !old(initialized) ==> initialized
      ensures old(armed) && !old(initialized) && context.None? ==>
        items == old(items) && yearTotals == old(yearTotals) && chart == old(chart) && loading == old(loading)
        && error == old(error) && bypassed == old(bypassed) && boardId == old(boardId) && inFlight == old(inFlight)
      ensures old(armed) && !old(initialized) && context.Some? && ContextBoard(context.value) != "" ==>
        boardId == ContextBoard(context.value) && bypassed && loading && inFlight == old(inFlight) + 1
        && items == old(items) && yearTotals == old(yearTotals) && chart == old(chart) && error == old(error)
      ensures old(armed) && !old(initialized) && context.Some? && ContextBoard(context.value) == "" ==>
        ShowsSample() && yearTotals == Table(SampleItems) && chart == ChartRows(yearTotals)
        && boardId == old(boardId) && inFlight == old(inFlight)
      ensures armed == old(armed) && started == old(started) && editing == old(editing) && edits == old(edits)
    {
      if !armed || initialized {
        return;
      }
      initialized := true;
      if context.Some? {
        var board := ContextBoard(context.value);
        if board != "" {
          boardId := board;
          bypassed := true;
          BeginFetch();
        } else {
          LoadSample();
          bypassed := true;
        }
      }
    }

    /** `monday.get('context')` rejected: the preview slate, unless the timer came first. */
    method ContextRejected()
      requires Valid()
      modifies this
      ensures Valid()
      ensures !old(armed) || old(initialized) ==> unchanged(this)
      ensures old(armed) && !old(initialized) ==>
        ShowsSample() && yearTotals == Table(SampleItems) && chart == ChartRows(yearTotals) && initialized
      ensures boardId == old(boardId) && inFlight == old(inFlight) && armed == old(armed) && started == old(started)
      ensures editing == old(editing) && edits == old(edits)
    {
      if armed && !initialized {
        LoadSample();
        bypassed := true;
        initialized := true;
      }
    }

    /**
     * The context listener. It compares the new board with the `boardId` it
     * captured when it was set up, which is always the initial empty
     * string, so every non-empty board id starts a fetch, even the current one.
     */
    method ContextChanged(context: Context)
      requires Valid()
      modifies this
      ensures Valid()
      ensures !old(armed) || ContextBoard(context) == "" ==> unchanged(this)
      ensures old(armed) && ContextBoard(context) != "" ==>
        boardId == ContextBoard(context) && loading && inFlight == old(inFlight) + 1
        && items == old(items) && yearTotals == old(yearTotals) && chart == old(chart) && error == old(error)
        && bypassed == old(bypassed) && initialized == old(initialized)
      ensures armed == old(armed) && started == old(started) && editing == old(editing) && edits == old(edits)
    {
      var capturedBoardId := "";
      var newBoardId := ContextBoard(context);
      if armed && newBoardId != "" && newBoardId != capturedBoardId {
        boardId := newBoardId;
        BeginFetch();
      }
    }

    /**
     * A board fetch finished. A non-empty list of board items is normalised
     * and shown; every failure, and an empty board, falls back to the
     * preview slate.
     */
    method FetchSettled(outcome: FetchOutcome)
      requires Valid() && inFlight > 0
      modifies this
      ensures Valid()
      ensures inFlight == old(inFlight) - 1 && !loading && error == ""
      ensures outcome.BoardItems? && outcome.raws != [] ==> items == NormalizeAll(outcome.raws)
      ensures !(outcome.BoardItems? && outcome.raws != []) ==> items == SampleItems
      ensures yearTotals == Table(items) && chart == ChartRows(yearTotals)
      ensures bypassed == old(bypassed) && boardId == old(boardId) && initialized == old(initialized)
      ensures armed == old(armed) && started == old(started) && editing == old(editing) && edits == old(edits)
    {
      inFlight := inFlight - 1;
      if outcome.BoardItems? {
        var mapped := NormalizeAll(outcome.raws);
        if |mapped| == 0 {
          LoadSample();
        } else {
          SetItems(mapped);
          loading := false;
          error := "";
        }
      } else {
        LoadSample();
      }
    }

    /**
     * The "Load Demo Mode" button, offered on the loading screen inside Monday:
     * bypass the troubleshooter and show the preview slate.
     */
    method LoadDemoClicked()
      requires Valid()
      modifies this
      ensures Valid() && ShowsSample()
      ensures yearTotals == Table(SampleItems) && chart == ChartRows(yearTotals)
      ensures boardId == old(boardId) && inFlight == old(inFlight) && initialized == old(initialized)
      ensures armed == old(armed) && started == old(started) && editing == old(editing) && edits == old(edits)
    {
      bypassed := true;
      LoadSample();
      loading := false;
      error := "";
    }

    /**
     * `handleTitleMove`. The move is applied to the list at once. An id that
     * is not on the list makes `item.id` throw, and the catch refetches the
     * board; so does a failed board update. A preview title is never sent.
     */
    method MoveTitleTo(itemId: string, newYear: string, updateSucceeds: bool)
      requires Valid()
      modifies this
      ensures Valid()
      ensures items == MoveTitle(old(items), itemId, newYear)
      ensures var known := exists i | 0 <= i < |old(items)| :: old(items)[i].id == itemId;
        var refetch := !known || (!IsSampleId(itemId) && !updateSucceeds);
        && (refetch ==> loading && inFlight == old(inFlight) + 1)
        && (!refetch ==> loading == old(loading) && inFlight == old(inFlight))
      ensures yearTotals == Table(items) && chart == ChartRows(yearTotals) && error == old(error)
      ensures boardId == old(boardId) && bypassed == old(bypassed) && initialized == old(initialized)
      ensures armed == old(armed) && started == old(started) && editing == old(editing) && edits == old(edits)
    {
      var known := exists i | 0 <= i < |items| :: items[i].id == itemId;
      SetItems(MoveTitle(items, itemId, newYear));
      if !known {
        BeginFetch();
      } else if !IsSampleId(itemId) && !updateSucceeds {
        BeginFetch();
      }
    }

    /** `handleEditStart`: remember the item and copy its four editable fields. */
    method EditStarted(item: Item)
      requires Valid()
      modifies this
      ensures Valid()
      ensures editing == Some(item.id) && edits == EditStart(item)
      ensures items == old(items) && loading == old(loading) && inFlight == old(inFlight)
      ensures yearTotals == old(yearTotals) && chart == old(chart) && error == old(error)
      ensures boardId == old(boardId) && bypassed == old(bypassed) && initialized == old(initialized)
      ensures armed == old(armed) && started == old(started)
    {
      editing := Some(item.id);
      edits := EditStart(item);
    }

    /** `handleEditCancel`. */
    method EditCancelled()
      requires Valid()
      modifies this
      ensures Valid()
      ensures editing == None && edits == NoEdits
      ensures items == old(items) && loading == old(loading) && inFlight == old(inFlight)
      ensures yearTotals == old(yearTotals) && chart == old(chart) && error == old(error)
      ensures boardId == old(boardId) && bypassed == old(bypassed) && initialized == old(initialized)
      ensures armed == old(armed) && started == old(started)
    {
      editing := None;
      edits := NoEdits;
    }

    /**
     * `handleEditSave`. A preview title only closes the editor. A board
     * title is merged with the edit buffer once the board accepted the
     * update; when the update fails nothing changes and the editor stays open.
     */
    method EditSaved(itemId: string, updateSucceeds: bool)
      requires Valid()
      modifies this
      ensures Valid()
      ensures IsSampleId(itemId) ==> items == old(items) && editing == None
      ensures !IsSampleId(itemId) && updateSucceeds ==> items == ApplyEdit(old(items), itemId, old(edits)) && editing == None
      ensures !IsSampleId(itemId) && !updateSucceeds ==> items == old(items) && editing == old(editing)
      ensures !IsSampleId(itemId) && updateSucceeds ==> yearTotals == Table(items) && chart == ChartRows(yearTotals)
      ensures IsSampleId(itemId) || !updateSucceeds ==> yearTotals == old(yearTotals) && chart == old(chart)
      ensures edits == old(edits) && loading == old(loading) && inFlight == old(inFlight) && boardId == old(boardId)
      ensures error == old(error) && bypassed == old(bypassed) && initialized == old(initialized)
      ensures armed == old(armed) && started == old(started)
    {
      if IsSampleId(itemId) {
        editing := None;
        return;
      }
      if updateSucceeds {
        SetItems(ApplyEdit(items, itemId, edits));
        editing := None;
      }
    }

    /**
     * The floating "Column Mapping" label, drawn only in dev mode while the
     * troubleshooter is bypassed: clicking it brings the troubleshooter back.
     */
    method ColumnMappingClicked(devMode: bool)
      requires Valid()
      modifies this
      ensures Valid()
      ensures devMode && old(bypassed) ==> !bypassed
      ensures !(devMode && old(bypassed)) ==> bypassed == old(bypassed)
      ensures items == old(items) && yearTotals == old(yearTotals) && chart == old(chart)
      ensures loading == old(loading) && error == old(error) && boardId == old(boardId)
      ensures started == old(started) && armed == old(armed) && initialized == old(initialized)
      ensures inFlight == old(inFlight) && editing == old(editing) && edits == old(edits)
    {
      if devMode && bypassed {
        bypassed := false;
      }
    }
  }

  // ---------------------------------------------------------------------------
  // Start-up runs
  // ---------------------------------------------------------------------------

  /** Local development outside Monday shows the preview slate at once and arms nothing. */
  method DevModeRun() returns (d: Dashboard)
    ensures d.Valid() && d.ShowsSample() && !d.armed && d.inFlight == 0
  {
    d := new Dashboard();
    d.Start(true, false, false);
  }

  /** When the timer fires first, the preview slate stays even if a board context arrives later. */
  method TimeoutWinsRun(context: Context) returns (d: Dashboard)
    ensures d.Valid() && d.ShowsSample() && d.boardId == "" && d.inFlight == 0
  {
    d := new Dashboard();
    d.Start(false, true, false);
    d.Timeout();
    d.ContextResolved(Some(context));
  }

  /** When the context with a board comes first, the board is fetched and the late timer does nothing. */
  method ContextWinsRun(board: string) returns (d: Dashboard)
    requires board != ""
    ensures d.Valid() && d.boardId == board && d.loading && d.bypassed && d.inFlight == 1 && d.items == []
  {
    d := new Dashboard();
    d.Start(false, true, false);
    d.ContextResolved(Some(Context(Some(board), [])));
    d.Timeout();
  }

  /** A board that lists no items ends on the preview slate. */
  method EmptyBoardRun(board: string) returns (d: Dashboard)
    requires board != ""
    ensures d.Valid() && d.ShowsSample() && d.boardId == board && d.inFlight == 0
  {
    d := new Dashboard();
    d.Start(false, true, false);
    d.ContextResolved(Some(Context(Some(board), [])));
    d.FetchSettled(BoardItems([]));
  }

  /** A board with items shows them normalised, one per board item, with their totals. */
  method BoardLoadedRun(board: string, raws: seq<BoardItem>) returns (d: Dashboard)
    requires board != "" && raws != []
    ensures d.Valid() && !d.loading && d.inFlight == 0
    ensures |d.items| == |raws| && d.items == NormalizeAll(raws) && d.yearTotals == Table(d.items)
  {
    d := new Dashboard();
    d.Start(false, true, false);
    d.ContextResolved(Some(Context(Some(board), [])));
    d.FetchSettled(BoardItems(raws));
  }

  /** A context with no board ids at all ends on the preview slate. */
  method NoBoardRun() returns (d: Dashboard)
    ensures d.Valid() && d.ShowsSample() && d.inFlight == 0
  {
    d := new Dashboard();
    d.Start(false, true, false);
    d.ContextResolved(Some(Context(None, [])));
  }

  /**
   * A null context leaves the dashboard loading with no items: the catch
   * does nothing once `initialized` is set, and the timer is cleared.
   */
  method NullContextRun() returns (d: Dashboard)
    ensures d.Valid() && d.loading && d.items == [] && !d.bypassed && d.inFlight == 0
  {
    d := new Dashboard();
    d.Start(false, true, false);
    d.ContextResolved(None);
    d.Timeout();
  }

  /** The listener refetches even when the context names the board already shown. */
  method SameBoardRefetchRun(board: string, raws: seq<BoardItem>) returns (d: Dashboard)
    requires board != "" && raws != []
    ensures d.Valid() && d.boardId == board && d.loading && d.inFlight == 1
  {
    d := new Dashboard();
    d.Start(false, true, false);
    d.ContextResolved(Some(Context(Some(board), [])));
    d.FetchSettled(BoardItems(raws));
    d.ContextChanged(Context(Some(board), []));
  }

  /** Moving a preview title moves it locally and never refetches. */
  method SampleMoveRun(newYear: string) returns (d: Dashboard)
    ensures d.Valid() && d.items == MoveTitle(SampleItems, "sample1", newYear) && !d.loading && d.inFlight == 0
  {
    d := new Dashboard();
    d.Start(true, false, false);
    assert SampleItems[0].id == "sample1";
    d.MoveTitleTo("sample1", newYear, false);
  }
}
