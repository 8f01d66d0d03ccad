/**
 Statistics and the transactions that depend on them: two request counters, a
 second request that starts inside the first one's continuation, and page
 changes and retries at any time.
 */
module FinanceLoading {

  import opened Options

  datatype Filters = Filters(product: Option<int>, startDate: Option<string>, endDate: Option<string>)

  datatype Page = Page(current: nat, size: nat)

  /** A statistics response that passed the checks; `figures` stands for the rest of it. */
  datatype Stats = Stats(startDate: string, endDate: string, figures: int)

  datatype Table = Table(rows: seq<int>, total: int)

  datatype Finance = Finance(
    stats: Option<Stats>, rows: seq<int>, total: int, filters: Filters, page: Page,
    statsLoading: bool, tableLoading: bool, statsFailed: bool, tableFailed: bool,
    alive: bool, statsRequest: nat, tableRequest: nat)

  const NO_FILTERS := Filters(None, None, None)

  const FIRST_PAGE := Page(1, 20)

  const FRESH_FINANCE := Finance(None, [], 0, NO_FILTERS, FIRST_PAGE, true, true, false, false, true, 0, 0)

  /** The filters asked for, with the dates the server settled on. */
  function Effective(filters: Filters, stats: Stats): Filters {
    filters.(startDate := Some(stats.startDate), endDate := Some(stats.endDate))
  }

  /** `loadTransactions` up to its `await`. */
  function TableBegun(f: Finance, page: Page): Finance {
    f.(tableRequest := f.tableRequest + 1, page := page, tableLoading := true, tableFailed := false, rows := [], total := 0)
  }

  /** `loadTransactions` after its `await`; None when it failed. */
  function TableLanded(f: Finance, token: nat, reply: Option<Table>): Finance {
    if !f.alive || token != f.tableRequest then f
    else
      match reply
      case Some(table) => f.(rows := table.rows, total := table.total, tableLoading := false)
      case None => f.(tableFailed := true, tableLoading := false)
  }

  /** `loadAll` up to its `await`. */
  function AllBegun(f: Finance, filters: Filters, page: Page): Finance {
    f.(statsRequest := f.statsRequest + 1, tableRequest := f.tableRequest + 1, filters := filters, page := page,
       statsLoading := true, tableLoading := true, statsFailed := false, tableFailed := false,
       stats := None, rows := [], total := 0)
  }

  /** `loadAll` after its `await`, up to the `await` of the transactions it loads then. */
  function StatsLanded(f: Finance, token: nat, filters: Filters, page: Page, reply: Option<Stats>): Finance {
    if !f.alive || token != f.statsRequest then f
    else
      match reply
      case Some(stats) =>
        TableBegun(f.(stats := reply, filters := Effective(filters, stats), statsLoading := false), page)
      case None => f.(statsFailed := true, tableFailed := true, tableLoading := false, statsLoading := false)
  }

  function Unmounted(f: Finance): Finance {
    f.(alive := false, statsRequest := f.statsRequest + 1, tableRequest := f.tableRequest + 1)
  }

  class FinancePage {
    var stats: Option<Stats>
    var rows: seq<int>
    var total: int
    var filters: Filters
    var page: Page
    var statsLoading: bool
    var tableLoading: bool
    var statsFailed: bool
    var tableFailed: bool
    var alive: bool
    var statsRequest: nat
    var tableRequest: nat

    function View(): Finance
      reads this
    {
      Finance(stats, rows, total, filters, page, statsLoading, tableLoading, statsFailed, tableFailed,
              alive, statsRequest, tableRequest)
    }

    constructor ()
      ensures View() == FRESH_FINANCE
    {
      stats, rows, total, filters, page := None, [], 0, NO_FILTERS, FIRST_PAGE;
      statsLoading, tableLoading, statsFailed, tableFailed := true, true, false, false;
      alive, statsRequest, tableRequest := true, 0, 0;
    }

    /** Both loaders empty the table and supersede its requests. */
    method ResetTable(nextPage: Page)
      modifies this
      ensures View() == TableBegun(old(View()), nextPage)
    {
      tableRequest := tableRequest + 1;
      page, tableLoading, tableFailed := nextPage, true, false;
      rows, total := [], 0;
    }

    method BeginTransactions(nextPage: Page) returns (token: nat)
      modifies this
      ensures View() == TableBegun(old(View()), nextPage) && token == tableRequest
    {
      ResetTable(nextPage);
      token := tableRequest;
    }

    method ReceiveTransactions(token: nat, reply: Option<Table>)
      modifies this
      ensures View() == TableLanded(old(View()), token, reply)
    {
      if !alive || token != tableRequest {
        return;
      }
      if reply.Some? {
        rows := reply.value.rows;
        total := reply.value.total;
      } else {
        tableFailed := true;
      }
      tableLoading := false;
    }

    method BeginAll(nextFilters: Filters, nextPage: Page) returns (token: nat)
      modifies this
      ensures View() == AllBegun(old(View()), nextFilters, nextPage) && token == statsRequest
    {
      statsRequest := statsRequest + 1;
      token := statsRequest;
      ResetTable(nextPage);
      filters, statsLoading, statsFailed, stats := nextFilters, true, false, None;
    }

    /** The token of the transactions request it starts, if any. */
    method ReceiveStats(token: nat, nextFilters: Filters, nextPage: Page, reply: Option<Stats>) returns (table: Option<nat>)
      modifies this
      ensures View() == StatsLanded(old(View()), token, nextFilters, nextPage, reply)
      ensures table == if old(alive) && token == old(statsRequest) && reply.Some? then Some(tableRequest) else None
    {
      if !alive || token != statsRequest {
        return None;
      }
      if reply.None? {
        statsFailed := true;
        tableFailed := true;
        tableLoading := false;
        statsLoading := false;
        return None;
      }
      stats := reply;
      filters := Effective(nextFilters, reply.value);
      statsLoading := false;
      var next := BeginTransactions(nextPage);
      return Some(next);
    }

    method Unmount()
      modifies this
      ensures View() == Unmounted(old(View()))
    {
      alive := false;
      statsRequest := statsRequest + 1;
      tableRequest := tableRequest + 1;
    }
  }

  // ----- runs -----

  /** What a request asks for. */
  datatype Query = Query(filters: Filters, page: Page)

  /** The page, its requests in flight, and what the figures and rows shown were asked with. */
  datatype World = World(f: Finance, asking: map<nat, Query>, fetching: map<nat, Query>, statsFor: Filters, rowsFor: Query)

  /** Mounting asks for everything, without filters. */
  const START := World(AllBegun(FRESH_FINANCE, NO_FILTERS, FIRST_PAGE), map[1 := Query(NO_FILTERS, FIRST_PAGE)], map[],
                       NO_FILTERS, Query(NO_FILTERS, FIRST_PAGE))

  /** `LoadAll` comes with any filters and page: its callers may hold old ones. */
  datatype Event =
    | LoadAll(filters: Filters, page: Page)
    | TurnPage(page: Page)
    | StatsLand(token: nat, reply: Option<Stats>)
    | TableLands(token: nat, table: Option<Table>)
    | Unmount

  ghost predicate Possible(w: World, e: Event) {
    match e
    case LoadAll(_, _) => w.f.alive
    case TurnPage(_) => w.f.alive
    case StatsLand(token, _) => token in w.asking
    case TableLands(token, _) => token in w.fetching
    case Unmount => w.f.alive
  }

  ghost function Next(w: World, e: Event): World
    requires Possible(w, e)
  {
    match e
    case LoadAll(filters, page) =>
      w.(f := AllBegun(w.f, filters, page), asking := w.asking[w.f.statsRequest + 1 := Query(filters, page)])
    case TurnPage(page) =>
      w.(f := TableBegun(w.f, page), fetching := w.fetching[w.f.tableRequest + 1 := Query(w.f.filters, page)])
    case StatsLand(token, reply) =>
      var query := w.asking[token];
      var next := w.(f := StatsLanded(w.f, token, query.filters, query.page, reply), asking := w.asking - {token});
      if !w.f.alive || token != w.f.statsRequest || reply.None? then next
      else
        var effective := Effective(query.filters, reply.value);
        next.(statsFor := effective, fetching := w.fetching[w.f.tableRequest + 1 := Query(effective, query.page)])
    case TableLands(token, table) =>
      var next := w.(f := TableLanded(w.f, token, table), fetching := w.fetching - {token});
      if !w.f.alive || token != w.f.tableRequest || table.None? then next else next.(rowsFor := w.fetching[token])
    case Unmount => w.(f := Unmounted(w.f))
  }

  ghost predicate ValidRun(w: World, events: seq<Event>)
    decreases |events|
  {
    events == [] || (Possible(w, events[0]) && ValidRun(Next(w, events[0]), events[1..]))
  }

  ghost function After(w: World, events: seq<Event>): World
    requires ValidRun(w, events)
    decreases |events|
  {
    if events == [] then w else After(Next(w, events[0]), events[1..])
  }

  // ----- the invariant -----

  ghost predicate TokensBounded(w: World) {
    && (forall t :: t in w.asking ==> 0 < t <= w.f.statsRequest)
    && (forall t :: t in w.fetching ==> 0 < t <= w.f.tableRequest)
  }

  /** The statistics shown are for the current filters. */
  ghost predicate StatsTraced(w: World) {
    w.f.stats.Some? ==>
      && w.f.filters == w.statsFor
      && w.f.filters.startDate == Some(w.f.stats.value.startDate)
      && w.f.filters.endDate == Some(w.f.stats.value.endDate)
  }

  /** The request that is still live and the rows shown use the current filters and page. */
  ghost predicate RowsTraced(w: World) {
    && (w.f.alive && w.f.tableRequest in w.fetching ==> w.fetching[w.f.tableRequest] == Query(w.f.filters, w.f.page))
    && (w.f.rows != [] ==> w.rowsFor == Query(w.f.filters, w.f.page))
  }

  /** A spinner always waits for a request that is still live; nothing is shown under it. */
  ghost predicate SpinnersLive(w: World) {
    w.f.alive ==>
      && (w.f.statsLoading <==> w.f.statsRequest in w.asking)
      && (w.f.tableLoading ==> w.f.tableRequest in w.fetching || w.f.statsRequest in w.asking)
      && (w.f.statsLoading ==> w.f.stats.None?)
      && (w.f.tableRequest in w.fetching ==> w.f.rows == [])
  }

  ghost predicate Inv(w: World) {
    TokensBounded(w) && StatsTraced(w) && RowsTraced(w) && SpinnersLive(w)
  }

  lemma StatsLandKeeps(w: World, token: nat, reply: Option<Stats>)
    requires Inv(w) && token in w.asking
    ensures Inv(Next(w, StatsLand(token, reply)))
  {
    hide TableLanded;
    hide AllBegun;
  }

  lemma TableLandsKeeps(w: World, token: nat, table: Option<Table>)
    requires Inv(w) && token in w.fetching
    ensures Inv(Next(w, TableLands(token, table)))
  {
    hide StatsLanded;
    hide AllBegun;
    hide TableBegun;
  }

  lemma NextKeeps(w: World, e: Event)
    requires Inv(w) && Possible(w, e)
    ensures Inv(Next(w, e))
  {
    hide StatsLanded;
    hide TableLanded;
    match e
    case StatsLand(token, reply) => StatsLandKeeps(w, token, reply);
    case TableLands(token, table) => TableLandsKeeps(w, token, table);
    case _ =>
  }

  lemma {:induction false} RunKeeps(w: World, events: seq<Event>)
    requires Inv(w) && ValidRun(w, events)
    ensures Inv(After(w, events))
    decreases |events|
  {
    hide Inv;
    hide Next;
    hide Possible;
    if events != [] {
      NextKeeps(w, events[0]);
      RunKeeps(Next(w, events[0]), events[1..]);
    }
  }

  /**
   The rows shown were always fetched with the current filters and page; whenever
   statistics are shown, that is their date range and product.
   */
  lemma RowsMatchStats(events: seq<Event>)
    requires ValidRun(START, events)
    ensures var w := After(START, events);
            && (w.f.rows != [] ==> w.rowsFor == Query(w.f.filters, w.f.page))
            && (w.f.stats.Some? ==>
                  && w.statsFor.startDate == Some(w.f.stats.value.startDate)
                  && w.statsFor.endDate == Some(w.f.stats.value.endDate)
                  && (w.f.rows != [] ==> w.rowsFor == Query(w.statsFor, w.f.page)))
  {
    RunKeeps(START, events);
  }

  /** While mounted, no spinner outlives the requests it waits for. */
  lemma SpinnersEnd(events: seq<Event>)
    requires ValidRun(START, events)
    ensures var w := After(START, events);
            w.f.alive && w.asking == map[] && w.fetching == map[] ==> !w.f.statsLoading && !w.f.tableLoading
  {
    RunKeeps(START, events);
  }

  // ----- what an answer changes -----

  /** No later load started and the page is still mounted. */
  ghost predicate TableAwaited(w: World, token: nat) {
    w.f.alive && token == w.f.tableRequest
  }

  ghost predicate StatsAwaited(w: World, token: nat) {
    w.f.alive && token == w.f.statsRequest
  }

  /**
   The awaited transactions are shown as they came, with their total; a failure
   shows none. Any other answer changes nothing, and no answer touches the
   statistics, the filters or the page.
   */
  lemma TableAnswerShown(events: seq<Event>, token: nat, table: Option<Table>)
    requires ValidRun(START, events) && token in After(START, events).fetching
    ensures var w := After(START, events);
            var v := Next(w, TableLands(token, table)).f;
            && v.stats == w.f.stats && v.filters == w.f.filters && v.page == w.f.page
            && (TableAwaited(w, token) ==> !v.tableLoading)
            && (TableAwaited(w, token) && table.Some? ==> v.rows == table.value.rows && v.total == table.value.total)
            && (TableAwaited(w, token) && table.Some? ==> v.tableFailed == w.f.tableFailed)
            && (TableAwaited(w, token) && table.None? ==> v.rows == [] && v.tableFailed)
            && (!TableAwaited(w, token) ==> v == w.f)
  {
    RunKeeps(START, events);
    hide ValidRun;
    hide After;
  }

  /**
   The awaited statistics are shown with their dates as the filters, and the
   transactions of exactly those filters are asked for. A failure shows neither
   figures nor rows behind it, and nothing is left turning for it.
   */
  lemma StatsAnswerShown(events: seq<Event>, token: nat, reply: Option<Stats>)
    requires ValidRun(START, events) && token in After(START, events).asking
    ensures var w := After(START, events);
            var next := Next(w, StatsLand(token, reply));
            var v, query := next.f, w.asking[token];
            && (StatsAwaited(w, token) ==> !v.statsLoading)
            && (StatsAwaited(w, token) && reply.Some? ==>
                  && v.stats == reply && v.page == query.page && v.rows == [] && v.total == 0 && v.tableLoading && !v.tableFailed
                  && v.filters == Filters(query.filters.product, Some(reply.value.startDate), Some(reply.value.endDate))
                  && v.tableRequest > w.f.tableRequest
                  && v.tableRequest in next.fetching && next.fetching[v.tableRequest] == Query(v.filters, v.page))
            && (StatsAwaited(w, token) && reply.None? ==>
                  && v.stats == None && v.statsFailed && v.tableFailed && !v.tableLoading
                  && v.rows == w.f.rows && v.filters == w.f.filters && next.fetching == w.fetching)
            && (!StatsAwaited(w, token) ==> v == w.f && next.fetching == w.fetching)
  {
    RunKeeps(START, events);
    hide ValidRun;
    hide After;
    hide TokensBounded;
    hide StatsTraced;
    hide RowsTraced;
  }

  /**
   A load shows nothing until its own answer comes: it is the one awaited, for
   the filters and page given, and every earlier request has been overtaken.
   Turning the page does so for the transactions alone, with the filters current.
   */
  lemma LoadAsksAnew(w: World, e: Event)
    requires Inv(w) && Possible(w, e) && (e.LoadAll? || e.TurnPage?)
    ensures var next := Next(w, e);
            var v := next.f;
            && v.rows == [] && v.total == 0 && v.tableLoading && !v.tableFailed && v.page == e.page
            && (forall token :: token in w.fetching ==> !TableAwaited(next, token))
            && (e.LoadAll? ==>
                  && v.stats == None && v.statsLoading && !v.statsFailed && v.filters == e.filters && next.fetching == w.fetching
                  && (forall token :: token in w.asking ==> !StatsAwaited(next, token))
                  && exists token :: token in next.asking && StatsAwaited(next, token) && next.asking[token] == Query(e.filters, e.page))
            && (e.TurnPage? ==>
                  && v.stats == w.f.stats && v.filters == w.f.filters && next.asking == w.asking
                  && exists token :: token in next.fetching && TableAwaited(next, token) && next.fetching[token] == Query(v.filters, e.page))
  {
    var next := Next(w, e);
    if e.LoadAll? {
      assert StatsAwaited(next, w.f.statsRequest + 1);
    } else {
      assert TableAwaited(next, w.f.tableRequest + 1);
    }
  }

  lemma {:induction false} RequestsGrow(w: World, events: seq<Event>)
    requires ValidRun(w, events)
    ensures After(w, events).f.tableRequest >= w.f.tableRequest && After(w, events).f.statsRequest >= w.f.statsRequest
    decreases |events|
  {
    if events != [] {
      RequestsGrow(Next(w, events[0]), events[1..]);
    }
  }

  /** A request overtaken by a later load, a page change or an unmount shows nothing, however late it answers. */
  lemma OvertakenShowsNothing(w: World, e: Event, later: seq<Event>, token: nat, table: Option<Table>)
    requires Inv(w) && Possible(w, e) && (e.LoadAll? || e.TurnPage? || e.Unmount?)
    requires token in w.fetching && ValidRun(Next(w, e), later) && token in After(Next(w, e), later).fetching
    ensures Next(After(Next(w, e), later), TableLands(token, table)).f == After(Next(w, e), later).f
  {
    RequestsGrow(Next(w, e), later);
    hide After;
    hide ValidRun;
  }

  /** Rows and total, and the statistics, each came together in one answer. */
  ghost predicate Answered(f: Finance, past: seq<Event>) {
    && (f.rows != [] || f.total != 0 ==> exists token :: TableLands(token, Some(Table(f.rows, f.total))) in past)
    && (f.stats.Some? ==> exists token :: StatsLand(token, f.stats) in past)
  }

  lemma NextAnswered(w: World, past: seq<Event>, e: Event)
    requires Possible(w, e) && Answered(w.f, past)
    ensures Answered(Next(w, e).f, past + [e])
  {
    assert e in past + [e];
    assert forall x :: x in past ==> x in past + [e];
  }

  lemma {:induction false} RunAnswered(w: World, past: seq<Event>, events: seq<Event>)
    requires ValidRun(w, events) && Answered(w.f, past)
    ensures Answered(After(w, events).f, past + events)
    decreases |events|
  {
    hide Answered;
    hide Next;
    hide Possible;
    if events == [] {
      assert past + events == past;
    } else {
      NextAnswered(w, past, events[0]);
      RunAnswered(Next(w, events[0]), past + [events[0]], events[1..]);
      assert past + [events[0]] + events[1..] == past + events;
    }
  }

  /** Whatever the run, the rows shown with their total are one answer of it, and so are the statistics. */
  lemma ShownWasAnswered(events: seq<Event>)
    requires ValidRun(START, events)
    ensures Answered(After(START, events).f, events)
  {
    RunAnswered(START, [], events);
    assert [] + events == events;
  }
}
