/**
 * The market-data API (`backend/server.py`): a row-by-row replay of the
 * loaded price table that starts over after the last row, the most
 * recent row it produced, the last-N-rows query, and the Yahoo Finance
 * proxy's query defaults and error statuses.
 */
module StockServer {
  import opened Common

  /** One row of the loaded price table. */
  datatype Row = Row(date: string, open: real, high: real, low: real, close: real, volume: int)

  /** What `/next_data` answers: the row's date and its opening price. */
  datatype Reading = Reading(time: string, value: real)

  function ReadingOf(row: Row): (r: Reading)
    ensures r.time == row.date && r.value == row.open
  {
    Reading(row.date, row.open)
  }

  /** A request's outcome: a body, or an error status. */
  datatype Result<T> = Ok(value: T) | Failure(status: int)

  /**
   * `df.tail(limit)`: the last `limit` rows for a non-negative limit, and
   * every row except the first `-limit` for a negative one.
   */
  function Tail(rows: seq<Row>, limit: int): (r: seq<Row>)
    ensures limit >= 0 ==> |r| == Min(limit, |rows|)
    ensures limit < 0 ==> |r| == Max(0, |rows| + limit)
    ensures r == rows[|rows| - |r|..]
  {
    if limit >= 0 then LastN(rows, limit)
    else if -limit >= |rows| then []
    else rows[-limit..]
  }

  /** The `/api/stock-data` body. */
  datatype StockData = StockData(status: string, count: int, data: seq<Row>)

  /** `/api/stock-data?limit=...` (50 when absent): the last rows in table order with their count. */
  function GetStockData(rows: seq<Row>, limit: Option<int>): (d: StockData)
    ensures d.status == "success" && d.count == |d.data|
    ensures d.data == Tail(rows, if limit.Some? then limit.value else 50)
  {
    var data := Tail(rows, if limit.Some? then limit.value else 50);
    StockData("success", |data|, data)
  }

  /** With no limit given, the body ends with the last 50 rows, or all of them. */
  lemma DefaultLimit(rows: seq<Row>)
    ensures GetStockData(rows, None).count == Min(50, |rows|)
    ensures GetStockData(rows, None).data == rows[|rows| - Min(50, |rows|)..]
  {
  }

  /** The Yahoo query parameters the proxy forwards: interval and range, defaulting to one minute over one day. */
  datatype ProxyParams = ProxyParams(interval: string, range: string)

  function Params(query: map<string, string>): (p: ProxyParams)
    ensures "interval" in query ==> p.interval == query["interval"]
    ensures "interval" !in query ==> p.interval == "1m"
    ensures "range" in query ==> p.range == query["range"]
    ensures "range" !in query ==> p.range == "1d"
  {
    ProxyParams(if "interval" in query then query["interval"] else "1m",
                if "range" in query then query["range"] else "1d")
  }

  /** How the upstream request went. */
  datatype Upstream =
    | Timeout
    | RequestError
    | Answered(status: int, body: Option<string>)

  /**
   * The proxy's answer as written: a timeout is 504, any other transport
   * failure 502, and everything else that goes wrong (an upstream status
   * other than 200, whose own exception is caught by the catch-all
   * handler, or a body that is not JSON) 500.
   */
  function ProxyOutcome(u: Upstream): (r: Result<string>)
    ensures u == Timeout ==> r == Failure(504)
    ensures u == RequestError ==> r == Failure(502)
    ensures u.Answered? && u.status != 200 ==> r == Failure(500)
    ensures r.Ok? <==> u.Answered? && u.status == 200 && u.body.Some?
    ensures r.Ok? ==> r.value == u.body.value
  {
    match u
    case Timeout => Failure(504)
    case RequestError => Failure(502)
    case Answered(status, body) =>
      if status != 200 then Failure(500)
      else if body.None? then Failure(500)
      else Ok(body.value)
  }

  /** As written, an upstream 404 reaches the caller as a 500. */
  lemma UpstreamNotFoundBecomes500()
    ensures ProxyOutcome(Answered(404, None)) == Failure(500)
  {
  }

  /**
   * The proxy's answer with the upstream status passed through, as the
   * `HTTPException(status_code=response.status_code)` it raises intends.
   */
  function IntendedProxyOutcome(u: Upstream): (r: Result<string>)
    ensures u.Answered? && u.status != 200 ==> r == Failure(u.status)
    ensures r.Ok? <==> u.Answered? && u.status == 200 && u.body.Some?
    ensures !(u.Answered? && u.status != 200) ==> r == ProxyOutcome(u)
  {
    match u
    case Answered(status, _) => if status != 200 then Failure(status) else ProxyOutcome(u)
    case _ => ProxyOutcome(u)
  }

  /** The two versions differ exactly on upstream errors other than 500. */
  lemma IntendedDiffersOnUpstreamErrors(u: Upstream)
    ensures IntendedProxyOutcome(u) != ProxyOutcome(u) <==> u.Answered? && u.status != 200 && u.status != 500
  {
  }

  /**
   * Where the iterator is after `calls` answered calls, and why its next
   * row, after a restart if it is exhausted, is row `calls` mod n.
   */
  lemma IteratorStep(calls: nat, n: nat, position: nat)
    requires n > 0 && position == (if calls == 0 then 0 else (calls - 1) % n + 1)
    ensures var p := if position < n then position else 0;
      p == calls % n
  {
    if calls > 0 {
      ModSucc(calls - 1, n);
      DivModUnique(n, n, 1, 0);
    } else {
      DivModUnique(0, n, 0, 0);
    }
    if position < n && calls > 0 {
      DivModUnique(position, n, 0, position);
    }
  }

  class Server {
    const rows: seq<Row>
    /** The position of the row iterator: the index of the row it yields next. */
    var position: nat
    var currentRow: Option<Reading>
    /** How many `/next_data` calls have been answered. */
    ghost var calls: nat

    /** The iterator sits just past the row of the latest call, which was row (calls - 1) mod n. */
    ghost predicate Valid()
      reads this
    {
      position <= |rows|
      && (|rows| > 0 ==> position == (if calls == 0 then 0 else (calls - 1) % |rows| + 1))
      && (calls == 0 ==> currentRow == None)
      && (|rows| > 0 && calls > 0 ==> currentRow == Some(ReadingOf(rows[(calls - 1) % |rows|])))
    }

    constructor (rows: seq<Row>)
      ensures Valid() && this.rows == rows && position == 0 && currentRow == None && calls == 0
    {
      this.rows := rows;
      position := 0;
      currentRow := None;
      calls := 0;
    }

    /**
     * `/next_data`: the k-th answered call gives row (k - 1) mod n, so the
     * rows come in table order and start over after the last. With no
     * rows the restarted iterator is exhausted at once and the request
     * fails with 500.
     */
    method NextData() returns (r: Result<Reading>)
      requires Valid()
      modifies this
      ensures Valid()
      ensures |rows| == 0 ==> r == Failure(500) && currentRow == old(currentRow) && calls == old(calls)
      ensures |rows| > 0 ==>
        r == Ok(ReadingOf(rows[old(calls) % |rows|])) && currentRow == Some(r.value) && calls == old(calls) + 1
    {
      if |rows| > 0 {
        IteratorStep(calls, |rows|, position);
      }
      if position < |rows| {
        var row := rows[position];
        currentRow := Some(ReadingOf(row));
        position := position + 1;
      } else {
        position := 0;
        if |rows| == 0 {
          return Failure(500);
        }
        var row := rows[position];
        currentRow := Some(ReadingOf(row));
        position := position + 1;
      }
      calls := calls + 1;
      r := Ok(currentRow.value);
    }

    /** `/current_data`: the latest reading, or one with no time and no value before the first call. */
    function CurrentData(): (r: Option<Reading>)
      requires Valid()
      reads this
      ensures calls == 0 ==> r == None
      ensures |rows| > 0 && calls > 0 ==> r == Some(ReadingOf(rows[(calls - 1) % |rows|]))
    {
      currentRow
    }
  }
}
