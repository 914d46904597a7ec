/**
 * The chatbot service (`backend/chatbot_server.py`): a window of price
 * rows that starts one row later on every request and wraps round the
 * table, and the reply to a chat message, which is a fixed prompt for an
 * empty message, a fixed apology when the language model fails, and the
 * model's trimmed text otherwise.
 */
module ChatbotServer {
  import opened Common

  /** One row of the loaded price table. */
  datatype Row = Row(date: string, open: real, high: real, low: real, close: real, volume: int)

  /** One point of the `/api/stock-data` answer. */
  datatype Point = Point(time: string, open: real, high: real, low: real, close: real, volume: int)

  function PointOf(row: Row): (p: Point)
    ensures p.time == row.date && p.open == row.open && p.high == row.high
    ensures p.low == row.low && p.close == row.close && p.volume == row.volume
  {
    Point(row.date, row.open, row.high, row.low, row.close, row.volume)
  }

  /** The conversion of a run of rows, one point per row, in order. */
  function Points(rows: seq<Row>): (ps: seq<Point>)
    ensures |ps| == |rows|
    ensures forall j :: 0 <= j < |rows| ==> ps[j] == PointOf(rows[j])
  {
    if rows == [] then [] else Points(rows[..|rows| - 1]) + [PointOf(rows[|rows| - 1])]
  }

  /** A request's outcome: a body, or an error status. */
  datatype Result<T> = Ok(value: T) | Failure(status: int)

  /** The `limit` query parameter, 50 when it is absent or not a whole number. */
  function LimitOr50(limit: Option<int>): (l: int)
    ensures limit.Some? ==> l == limit.value
    ensures limit.None? ==> l == 50
  {
    if limit.Some? then limit.value else 50
  }

  /**
   * `df.iloc[start:min(start + limit, n)]` with Python's slice rules: a
   * negative end counts from the back of the table (and stops at its
   * front), and a slice whose end is not past its start is empty.
   */
  function Window(rows: seq<Row>, start: nat, limit: int): (w: seq<Row>)
    requires start <= |rows|
  {
    var e := Min(start + limit, |rows|);
    var end := if e < 0 then Max(0, e + |rows|) else e;
    if start < end then rows[start..end] else []
  }

  /**
   * For a non-negative limit the window is the next `limit` rows from
   * the cursor, or as many as remain before the end of the table.
   */
  lemma WindowForLimit(rows: seq<Row>, start: nat, limit: nat)
    requires start <= |rows|
    ensures |Window(rows, start, limit)| == Min(limit, |rows| - start)
    ensures forall j :: 0 <= j < |Window(rows, start, limit)| ==> Window(rows, start, limit)[j] == rows[start + j]
  {
  }

  /**
   * For a negative limit the window is empty unless the end falls before
   * the front of the table, where it wraps: from the cursor to `limit`
   * rows short of the table's end counted from the cursor.
   */
  lemma WindowForNegativeLimit(rows: seq<Row>, start: nat, limit: int)
    requires start <= |rows| && limit < 0
    ensures start + limit >= 0 ==> Window(rows, start, limit) == []
    ensures start + limit < 0 && start < start + limit + |rows| ==>
      Window(rows, start, limit) == rows[start..start + limit + |rows|]
    ensures start + limit < 0 && start >= start + limit + |rows| ==> Window(rows, start, limit) == []
  {
  }

  /** With the cursor at the front, a limit of -1 returns every row but the last. */
  lemma MinusOneFromFront(rows: seq<Row>)
    requires |rows| > 1
    ensures Window(rows, 0, -1) == rows[..|rows| - 1]
  {
    WindowForNegativeLimit(rows, 0, -1);
  }

  class ChatServer {
    const rows: seq<Row>
    /** Where the next window starts. */
    var currentIndex: nat
    /** How many windows have been served. */
    ghost var calls: nat

    /** The cursor has moved one row per served window, wrapping round the table. */
    ghost predicate Valid()
      reads this
    {
      (|rows| > 0 ==> currentIndex == calls % |rows|)
      && (|rows| == 0 ==> currentIndex == 0 && calls == 0)
    }

    constructor (rows: seq<Row>)
      ensures Valid() && this.rows == rows && currentIndex == 0 && calls == 0
    {
      this.rows := rows;
      currentIndex := 0;
      calls := 0;
    }

    /**
     * `/api/stock-data`: the k-th request (from 0) is answered with the
     * window starting at row k mod n, converted point by point, and the
     * cursor moves on by one row. With no rows the closing `% len(df)`
     * divides by zero and the request fails with 500.
     */
    method GetStockData(limit: Option<int>) returns (r: Result<seq<Point>>)
      requires Valid()
      modifies this
      ensures Valid()
      ensures |rows| == 0 ==> r == Failure(500) && currentIndex == old(currentIndex) && calls == old(calls)
      ensures |rows| > 0 ==>
        r == Ok(Points(Window(rows, old(calls) % |rows|, LimitOr50(limit))))
        && calls == old(calls) + 1 && currentIndex == calls % |rows|
    {
      var startIdx := currentIndex;
      var dataSlice := Window(rows, startIdx, LimitOr50(limit));
      var result: seq<Point> := [];
      var i := 0;
      while i < |dataSlice|
        invariant 0 <= i <= |dataSlice|
        invariant result == Points(dataSlice[..i])
      {
        assert dataSlice[..i + 1][..i] == dataSlice[..i];
        result := result + [PointOf(dataSlice[i])];
        i := i + 1;
      }
      assert dataSlice[..i] == dataSlice;
      if |rows| == 0 {
        return Failure(500);
      }
      ModSucc(calls, |rows|);
      currentIndex := (currentIndex + 1) % |rows|;
      calls := calls + 1;
      r := Ok(result);
    }
  }

  /** How the call to the language model went. */
  datatype Generation = Generated(text: string) | GenerationFailed

  const EmptyPrompt: string := "Please enter a stock-related question."
  const Apology: string := ApologyHead + ApologyTail
  const ApologyHead: string := "Sorry, I couldn't process that. "
  const ApologyTail: string := "Please ask a stock-related question!"

  /**
   * `/get_response`: the message (empty when absent) is trimmed; a blank
   * one gets the fixed prompt, a failed generation the fixed apology, and
   * otherwise the reply is the model's text with surrounding whitespace
   * removed.
   */
  function Respond(message: Option<string>, g: Generation): (reply: string)
  {
    var userInput := Trim(if message.Some? then message.value else "");
    if userInput == [] then EmptyPrompt
    else if g.GenerationFailed? then Apology
    else Trim(g.text)
  }

  /**
   * A blank or missing message is answered with the prompt whatever the
   * model would have said; any other message gets the apology exactly
   * when generation fails, and the model's trimmed text otherwise.
   */
  lemma RespondCases(message: Option<string>, g: Generation)
    ensures message.None? || Blank(message.value) ==> Respond(message, g) == EmptyPrompt
    ensures message.Some? && !Blank(message.value) && g.GenerationFailed? ==> Respond(message, g) == Apology
    ensures message.Some? && !Blank(message.value) && g.Generated? ==> Respond(message, g) == Trim(g.text)
  {
  }

  /** The two fixed replies start and end with something other than whitespace. */
  lemma FixedRepliesTrimmed()
    ensures !IsSpace(EmptyPrompt[0]) && !IsSpace(EmptyPrompt[|EmptyPrompt| - 1])
    ensures !IsSpace(Apology[0]) && !IsSpace(Apology[|Apology| - 1])
  {
    assert Apology[0] == ApologyHead[0] && Apology[|Apology| - 1] == ApologyTail[|ApologyTail| - 1];
  }

  /** Every reply, fixed or generated, neither starts nor ends with whitespace. */
  lemma ReplyIsTrimmed(message: Option<string>, g: Generation)
    ensures var reply := Respond(message, g);
      reply != [] ==> !IsSpace(reply[0]) && !IsSpace(reply[|reply| - 1])
  {
    var userInput := Trim(if message.Some? then message.value else "");
    if userInput == [] {
      FixedRepliesTrimmed();
    } else if g.GenerationFailed? {
      FixedRepliesTrimmed();
    } else {
      var t := Trim(g.text);
      assert Respond(message, g) == t;
    }
  }
}
