/**
 * The server-side paging protocol both list screens speak to
 * `/<resource>/datatable`: the request a page number, page size and search
 * text become, and how a reply is read back into rows and a row count.
 */
module DataTable {
  import opened Js

  /** The query parameters `draw`, `start`, `length` and `search[value]`. */
  datatype Request = Request(draw: int, start: int, length: int, search: string)

  /** The reply body; `data`, `recordsFiltered` and `recordsTotal` may each be missing or null. */
  datatype Reply<Row> = Reply(data: Option<seq<Row>>, recordsFiltered: Option<int>, recordsTotal: Option<int>)

  /** The request for page `pageNumber` (counted from 1) of `pageSize` rows. */
  function PageRequest(pageNumber: int, pageSize: int, search: string): Request {
    Request(1, (pageNumber - 1) * pageSize, pageSize, search)
  }

  /** `res.data.data || []`: an array, even an empty one, is kept; a missing one reads as no rows. */
  function RowsOf<Row>(reply: Reply<Row>): seq<Row> {
    reply.data.GetOr([])
  }

  /**
   * `recordsFiltered ?? recordsTotal ?? 0`: the first count that is present,
   * even when it is 0; 0 when neither is.
   */
  function TotalRows<Row>(reply: Reply<Row>): int {
    Coalesce(reply.recordsFiltered, Coalesce(reply.recordsTotal, Some(0))).value
  }

  /** Neither count the server sent is negative. */
  predicate CountsNonNegative<Row>(reply: Reply<Row>) {
    && (reply.recordsFiltered.Some? ==> reply.recordsFiltered.value >= 0)
    && (reply.recordsTotal.Some? ==> reply.recordsTotal.value >= 0)
  }

  /** The reply a server following the protocol sends: the page's rows, the filtered count and the total. */
  function Served<Row>(rows: seq<Row>, filtered: int, total: int): Reply<Row> {
    Reply(Some(rows), Some(filtered), Some(total))
  }

  /** Reading a served reply back gives the rows sent and the filtered count, never the total. */
  lemma ReadBackRoundTrip<Row>(rows: seq<Row>, filtered: int, total: int)
    ensures RowsOf(Served(rows, filtered, total)) == rows
    ensures TotalRows(Served(rows, filtered, total)) == filtered
  {
  }

  /**
   * A reply with fields missing still reads back: no rows for a missing
   * `data`, and as the count the first count present, or 0. A count read
   * back is never negative when the server's counts are not.
   */
  lemma ReadBackDefaults<Row>(reply: Reply<Row>)
    ensures reply.data.None? ==> RowsOf(reply) == []
    ensures reply.recordsFiltered.None? && reply.recordsTotal.Some? ==> TotalRows(reply) == reply.recordsTotal.value
    ensures reply.recordsFiltered.None? && reply.recordsTotal.None? ==> TotalRows(reply) == 0
    ensures CountsNonNegative(reply) ==> TotalRows(reply) >= 0
  {
  }

  /** A filtered count of 0 is not replaced by the total: the search matched nothing. */
  lemma ZeroFilteredIsKept<Row>(rows: Option<seq<Row>>, total: int)
    ensures TotalRows(Reply(rows, Some(0), Some(total))) == 0
  {
  }

  /**
   * Page `pageNumber` starts at a non-negative multiple of the page size and
   * its number can be read back from its start.
   */
  lemma {:induction false} PageWindow(pageNumber: int, pageSize: int, search: string)
    requires pageNumber >= 1 && pageSize >= 1
    ensures var r := PageRequest(pageNumber, pageSize, search);
      r.draw == 1 && r.length == pageSize && r.search == search
      && r.start >= 0 && r.start % pageSize == 0 && r.start / pageSize + 1 == pageNumber
  {
    var start := (pageNumber - 1) * pageSize;
    assert start >= 0 by {
      MulNonNegative(pageNumber - 1, pageSize);
    }
    MulDivExact(pageNumber - 1, pageSize);
  }

  /** Consecutive pages are adjacent: the next page starts where this one ends. */
  lemma {:induction false} PagesAreAdjacent(pageNumber: int, pageSize: int, search: string)
    ensures PageRequest(pageNumber + 1, pageSize, search).start
      == PageRequest(pageNumber, pageSize, search).start + PageRequest(pageNumber, pageSize, search).length
  {
    assert pageNumber * pageSize == (pageNumber - 1) * pageSize + pageSize by {
      DistributeOne(pageNumber - 1, pageSize);
    }
  }

  /** Every row index lies on exactly one page, page `k / pageSize + 1`. */
  lemma {:induction false} RowOnExactlyOnePage(k: nat, pageSize: int, search: string, pageNumber: int)
    requires pageSize >= 1 && pageNumber >= 1
    ensures var home := PageRequest(k / pageSize + 1, pageSize, search);
      home.start <= k < home.start + home.length
    ensures var r := PageRequest(pageNumber, pageSize, search);
      r.start <= k < r.start + r.length ==> pageNumber == k / pageSize + 1
  {
    var q := k / pageSize;
    assert q * pageSize <= k < q * pageSize + pageSize by {
      DivBounds(k, pageSize);
    }
    var p := pageNumber - 1;
    if p * pageSize <= k < p * pageSize + pageSize {
      if p < q {
        MulMonotone(p + 1, q, pageSize);
        DistributeOne(p, pageSize);
      } else if p > q {
        MulMonotone(q + 1, p, pageSize);
        DistributeOne(q, pageSize);
      }
    }
  }

  lemma MulNonNegative(a: int, b: int)
    requires a >= 0 && b >= 0
    ensures a * b >= 0
  {
  }

  lemma DistributeOne(a: int, b: int)
    ensures (a + 1) * b == a * b + b
  {
  }

  lemma MulMonotone(a: int, b: int, c: int)
    requires a <= b && c >= 0
    ensures a * c <= b * c
  {
  }

  lemma MulDivExact(a: int, b: int)
    requires a >= 0 && b >= 1
    ensures (a * b) % b == 0 && (a * b) / b == a
  {
    var x := a * b;
    var q, r := x / b, x % b;
    assert (a - q) * b == r by {
      assert x == q * b + r;
      assert (a - q) * b == a * b - q * b;
    }
    if a - q >= 1 {
      MulMonotone(1, a - q, b);
    } else if a - q <= -1 {
      MulMonotone(a - q, -1, b);
    }
  }

  lemma DivBounds(k: nat, n: int)
    requires n >= 1
    ensures (k / n) * n <= k < (k / n) * n + n
  {
  }
}
