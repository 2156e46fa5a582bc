/** The stored daily price table of one stock and the upsert of today's
    quote into it: the branch at the end of `scrape_daily_data` that either
    overwrites the rows already dated today or puts a new row in front. */
module PriceTable {
  import opened Wrappers

  /** The values scraped for one trading day. `changePercent` is kept as the
      text shown on the page (parentheses stripped), as the source keeps it. */
  datatype Quote = Quote(price: real, open: real, high: real, low: real, changePercent: string)

  /** One row of the table: its `Date` key, the quote columns, and the values
      of any further columns a stored table carries, keyed by header (the
      table first written from the historical-data page has more columns than
      a freshly scraped row; pandas fills the missing ones with NaN, which here
      is an absent key). */
  datatype Row = Row(date: string, quote: Quote, others: map<string, string>)

  /** The one-row frame built from today's date and quote. */
  function NewRow(date: string, q: Quote): Row {
    Row(date, q, map[])
  }

  /** `date in df['Date'].values`. */
  predicate HasDate(rows: seq<Row>, date: string) {
    exists i :: 0 <= i < |rows| && rows[i].date == date
  }

  /** The `Date` column. */
  function Dates(rows: seq<Row>): seq<string> {
    seq(|rows|, i requires 0 <= i < |rows| => rows[i].date)
  }

  /** No two rows share a date. */
  predicate UniqueDates(rows: seq<Row>) {
    forall i, j :: 0 <= i < j < |rows| ==> rows[i].date != rows[j].date
  }

  /** Lexicographic order on date strings; on zero-padded `YYYY-MM-DD` text,
      as `strftime("%Y-%m-%d")` writes it, this is calendar order. */
  predicate DateBefore(a: string, b: string)
    decreases |a|
  {
    |b| > 0 && (|a| == 0 || a[0] < b[0] || (a[0] == b[0] && DateBefore(a[1..], b[1..])))
  }

  /** Every row is dated strictly later than the row after it. */
  predicate NewestFirst(rows: seq<Row>) {
    forall i :: 1 <= i < |rows| ==> DateBefore(rows[i].date, rows[i - 1].date)
  }

  /** One row after the `.loc` assignment of line 77. */
  function Refreshed(row: Row, date: string, q: Quote): Row {
    if row.date == date then row.(quote := q) else row
  }

  /** The table after the `.loc` assignment: every row dated `date` takes the
      new quote columns; everything else stays. */
  function Overwritten(rows: seq<Row>, date: string, q: Quote): seq<Row> {
    seq(|rows|, i requires 0 <= i < |rows| => Refreshed(rows[i], date, q))
  }

  /** The table `scrape_daily_data` writes back and returns, given the stored
      table (`None` when no file exists), today's date and today's quote. */
  function Merged(existing: Option<seq<Row>>, date: string, q: Quote): (r: seq<Row>)
    // afterwards today is in the table, and every row dated today shows today's quote
    ensures HasDate(r, date)
    ensures forall i :: 0 <= i < |r| && r[i].date == date ==> r[i].quote == q
    // no stored table: the single new row
    ensures existing.None? ==> r == [NewRow(date, q)]
    // today already stored: same rows, same order, only the quote columns of today's rows change
    ensures existing.Some? && HasDate(existing.value, date) ==>
      |r| == |existing.value| &&
      forall i :: 0 <= i < |r| ==>
        r[i].date == existing.value[i].date && r[i].others == existing.value[i].others &&
        (existing.value[i].date != date ==> r[i] == existing.value[i])
    // today not stored yet: the new row first, then the old rows in their order
    ensures existing.Some? && !HasDate(existing.value, date) ==>
      |r| == |existing.value| + 1 && r[0] == NewRow(date, q) && r[1..] == existing.value
  {
    match existing
    case None =>
      assert [NewRow(date, q)][0].date == date;
      [NewRow(date, q)]
    case Some(rows) =>
      if HasDate(rows, date) then
        assert HasDate(Overwritten(rows, date, q), date) by {
          var j :| 0 <= j < |rows| && rows[j].date == date;
          assert Overwritten(rows, date, q)[j].date == date;
        }
        Overwritten(rows, date, q)
      else
        assert ([NewRow(date, q)] + rows)[0].date == date;
        [NewRow(date, q)] + rows
  }

  /** The rows of the stored table, none when there is no table. */
  function StoredRows(existing: Option<seq<Row>>): seq<Row> {
    if existing.Some? then existing.value else []
  }

  /** Merging the same day's quote a second time changes nothing. */
  lemma MergeIdempotent(existing: Option<seq<Row>>, date: string, q: Quote)
    ensures Merged(Some(Merged(existing, date, q)), date, q) == Merged(existing, date, q)
  {
    var once := Merged(existing, date, q);
    var twice := Overwritten(once, date, q);
    assert |twice| == |once|;
    forall i | 0 <= i < |once|
      ensures twice[i] == once[i]
    {
      if once[i].date == date {
        assert once[i].quote == q;
      }
    }
  }

  /** The dates after a merge are the stored dates, plus today's exactly
      when today was not stored: a merge never adds a second row for a
      date already present. */
  lemma MergeDates(existing: Option<seq<Row>>, date: string, q: Quote)
    ensures multiset(Dates(Merged(existing, date, q))) ==
      multiset(Dates(StoredRows(existing))) +
      (if HasDate(StoredRows(existing), date) then multiset{} else multiset{date})
  {
    var rows := StoredRows(existing);
    var r := Merged(existing, date, q);
    if existing.None? {
      assert Dates(r) == [date];
      assert Dates(rows) == [];
    } else if HasDate(rows, date) {
      assert Dates(r) == Dates(rows);
    } else {
      assert Dates(r) == [date] + Dates(rows);
    }
  }

  /** A table whose dates are unique keeps them unique. */
  lemma MergeKeepsDatesUnique(existing: Option<seq<Row>>, date: string, q: Quote)
    requires UniqueDates(StoredRows(existing))
    ensures UniqueDates(Merged(existing, date, q))
  {
    var rows := StoredRows(existing);
    var r := Merged(existing, date, q);
    if existing.Some? && !HasDate(rows, date) {
      forall i, j | 0 <= i < j < |r|
        ensures r[i].date != r[j].date
      {
        if i == 0 {
          assert r[j] == rows[j - 1];
        } else {
          assert r[i] == rows[i - 1] && r[j] == rows[j - 1];
        }
      }
    }
  }

  /** Prepending keeps a newest-first table in order when today is later than
      the newest stored day; overwriting never changes the order. */
  lemma MergeKeepsNewestFirst(rows: seq<Row>, date: string, q: Quote)
    requires NewestFirst(rows)
    requires |rows| > 0 && !HasDate(rows, date) ==> DateBefore(rows[0].date, date)
    ensures NewestFirst(Merged(Some(rows), date, q))
  {
    var r := Merged(Some(rows), date, q);
    if !HasDate(rows, date) {
      forall i | 1 <= i < |r|
        ensures DateBefore(r[i].date, r[i - 1].date)
      {
        if i >= 2 {
          assert r[i] == rows[i - 1] && r[i - 1] == rows[i - 2];
        }
      }
    }
  }

  /** The scan behind `date in df_existing['Date'].values`. */
  method ContainsDate(rows: array<Row>, date: string) returns (found: bool)
    ensures found <==> HasDate(rows[..], date)
  {
    found := false;
    var i := 0;
    while i < rows.Length && !found
      invariant 0 <= i <= rows.Length
      invariant found <==> HasDate(rows[..i], date)
    {
      found := rows[i].date == date;
      i := i + 1;
    }
    if !found {
      assert rows[..i] == rows[..];
    } else {
      assert rows[i - 1] == rows[..][i - 1];
    }
  }

  /** The `.loc` assignment of line 77, in place on the stored rows. */
  method OverwriteQuotes(rows: array<Row>, date: string, q: Quote)
    modifies rows
    ensures rows[..] == Overwritten(old(rows[..]), date, q)
  {
    var i := 0;
    while i < rows.Length
      invariant 0 <= i <= rows.Length
      invariant forall k :: 0 <= k < i ==> rows[k] == Refreshed(old(rows[k]), date, q)
      invariant forall k :: i <= k < rows.Length ==> rows[k] == old(rows[k])
    {
      if rows[i].date == date {
        rows[i] := rows[i].(quote := q);
      }
      i := i + 1;
    }
  }

  /** The merge branch of `scrape_daily_data` (lines 74-82): with no stored
      table the new row alone; with today stored, the stored frame itself is
      updated and returned; otherwise a fresh frame with the new row first. */
  method MergeDaily(existing: Option<array<Row>>, date: string, q: Quote) returns (table: array<Row>)
    modifies if existing.Some? then {existing.value} else {}
    ensures existing.None? ==> fresh(table) && table[..] == Merged(None, date, q)
    ensures existing.Some? ==> table[..] == Merged(Some(old(existing.value[..])), date, q)
    ensures existing.Some? && HasDate(old(existing.value[..]), date) ==> table == existing.value
    ensures existing.Some? && !HasDate(old(existing.value[..]), date) ==> fresh(table)
    ensures existing.Some? && !HasDate(old(existing.value[..]), date) ==>
      existing.value[..] == old(existing.value[..])
  {
    if existing.None? {
      table := new Row[1](_ => NewRow(date, q));
      assert table[..] == [NewRow(date, q)];
      return;
    }
    var rows := existing.value;
    ghost var stored := rows[..];
    var found := ContainsDate(rows, date);
    if found {
      OverwriteQuotes(rows, date, q);
      table := rows;
    } else {
      table := new Row[rows.Length + 1](_ => NewRow(date, q));
      var i := 0;
      while i < rows.Length
        modifies table
        invariant 0 <= i <= rows.Length
        invariant table[0] == NewRow(date, q)
        invariant forall k :: 0 <= k < i ==> table[k + 1] == stored[k]
      {
        table[i + 1] := rows[i];
        i := i + 1;
      }
      assert forall k :: 0 <= k < table.Length ==> table[..][k] == ([NewRow(date, q)] + stored)[k];
    }
  }
}
