/**
 * The dashboard script after loading (crypto_app.py lines 66-117): the symbol
 * filter, the top-N cap, the table of percent changes with its sign flags, and
 * the optional sort of that table by the chosen timeframe's column.
 */
module Dashboard {
  import opened Wrappers
  import opened Ordering
  import opened Listings

  /** The three percent-change timeframes. */
  datatype Timeframe = H1 | H24 | D7

  /** A loaded row's percent change over `t`. */
  function Percent(r: Row, t: Timeframe): real
  {
    match t
    case H1 => r.percentChange1h
    case H24 => r.percentChange24h
    case D7 => r.percentChange7d
  }

  /** One row of the change table, keyed by symbol, with one sign flag per percent column. */
  datatype ChangeRow = ChangeRow(
    coinSymbol: string,
    percentChange1h: real,
    percentChange24h: real,
    percentChange7d: real,
    positivePercentChange1h: bool,
    positivePercentChange24h: bool,
    positivePercentChange7d: bool)

  /** A change row's percent change over `t`. */
  function ChangePercent(c: ChangeRow, t: Timeframe): real
  {
    match t
    case H1 => c.percentChange1h
    case H24 => c.percentChange24h
    case D7 => c.percentChange7d
  }

  /** A change row's sign flag for `t`. */
  function IsPositive(c: ChangeRow, t: Timeframe): bool
  {
    match t
    case H1 => c.positivePercentChange1h
    case H24 => c.positivePercentChange24h
    case D7 => c.positivePercentChange7d
  }

  // ---------------------------------------------------------------------------
  // The timeframe selector

  /** The selector's labels, in the order offered. */
  const TimeframeLabels: seq<string> := ["7d", "24h", "1h"]

  /** The dictionary from selector label to column name. */
  const PercentColumns: map<string, string> :=
    map["7d" := "percent_change_7d", "24h" := "percent_change_24h", "1h" := "percent_change_1h"]

  /** The name of the percent column of `t`. */
  function ColumnName(t: Timeframe): string
  {
    match t
    case H1 => "percent_change_1h"
    case H24 => "percent_change_24h"
    case D7 => "percent_change_7d"
  }

  /** The branch the chart code takes for a choice: "7d", then "24h", otherwise the 1-hour branch. */
  function BranchOf(choice: string): Timeframe
  {
    if choice == "7d" then D7 else if choice == "24h" then H24 else H1
  }

  /** Looking a percent column of a change row up by name. */
  function ColumnByName(c: ChangeRow, name: string): Option<real>
  {
    if name == "percent_change_1h" then Some(c.percentChange1h)
    else if name == "percent_change_24h" then Some(c.percentChange24h)
    else if name == "percent_change_7d" then Some(c.percentChange7d)
    else None
  }

  /**
   * For every choice on offer, the dictionary and the chart's branches agree:
   * the choice names exactly the column of the matching timeframe, and that
   * column holds the timeframe's percent change.
   */
  lemma SelectorAgrees(choice: string, c: ChangeRow)
    requires choice in TimeframeLabels
    ensures choice in PercentColumns
    ensures PercentColumns[choice] == ColumnName(BranchOf(choice))
    ensures ColumnByName(c, PercentColumns[choice]) == Some(ChangePercent(c, BranchOf(choice)))
  {
  }

  // ---------------------------------------------------------------------------
  // The symbol filter

  /** The symbol column. */
  function Symbols(rows: seq<Row>): seq<string>
  {
    seq(|rows|, k requires 0 <= k < |rows| => rows[k].coinSymbol)
  }

  /** The symbols offered to the multiselect (and preselected): the symbol column, sorted. */
  function SymbolOptions(rows: seq<Row>): seq<string>
  {
    Sort(Symbols(rows), LexLe)
  }

  /** The options hold each symbol of the table as often as the table does, in ascending order. */
  lemma SymbolOptionsSortedPermutation(rows: seq<Row>)
    ensures Sorted(SymbolOptions(rows), LexLe)
    ensures multiset(SymbolOptions(rows)) == multiset(Symbols(rows))
  {
    LexLeIsTotalPreorder();
    SortSorted(Symbols(rows), LexLe);
    SortPermutes(Symbols(rows), LexLe);
  }

  /** The user's coin selection: the default (every option) or an explicit choice. */
  datatype Selection = AllSymbols | Chosen(symbols: seq<string>)

  function Selected(sel: Selection, rows: seq<Row>): seq<string>
  {
    match sel
    case AllSymbols => SymbolOptions(rows)
    case Chosen(symbols) => symbols
  }

  /** The rows whose symbol is among `selected`, in table order. */
  function FilterBySymbol(rows: seq<Row>, selected: seq<string>): seq<Row>
  {
    if rows == [] then []
    else (if rows[0].coinSymbol in selected then [rows[0]] else []) + FilterBySymbol(rows[1..], selected)
  }

  /** The filter works row by row: filtering a concatenation concatenates the results, so order is kept. */
  lemma {:induction false} FilterAppend(a: seq<Row>, b: seq<Row>, selected: seq<string>)
    ensures FilterBySymbol(a + b, selected) == FilterBySymbol(a, selected) + FilterBySymbol(b, selected)
  {
    if a == [] {
      assert a + b == b;
    } else {
      assert (a + b)[0] == a[0] && (a + b)[1..] == a[1..] + b;
      FilterAppend(a[1..], b, selected);
    }
  }

  /** A row survives the filter exactly when it is in the table and its symbol is selected. */
  lemma {:induction false} FilterMembers(rows: seq<Row>, selected: seq<string>, r: Row)
    ensures r in FilterBySymbol(rows, selected) <==> r in rows && r.coinSymbol in selected
  {
    if rows != [] {
      FilterMembers(rows[1..], selected, r);
      assert rows == [rows[0]] + rows[1..];
    }
  }

  /** When every symbol of the table is selected, the filter changes nothing. */
  lemma {:induction false} FilterKeepsAll(rows: seq<Row>, selected: seq<string>)
    requires forall k :: 0 <= k < |rows| ==> rows[k].coinSymbol in selected
    ensures FilterBySymbol(rows, selected) == rows
  {
    if rows != [] {
      FilterKeepsAll(rows[1..], selected);
      assert rows == [rows[0]] + rows[1..];
    }
  }

  /** With nothing selected, the filter keeps nothing. */
  lemma {:induction false} FilterEmptySelection(rows: seq<Row>)
    ensures FilterBySymbol(rows, []) == []
  {
    if rows != [] {
      FilterEmptySelection(rows[1..]);
    }
  }

  /** The default selection keeps the whole table, in its order. */
  lemma DefaultSelectionKeepsAll(rows: seq<Row>)
    ensures FilterBySymbol(rows, Selected(AllSymbols, rows)) == rows
  {
    SymbolOptionsSortedPermutation(rows);
    forall k | 0 <= k < |rows| ensures rows[k].coinSymbol in SymbolOptions(rows) {
      assert Symbols(rows)[k] == rows[k].coinSymbol;
      assert rows[k].coinSymbol in multiset(Symbols(rows));
    }
    FilterKeepsAll(rows, SymbolOptions(rows));
  }

  // ---------------------------------------------------------------------------
  // The top-N cap

  /** The slider's range for the number of coins shown. */
  type CoinCount = n: int | 1 <= n <= 100 witness 100

  /** The first `n` rows, or all of them when there are fewer. */
  function Cap(rows: seq<Row>, n: CoinCount): (r: seq<Row>)
    ensures r <= rows
    ensures |r| <= n
    ensures |r| < n ==> r == rows
  {
    if |rows| <= n then rows else rows[..n]
  }

  // ---------------------------------------------------------------------------
  // The change table and its sign flags

  function ToChange(r: Row): ChangeRow
  {
    ChangeRow(r.coinSymbol, r.percentChange1h, r.percentChange24h, r.percentChange7d,
              r.percentChange1h > 0.0, r.percentChange24h > 0.0, r.percentChange7d > 0.0)
  }

  /**
   * The change table: one row per input row, in order, keyed by its symbol,
   * with the three percent changes unchanged and each flag set exactly when
   * its percent change is strictly positive.
   */
  function ChangeTable(rows: seq<Row>): (t: seq<ChangeRow>)
    ensures |t| == |rows|
    ensures forall k :: 0 <= k < |rows| ==> t[k].coinSymbol == rows[k].coinSymbol
    ensures forall k, tf :: 0 <= k < |rows| ==>
      && ChangePercent(t[k], tf) == Percent(rows[k], tf)
      && (IsPositive(t[k], tf) <==> Percent(rows[k], tf) > 0.0)
  {
    seq(|rows|, k requires 0 <= k < |rows| => ToChange(rows[k]))
  }

  // ---------------------------------------------------------------------------
  // The sort by the chosen timeframe

  /** Ascending by the percent change of `t`. */
  function ByPercent(t: Timeframe): (ChangeRow, ChangeRow) -> bool
  {
    (a: ChangeRow, b: ChangeRow) => ChangePercent(a, t) <= ChangePercent(b, t)
  }

  function SortByPercent(table: seq<ChangeRow>, t: Timeframe): seq<ChangeRow>
  {
    Sort(table, ByPercent(t))
  }

  /** Sorting by a timeframe yields the same rows, ascending in that timeframe's column. */
  lemma SortByPercentSpec(table: seq<ChangeRow>, t: Timeframe)
    ensures multiset(SortByPercent(table, t)) == multiset(table)
    ensures |SortByPercent(table, t)| == |table|
    ensures forall i, j :: 0 <= i < j < |table| ==>
      ChangePercent(SortByPercent(table, t)[i], t) <= ChangePercent(SortByPercent(table, t)[j], t)
  {
    var le := ByPercent(t);
    assert TotalPreorder(le);
    SortSorted(table, le);
    SortPermutes(table, le);
    assert |multiset(SortByPercent(table, t))| == |multiset(table)|;
  }

  // ---------------------------------------------------------------------------
  // One run of the script

  /** The widgets' values for one run: currency unit, coin selection, top N, timeframe, and whether "Yes" is chosen for sorting. */
  datatype Inputs = Inputs(unit: Currency, selection: Selection, topN: CoinCount, timeframe: Timeframe, sortValues: bool)

  /**
   * What one run shows: nothing after `st.stop()`, an uncaught error, or the
   * capped price table, the filtered table offered for download, the change
   * table, and the rows of the bar chart for the chosen timeframe.
   */
  datatype Screen =
    | Stopped
    | Raised(error: LoadError)
    | Shown(coins: seq<Row>, download: seq<Row>, changes: seq<ChangeRow>, timeframe: Timeframe, chart: seq<ChangeRow>)

  /** The script from the symbol filter on, over the loaded table `df`. */
  function Present(df: seq<Row>, inputs: Inputs): Screen
  {
    var selected := FilterBySymbol(df, Selected(inputs.selection, df));
    var coins := Cap(selected, inputs.topN);
    var changes := ChangeTable(coins);
    var chart := if inputs.sortValues then SortByPercent(changes, inputs.timeframe) else changes;
    Shown(coins, selected, changes, inputs.timeframe, chart)
  }

  /**
   * The whole script: a failed lookup yields the empty table and an empty
   * table stops the run; an error outside the guarded lookup escapes.
   */
  function Render(nextData: Option<Json>, inputs: Inputs): Screen
  {
    match Load(nextData, inputs.unit)
    case Err(ShapeChanged) => Stopped
    case Err(e) => Raised(e)
    case Ok(df) => if df == [] then Stopped else Present(df, inputs)
  }

  /** A key missing anywhere on the listings path stops the run before any table is built. */
  lemma RenderStopsOnMissingKey(doc: Json, depth: nat, fields: map<string, Json>, inputs: Inputs)
    requires depth < |ListingsPath|
    requires Descend(doc, ListingsPath[..depth]) == Some(Object(fields))
    requires ListingsPath[depth] !in fields
    ensures Render(Some(doc), inputs) == Stopped
  {
    LocateMissingKey(doc, depth, fields);
  }

  /** A value on the listings path that is not an object stops the run before any table is built. */
  lemma RenderStopsOnNonObject(doc: Json, depth: nat, inputs: Inputs)
    requires depth < |ListingsPath|
    requires Descend(doc, ListingsPath[..depth]).Some?
    requires !Descend(doc, ListingsPath[..depth]).value.Object?
    ensures Render(Some(doc), inputs) == Stopped
  {
    LocateNotAnObject(doc, depth);
  }

  /** A page without the `__NEXT_DATA__` script, or whose script is not JSON, stops the run. */
  lemma RenderStopsWithoutScript(inputs: Inputs)
    ensures Render(None, inputs) == Stopped
  {
  }

  /** An empty listings array loads as the empty table, and the empty table stops the run. */
  lemma RenderStopsOnNoListings(nextData: Option<Json>, inputs: Inputs)
    requires Locate(nextData) == Ok([])
    ensures Render(nextData, inputs) == Stopped
  {
  }

  /** A listing without a quote for the chosen unit is not dropped: the first one makes the run fail. */
  lemma RenderRaisesOnMissingQuote(nextData: Option<Json>, inputs: Inputs, i: nat)
    requires Locate(nextData).Ok?
    requires var ls := Locate(nextData).value;
      && i < |ls| && inputs.unit.Key() !in ls[i].quote
      && forall k :: 0 <= k < i ==> inputs.unit.Key() in ls[k].quote
    ensures Render(nextData, inputs) == Raised(QuoteMissing(i))
  {
    NormalizeMissing(Locate(nextData).value, inputs.unit, i);
  }

  /**
   * With listings that all carry the unit's quote and the default selection,
   * the download table is every listing projected, in listing order, and the
   * price table is its first `topN` rows.
   */
  lemma RenderDefaultSelection(nextData: Option<Json>, inputs: Inputs)
    requires Locate(nextData).Ok? && Locate(nextData).value != []
    requires forall k :: 0 <= k < |Locate(nextData).value| ==> inputs.unit.Key() in Locate(nextData).value[k].quote
    requires inputs.selection == AllSymbols
    ensures var ls := Locate(nextData).value;
      var s := Render(nextData, inputs);
      && s.Shown?
      && |s.download| == |ls|
      && (forall k :: 0 <= k < |ls| ==> Projects(s.download[k], ls[k], inputs.unit))
      && |s.coins| == (if |ls| < inputs.topN then |ls| else inputs.topN)
      && s.coins == s.download[..|s.coins|]
  {
    var ls := Locate(nextData).value;
    NormalizeOk(ls, inputs.unit);
    DefaultSelectionKeepsAll(Normalize(ls, inputs.unit).value);
  }

  /**
   * Cap, then derive, then sort: the chart holds exactly the change rows of
   * the first `topN` selected rows, ascending in the chosen column when
   * sorting is on and in table order when it is off. No selected row past the
   * cap reaches the chart.
   */
  lemma CapThenSort(df: seq<Row>, inputs: Inputs)
    ensures var selected := FilterBySymbol(df, Selected(inputs.selection, df));
      var s := Present(df, inputs);
      && s.Shown?
      && s.download == selected
      && |s.coins| == (if |selected| < inputs.topN then |selected| else inputs.topN)
      && s.coins == selected[..|s.coins|]
      && s.changes == ChangeTable(s.coins)
      && s.timeframe == inputs.timeframe
      && multiset(s.chart) == multiset(s.changes)
      && (forall c :: c in s.chart ==> exists k :: 0 <= k < |s.coins| && c == ToChange(selected[k]))
      && (inputs.sortValues ==> forall i, j :: 0 <= i < j < |s.chart| ==>
            ChangePercent(s.chart[i], inputs.timeframe) <= ChangePercent(s.chart[j], inputs.timeframe))
      && (!inputs.sortValues ==> s.chart == s.changes)
  {
    var selected := FilterBySymbol(df, Selected(inputs.selection, df));
    var s := Present(df, inputs);
    SortByPercentSpec(s.changes, inputs.timeframe);
    forall c | c in s.chart ensures exists k :: 0 <= k < |s.coins| && c == ToChange(selected[k]) {
      assert c in multiset(s.changes);
      var k :| 0 <= k < |s.changes| && s.changes[k] == c;
      assert s.coins[k] == selected[k];
    }
  }

  /**
   * Once the selected rows fill the cap, the rows that follow them in the
   * table do not matter: whatever they hold, the price table, the change
   * table and the chart stay the same. Under the default selection every
   * row is selected, so the head alone must fill the cap.
   */
  lemma RowsPastCapIgnored(head: seq<Row>, tail1: seq<Row>, tail2: seq<Row>, inputs: Inputs)
    requires match inputs.selection
      case AllSymbols => |head| >= inputs.topN
      case Chosen(sel) => |FilterBySymbol(head, sel)| >= inputs.topN
    ensures Present(head + tail1, inputs).coins == Present(head + tail2, inputs).coins
    ensures Present(head + tail1, inputs).changes == Present(head + tail2, inputs).changes
    ensures Present(head + tail1, inputs).chart == Present(head + tail2, inputs).chart
  {
    match inputs.selection
    case AllSymbols =>
      DefaultSelectionKeepsAll(head + tail1);
      DefaultSelectionKeepsAll(head + tail2);
      assert (head + tail1)[..inputs.topN] == head[..inputs.topN];
      assert (head + tail2)[..inputs.topN] == head[..inputs.topN];
    case Chosen(sel) =>
      var h := FilterBySymbol(head, sel);
      FilterAppend(head, tail1, sel);
      FilterAppend(head, tail2, sel);
      assert (h + FilterBySymbol(tail1, sel))[..inputs.topN] == h[..inputs.topN];
      assert (h + FilterBySymbol(tail2, sel))[..inputs.topN] == h[..inputs.topN];
  }

  /** An empty selection gives empty tables and no chart rows. */
  lemma EmptySelectionShowsNothing(df: seq<Row>, inputs: Inputs)
    requires inputs.selection == Chosen([])
    ensures Present(df, inputs) == Shown([], [], [], inputs.timeframe, [])
  {
    FilterEmptySelection(df);
  }

  /**
   * A worked run: bitcoin up 2.5% and ether down 1.2% over 24 hours, both
   * selected, top 2, sorted by the 24-hour change. The chart lists ether
   * first, and only bitcoin's 24-hour flag is set.
   */
  lemma SortedTwoCoinRun()
    ensures
      var btc := Listing("bitcoin", "BTC", map["USD" := Quote(50000.0, 0.1, 2.5, 4.0, 900.0, 30.0)]);
      var eth := Listing("ethereum", "ETH", map["USD" := Quote(3000.0, -0.3, -1.2, 0.0, 400.0, 20.0)]);
      var data := Object(map["data" := ListingArray([btc, eth])]);
      var latest := Object(map["listingLatest" := data]);
      var doc := Object(map["props" := Object(map["initialState" := Object(map["cryptocurrency" := latest])])]);
      var s := Render(Some(doc), Inputs(USD, Chosen(["BTC", "ETH"]), 2, H24, true));
      && s.Shown?
      && |s.chart| == 2
      && s.chart[0].coinSymbol == "ETH" && s.chart[0].percentChange24h == -1.2 && !s.chart[0].positivePercentChange24h
      && s.chart[1].coinSymbol == "BTC" && s.chart[1].percentChange24h == 2.5 && s.chart[1].positivePercentChange24h
      && !s.chart[0].positivePercentChange7d
  {
    var btc := Listing("bitcoin", "BTC", map["USD" := Quote(50000.0, 0.1, 2.5, 4.0, 900.0, 30.0)]);
    var eth := Listing("ethereum", "ETH", map["USD" := Quote(3000.0, -0.3, -1.2, 0.0, 400.0, 20.0)]);
    var data := Object(map["data" := ListingArray([btc, eth])]);
    var latest := Object(map["listingLatest" := data]);
    var doc := Object(map["props" := Object(map["initialState" := Object(map["cryptocurrency" := latest])])]);
    assert Locate(Some(doc)) == Ok([btc, eth]);
    NormalizeOk([btc, eth], USD);
    var df := Normalize([btc, eth], USD).value;
    assert df[0].coinSymbol == "BTC" && df[1].coinSymbol == "ETH";
    assert FilterBySymbol(df, ["BTC", "ETH"]) == df by {
      FilterKeepsAll(df, ["BTC", "ETH"]);
    }
    var changes := ChangeTable(df);
    assert Sort(changes, ByPercent(H24)) == [changes[1], changes[0]] by {
      assert ChangePercent(changes[0], H24) == 2.5 && ChangePercent(changes[1], H24) == -1.2;
      assert changes[1..] == [changes[1]];
      assert Sort([changes[1]], ByPercent(H24)) == [changes[1]];
      assert Insert(changes[0], [changes[1]], ByPercent(H24)) == [changes[1], changes[0]];
    }
  }
}
