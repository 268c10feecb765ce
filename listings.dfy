/**
 * Loading the listings table (`load_data` in crypto_app.py).
 *
 * The page's `__NEXT_DATA__` script, once found and parsed, is a JSON tree;
 * the listings sit under a fixed path of object keys. Each listing carries a
 * slug, a symbol and one quote per currency unit. Loading projects every
 * listing into one flat row, under the currency unit the user selected.
 */
module Listings {
  import opened Wrappers

  /** The currency units offered for prices. */
  datatype Currency = USD | BTC | ETH
  {
    /** The key of this unit in a listing's quote map. */
    function Key(): string
    {
      match this
      case USD => "USD"
      case BTC => "BTC"
      case ETH => "ETH"
    }
  }

  /** A listing's market figures in one currency unit. */
  datatype Quote = Quote(
    price: real,
    percentChange1h: real,
    percentChange24h: real,
    percentChange7d: real,
    marketCap: real,
    volume24h: real)

  /** One coin as the page delivers it: `quote` is keyed by currency unit. */
  datatype Listing = Listing(slug: string, symbol: string, quote: map<string, Quote>)

  /** One row of the loaded table, with the eight columns in their order. */
  datatype Row = Row(
    coinName: string,
    coinSymbol: string,
    price: real,
    percentChange1h: real,
    percentChange24h: real,
    percentChange7d: real,
    marketCap: real,
    volume24h: real)

  /**
   * The parsed `__NEXT_DATA__` document: objects keyed by name, the listings
   * array, and every other JSON value.
   */
  datatype Json = Object(fields: map<string, Json>) | ListingArray(listings: seq<Listing>) | Scalar

  /** The key path from the document root to the listings. */
  const ListingsPath: seq<string> := ["props", "initialState", "cryptocurrency", "listingLatest", "data"]

  /** Follows `path` key by key; `None` as soon as a key is missing or a value is not an object. */
  function Descend(j: Json, path: seq<string>): Option<Json>
    decreases |path|
  {
    if path == [] then Some(j)
    else match j
      case Object(fields) => if path[0] in fields then Descend(fields[path[0]], path[1..]) else None
      case _ => None
  }

  /** Why loading gave no table. */
  datatype LoadError =
    | ShapeChanged          // script tag, JSON text or key path missing: caught, empty table
    | NotAList              // the value at the path is not an array: uncaught
    | QuoteMissing(index: nat)  // listing `index` has no quote for the unit: uncaught

  /**
   * The guarded part of loading. `nextData` is `None` when the page has no
   * `__NEXT_DATA__` script or its text is not JSON.
   */
  function Locate(nextData: Option<Json>): Result<seq<Listing>, LoadError>
  {
    match nextData
    case None => Err(ShapeChanged)
    case Some(doc) =>
      match Descend(doc, ListingsPath)
      case None => Err(ShapeChanged)
      case Some(ListingArray(ls)) => Ok(ls)
      case Some(_) => Err(NotAList)
  }

  /** Walking `p + q` is walking `p`, then `q` from where `p` ended. */
  lemma {:induction false} DescendAppend(j: Json, p: seq<string>, q: seq<string>)
    ensures Descend(j, p + q) == match Descend(j, p) case None => None case Some(v) => Descend(v, q)
    decreases |p|
  {
    if p == [] {
      assert p + q == q;
    } else {
      assert (p + q)[0] == p[0] && (p + q)[1..] == p[1..] + q;
      match j
      case Object(fields) =>
        if p[0] in fields {
          DescendAppend(fields[p[0]], p[1..], q);
        }
      case _ =>
    }
  }

  /**
   * A key missing at any depth of the listings path makes loading fail with
   * `ShapeChanged`, however the rest of the document looks.
   */
  lemma LocateMissingKey(doc: Json, depth: nat, fields: map<string, Json>)
    requires depth < |ListingsPath|
    requires Descend(doc, ListingsPath[..depth]) == Some(Object(fields))
    requires ListingsPath[depth] !in fields
    ensures Locate(Some(doc)) == Err(ShapeChanged)
  {
    var p := ListingsPath[..depth];
    var q := ListingsPath[depth..];
    assert ListingsPath == p + q;
    DescendAppend(doc, p, q);
  }

  /**
   * A value on the listings path that is not an object (so the next key
   * cannot be looked up in it) also makes loading fail with `ShapeChanged`.
   */
  lemma LocateNotAnObject(doc: Json, depth: nat)
    requires depth < |ListingsPath|
    requires Descend(doc, ListingsPath[..depth]).Some?
    requires !Descend(doc, ListingsPath[..depth]).value.Object?
    ensures Locate(Some(doc)) == Err(ShapeChanged)
  {
    var p := ListingsPath[..depth];
    var q := ListingsPath[depth..];
    assert ListingsPath == p + q;
    DescendAppend(doc, p, q);
  }

  /** The flat row of `l` under the unit's quote `q`: every field passed through unchanged. */
  function RowOf(l: Listing, q: Quote): Row
  {
    Row(l.slug, l.symbol, q.price, q.percentChange1h, q.percentChange24h, q.percentChange7d, q.marketCap, q.volume24h)
  }

  /** `r` is `l` projected under `unit`. */
  ghost predicate Projects(r: Row, l: Listing, unit: Currency)
  {
    && unit.Key() in l.quote
    && var q := l.quote[unit.Key()];
    && r.coinName == l.slug
    && r.coinSymbol == l.symbol
    && r.price == q.price
    && r.percentChange1h == q.percentChange1h
    && r.percentChange24h == q.percentChange24h
    && r.percentChange7d == q.percentChange7d
    && r.marketCap == q.marketCap
    && r.volume24h == q.volume24h
  }

  /**
   * The projection loop as a function: the rows of all listings in order, or
   * the first listing whose quote map lacks the unit.
   */
  function Normalize(ls: seq<Listing>, unit: Currency): Result<seq<Row>, LoadError>
  {
    if ls == [] then Ok([])
    else
      match Normalize(ls[..|ls| - 1], unit)
      case Err(e) => Err(e)
      case Ok(rows) =>
        var l := ls[|ls| - 1];
        if unit.Key() in l.quote then Ok(rows + [RowOf(l, l.quote[unit.Key()])])
        else Err(QuoteMissing(|ls| - 1))
  }

  /** When every listing has a quote for the unit: one row per listing, in listing order. */
  lemma {:induction false} NormalizeOk(ls: seq<Listing>, unit: Currency)
    requires forall k :: 0 <= k < |ls| ==> unit.Key() in ls[k].quote
    ensures Normalize(ls, unit).Ok?
    ensures |Normalize(ls, unit).value| == |ls|
    ensures forall k :: 0 <= k < |ls| ==> Projects(Normalize(ls, unit).value[k], ls[k], unit)
  {
    if ls != [] {
      var init := ls[..|ls| - 1];
      NormalizeOk(init, unit);
      var rows := Normalize(init, unit).value;
      var r := Normalize(ls, unit).value;
      forall k | 0 <= k < |ls| ensures Projects(r[k], ls[k], unit) {
        if k < |ls| - 1 {
          assert r[k] == rows[k] && ls[k] == init[k];
        }
      }
    }
  }

  /** The first listing without a quote for the unit is the one reported. */
  lemma {:induction false} NormalizeMissing(ls: seq<Listing>, unit: Currency, i: nat)
    requires i < |ls| && unit.Key() !in ls[i].quote
    requires forall k :: 0 <= k < i ==> unit.Key() in ls[k].quote
    ensures Normalize(ls, unit) == Err(QuoteMissing(i))
  {
    var init := ls[..|ls| - 1];
    if i < |ls| - 1 {
      NormalizeMissing(init, unit, i);
    } else {
      NormalizeOk(init, unit);
    }
  }

  /** Conversely, a failure always names the first listing without a quote for the unit. */
  lemma {:induction false} NormalizeErrIsFirstMissing(ls: seq<Listing>, unit: Currency)
    requires Normalize(ls, unit).Err?
    ensures Normalize(ls, unit).error.QuoteMissing?
    ensures Normalize(ls, unit).error.index < |ls|
    ensures unit.Key() !in ls[Normalize(ls, unit).error.index].quote
    ensures forall k :: 0 <= k < Normalize(ls, unit).error.index ==> unit.Key() in ls[k].quote
  {
    var init := ls[..|ls| - 1];
    if Normalize(init, unit).Err? {
      NormalizeErrIsFirstMissing(init, unit);
      var i := Normalize(init, unit).error.index;
      assert ls[i] == init[i];
      forall k | 0 <= k < i ensures unit.Key() in ls[k].quote {
        assert ls[k] == init[k];
      }
    } else {
      NormalizeOkIsQuoted(init, unit);
      forall k | 0 <= k < |ls| - 1 ensures unit.Key() in ls[k].quote {
        assert ls[k] == init[k];
      }
    }
  }

  /** A successful projection means every listing had a quote for the unit. */
  lemma {:induction false} NormalizeOkIsQuoted(ls: seq<Listing>, unit: Currency)
    requires Normalize(ls, unit).Ok?
    ensures forall k :: 0 <= k < |ls| ==> unit.Key() in ls[k].quote
  {
    if ls != [] {
      var init := ls[..|ls| - 1];
      NormalizeOkIsQuoted(init, unit);
      forall k | 0 <= k < |ls| - 1 ensures unit.Key() in ls[k].quote {
        assert ls[k] == init[k];
      }
    }
  }

  /** `load_data`: locate the listings, then project them, failing as `Normalize` does. */
  function Load(nextData: Option<Json>, unit: Currency): Result<seq<Row>, LoadError>
  {
    match Locate(nextData)
    case Err(e) => Err(e)
    case Ok(ls) => Normalize(ls, unit)
  }

  /**
   * `load_data` as the source runs it: eight column lists filled by `append`,
   * one listing at a time, then put together as the table's rows.
   */
  method LoadData(nextData: Option<Json>, unit: Currency) returns (r: Result<seq<Row>, LoadError>)
    ensures r == Load(nextData, unit)
  {
    var located := Locate(nextData);
    if located.Err? {
      return Err(located.error);
    }
    var listings := located.value;
    var key := unit.Key();
    var coinName, coinSymbol, price, percentChange1h := [], [], [], [];
    var percentChange24h, percentChange7d, marketCap, volume24h := [], [], [], [];
    var i := 0;
    while i < |listings|
      invariant 0 <= i <= |listings|
      invariant |coinName| == |coinSymbol| == |price| == |percentChange1h| == i
      invariant |percentChange24h| == |percentChange7d| == |marketCap| == |volume24h| == i
      invariant forall k :: 0 <= k < i ==> key in listings[k].quote
      invariant forall k :: 0 <= k < i ==>
        Row(coinName[k], coinSymbol[k], price[k], percentChange1h[k], percentChange24h[k],
            percentChange7d[k], marketCap[k], volume24h[k]) == RowOf(listings[k], listings[k].quote[key])
    {
      var l := listings[i];
      if key !in l.quote {
        NormalizeMissing(listings, unit, i);
        return Err(QuoteMissing(i));
      }
      var q := l.quote[key];
      coinName := coinName + [l.slug];
      coinSymbol := coinSymbol + [l.symbol];
      price := price + [q.price];
      percentChange1h := percentChange1h + [q.percentChange1h];
      percentChange24h := percentChange24h + [q.percentChange24h];
      percentChange7d := percentChange7d + [q.percentChange7d];
      marketCap := marketCap + [q.marketCap];
      volume24h := volume24h + [q.volume24h];
      i := i + 1;
    }
    var rows := seq(i, k requires 0 <= k < i =>
      Row(coinName[k], coinSymbol[k], price[k], percentChange1h[k],
          percentChange24h[k], percentChange7d[k], marketCap[k], volume24h[k]));
    NormalizeOk(listings, unit);
    assert forall k :: 0 <= k < i ==> Projects(Normalize(listings, unit).value[k], listings[k], unit);
    assert rows == Normalize(listings, unit).value;
    return Ok(rows);
  }
}
