/**
 * The brand and platform lists of app.py: the rows of a worksheet are looked
 * up under the normalised key with the raw worksheet name as fallback, and the
 * distinct non-empty values of one column are returned in ascending order
 * (`sorted({r.get(col) for r in rows if r.get(col)})`).
 */
module Metadata {
  import opened Text
  import opened SheetsService

  /** `all_data.get(key) or all_data.get(fallback) or []`: the first non-empty list. */
  function Lookup(all: AllData, key: string, fallback: string): (rows: seq<Row>)
    ensures key in all && all[key] != [] ==> rows == all[key]
    ensures !(key in all && all[key] != []) ==> rows == if fallback in all then all[fallback] else []
  {
    if key in all && all[key] != [] then all[key]
    else if fallback in all && all[fallback] != [] then all[fallback]
    else []
  }

  /** The rows a worksheet yields for one call of the upstream: its records if it was read, none otherwise. */
  function SheetRows(upstream: Upstream, name: string): seq<Row> {
    if upstream.Opened? then SlotRows(name, upstream.worksheets) else []
  }

  /** Looking up the insights after a fetch finds exactly the records the worksheet yielded. */
  lemma LookupInsights(upstream: Upstream)
    ensures Lookup(FetchResult(upstream), "insights", "BANCO_INSIGHTS") == SheetRows(upstream, "BANCO_INSIGHTS")
  {
    if upstream.Opened? {
      var ws := upstream.worksheets;
      FixedWorksheetSlots(ws);
      var all := FetchResult(upstream);
      assert |MarcasSlot(ws)| == 6 && |PlataformasSlot(ws)| == 11;
      if Fetched("BANCO_INSIGHTS", ws) {
        assert "insights" in all && all["insights"] == SlotRows("BANCO_INSIGHTS", ws);
        assert "BANCO_INSIGHTS" !in all;
      } else {
        assert "insights" !in all;
        assert all["BANCO_INSIGHTS"] == [];
      }
    }
  }

  /**
   * Looking up the brands (`marcas`, `MARCAS`) or the platforms (`plataformas`,
   * `PLATAFORMAS`) after a fetch finds exactly the records the worksheet yielded.
   */
  lemma LookupListSheet(upstream: Upstream, key: string, name: string)
    requires (key, name) == ("marcas", "MARCAS") || (key, name) == ("plataformas", "PLATAFORMAS")
    ensures Lookup(FetchResult(upstream), key, name) == SheetRows(upstream, name)
  {
    if upstream.Opened? { FixedWorksheetSlots(upstream.worksheets); }
  }

  /** Strictly ascending in Python's string order, hence free of duplicates. */
  predicate Increasing(s: seq<string>) {
    forall i, j | 0 <= i < j < |s| :: Below(s[i], s[j])
  }

  /** The set `{r.get(col) for r in rows if r.get(col)}`. */
  function ValuesOf(rows: seq<Row>, col: string): set<string> {
    set i | 0 <= i < |rows| && col in rows[i] && rows[i][col] != "" :: rows[i][col]
  }

  lemma IncreasingCons(x: string, s: seq<string>)
    requires Increasing(s)
    requires forall y | y in s :: Below(x, y)
    ensures Increasing([x] + s)
  {
    var r := [x] + s;
    forall i, j | 0 <= i < j < |r| ensures Below(r[i], r[j]) {
      assert r[j] == s[j - 1];
      if i > 0 { assert r[i] == s[i - 1]; }
    }
  }

  /** Adding one value to an ascending list of distinct values. */
  function InsertSorted(s: seq<string>, v: string): (r: seq<string>)
    requires Increasing(s)
    ensures Increasing(r)
    ensures forall x :: x in r <==> x in s || x == v
  {
    if s == [] then [v]
    else if v == s[0] then s
    else if Below(v, s[0]) then
      InsertFront(s, v);
      [v] + s
    else
      var rest := InsertSorted(s[1..], v);
      InsertBehind(s, v, rest);
      assert s == [s[0]] + s[1..];
      [s[0]] + rest
  }

  lemma InsertFront(s: seq<string>, v: string)
    requires Increasing(s) && s != [] && Below(v, s[0])
    ensures Increasing([v] + s)
  {
    forall y | y in s ensures Below(v, y) {
      var j :| 0 <= j < |s| && s[j] == y;
      if j > 0 { BelowTransitive(v, s[0], y); }
    }
    IncreasingCons(v, s);
  }

  lemma InsertBehind(s: seq<string>, v: string, rest: seq<string>)
    requires Increasing(s) && s != [] && v != s[0] && !Below(v, s[0])
    requires Increasing(rest) && forall x :: x in rest <==> x in s[1..] || x == v
    ensures Increasing([s[0]] + rest)
  {
    BelowTotal(v, s[0]);
    forall y | y in rest ensures Below(s[0], y) {
      if y != v {
        var j :| 0 <= j < |s[1..]| && s[1..][j] == y;
        assert s[j + 1] == y;
      }
    }
    IncreasingCons(s[0], rest);
  }

  lemma ValuesOfSnoc(rows: seq<Row>, col: string)
    requires rows != []
    ensures ValuesOf(rows, col) ==
      ValuesOf(rows[..|rows| - 1], col) +
      (var last := rows[|rows| - 1]; if col in last && last[col] != "" then {last[col]} else {})
  {
    var init := rows[..|rows| - 1];
    forall i | 0 <= i < |init| ensures init[i] == rows[i] { }
  }

  /** `sorted({r.get(col) for r in rows if r.get(col)})`: every non-empty value of the column, once, in ascending order. */
  function DistinctValues(rows: seq<Row>, col: string): (r: seq<string>)
    ensures Increasing(r)
    ensures forall v :: v in r <==> v in ValuesOf(rows, col)
    decreases |rows|
  {
    if rows == [] then []
    else
      var init := DistinctValues(rows[..|rows| - 1], col);
      var last := rows[|rows| - 1];
      ValuesOfSnoc(rows, col);
      if col in last && last[col] != "" then InsertSorted(init, last[col]) else init
  }

  /** Two ascending lists of distinct values with the same elements are the same list. */
  lemma {:induction false} IncreasingUnique(a: seq<string>, b: seq<string>)
    requires Increasing(a) && Increasing(b)
    requires forall x :: x in a <==> x in b
    ensures a == b
    decreases |a|
  {
    if a != [] { assert a[0] in b; }
    if b != [] { assert b[0] in a; }
    if a != [] && b != [] {
      assert a == [a[0]] + a[1..] && b == [b[0]] + b[1..];
      if a[0] != b[0] {
        BelowTotal(a[0], b[0]);
        if Below(a[0], b[0]) {
          var j :| 0 <= j < |b| && b[j] == a[0];
          if j > 0 { BelowTransitive(b[0], b[j], b[0]); }
          BelowIrreflexive(b[0]);
        }
      }
      forall x ensures x in a[1..] <==> x in b[1..] {
        if x in a[1..] {
          var j :| 0 <= j < |a[1..]| && a[1..][j] == x;
          assert Below(a[0], a[j + 1]);
          assert x in a && x in b;
          if x == b[0] { BelowIrreflexive(x); }
        }
        if x in b[1..] {
          var j :| 0 <= j < |b[1..]| && b[1..][j] == x;
          assert Below(b[0], b[j + 1]);
          assert x in b && x in a;
          if x == a[0] { BelowIrreflexive(x); }
        }
      }
      IncreasingUnique(a[1..], b[1..]);
    }
  }

  /** The list depends only on the set of values, not on how many rows carry them or in what order. */
  lemma DistinctValuesBySet(rows1: seq<Row>, rows2: seq<Row>, col: string)
    requires ValuesOf(rows1, col) == ValuesOf(rows2, col)
    ensures DistinctValues(rows1, col) == DistinctValues(rows2, col)
  {
    IncreasingUnique(DistinctValues(rows1, col), DistinctValues(rows2, col));
  }

  /** The `brands` and `platforms` lists both endpoints build from the fetched dictionary. */
  datatype Lists = Lists(brands: seq<string>, platforms: seq<string>)

  /** The body of `/api/getMetadata`: the distinct brands and platforms of the fetched dictionary, each list ascending. */
  function ListsFrom(all: AllData): (lists: Lists)
    ensures Increasing(lists.brands) && Increasing(lists.platforms)
    ensures forall v :: v in lists.brands <==> v in ValuesOf(Lookup(all, "marcas", "MARCAS"), "Marca")
    ensures forall v :: v in lists.platforms <==> v in ValuesOf(Lookup(all, "plataformas", "PLATAFORMAS"), "Plataforma")
  {
    Lists(DistinctValues(Lookup(all, "marcas", "MARCAS"), "Marca"),
          DistinctValues(Lookup(all, "plataformas", "PLATAFORMAS"), "Plataforma"))
  }

  /** After a fetch, the lists hold the distinct brands of the brands worksheet and the distinct platforms of the platforms worksheet. */
  lemma ListsAfterFetch(upstream: Upstream)
    ensures forall v :: v in ListsFrom(FetchResult(upstream)).brands <==> v in ValuesOf(SheetRows(upstream, "MARCAS"), "Marca")
    ensures forall v :: v in ListsFrom(FetchResult(upstream)).platforms <==> v in ValuesOf(SheetRows(upstream, "PLATAFORMAS"), "Plataforma")
  {
    LookupListSheet(upstream, "marcas", "MARCAS");
    LookupListSheet(upstream, "plataformas", "PLATAFORMAS");
  }
}
