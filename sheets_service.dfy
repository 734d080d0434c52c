/**
 * services/sheets_service.py: reading the three worksheets into one
 * dictionary keyed by stable names, and the single-slot memo around it.
 * Authentication, the spreadsheet client and its network calls are not
 * modelled; what they produce is the `Upstream` value handed in.
 */
module SheetsService {
  import opened Wrappers
  import opened Text

  /** One record of a worksheet (`get_all_records`): column header to cell text. */
  type Row = map<string, string>

  /** What `fetch_all_data` returns: dictionary key to that worksheet's records. */
  type AllData = map<string, seq<Row>>

  const WORKSHEETS_TO_FETCH: seq<string> := ["BANCO_INSIGHTS", "MARCAS", "PLATAFORMAS"]

  /**
   * What the spreadsheet service answers. `AuthFailed`: no client could be built.
   * `OpenFailed`: the spreadsheet was not found or opening it raised.
   * `Opened(worksheets)`: a worksheet name missing from the map is not found,
   * `None` is a worksheet whose records could not be read, `Some(rows)` its records.
   */
  datatype Upstream =
    | AuthFailed
    | OpenFailed
    | Opened(worksheets: map<string, Option<seq<Row>>>)

  /** The stable dictionary key for a worksheet name that was read successfully. */
  function WorksheetKey(name: string): (key: string) {
    KeyOfLowered(Lower(Strip(name)))
  }

  /** The substring rules, in their order of precedence, on the stripped, lower-cased name. */
  function KeyOfLowered(low: string): (key: string) {
    if Contains(low, "insight") then "insights"
    else if Contains(low, "marca") then "marcas"
    else if Contains(low, "plataform") then "plataformas"
    else low
  }

  /** A name of lower-case letters and underscores is its own stripped, lower-cased form. */
  lemma {:induction false} AlreadyLowered(s: string)
    requires s != []
    requires forall i :: 0 <= i < |s| ==> 'a' <= s[i] <= 'z' || s[i] == '_'
    ensures Lower(Strip(s)) == s
  {
    StripStripped(s);
  }

  /** A name of capitals and underscores, stripped and lower-cased. */
  lemma {:induction false} LoweredCapitals(s: string, low: string)
    requires s != [] && |low| == |s|
    requires forall i :: 0 <= i < |s| ==> ('A' <= s[i] <= 'Z' && low[i] == (s[i] as int + 32) as char) || s[i] == low[i] == '_'
    ensures Lower(Strip(s)) == low
  {
    StripStripped(s);
  }

  /** The rule for the insights worksheet. */
  lemma InsightsRule()
    ensures KeyOfLowered("insights") == "insights" && KeyOfLowered("banco_insights") == "insights"
  {
    assert OccursAt("insights", "insight", 0);
    assert OccursAt("banco_insights", "insight", 6);
  }

  /** The rule for the brands worksheet. */
  lemma MarcasRule()
    ensures KeyOfLowered("marcas") == "marcas"
  {
    NotContainsByChar("marcas", "insight", 0);
    assert OccursAt("marcas", "marca", 0);
  }

  /** The rule for the platforms worksheet. */
  lemma PlataformasRule()
    ensures KeyOfLowered("plataformas") == "plataformas"
  {
    NotContainsByChar("plataformas", "insight", 0);
    NotContainsByChar("plataformas", "marca", 3);
    assert OccursAt("plataformas", "plataform", 0);
  }

  lemma InsightsLowered()
    ensures Lower(Strip("insights")) == "insights"
  {
    AlreadyLowered("insights");
  }

  lemma MarcasLowered()
    ensures Lower(Strip("marcas")) == "marcas"
  {
    AlreadyLowered("marcas");
  }

  lemma PlataformasLowered()
    ensures Lower(Strip("plataformas")) == "plataformas"
  {
    AlreadyLowered("plataformas");
  }

  /** `"insights"` is its own key. */
  lemma InsightsKeyStable()
    ensures WorksheetKey("insights") == "insights"
  {
    InsightsLowered();
    InsightsRule();
  }

  /** `"marcas"` is its own key. */
  lemma MarcasKeyStable()
    ensures WorksheetKey("marcas") == "marcas"
  {
    MarcasLowered();
    MarcasRule();
  }

  /** `"plataformas"` is its own key. */
  lemma PlataformasKeyStable()
    ensures WorksheetKey("plataformas") == "plataformas"
  {
    PlataformasLowered();
    PlataformasRule();
  }

  /** Normalising an already normalised key changes nothing: the keys are stable. */
  lemma WorksheetKeyIdempotent(name: string)
    ensures WorksheetKey(WorksheetKey(name)) == WorksheetKey(name)
  {
    var low := Lower(Strip(name));
    if Contains(low, "insight") {
      InsightsKeyStable();
    } else if Contains(low, "marca") {
      MarcasKeyStable();
    } else if Contains(low, "plataform") {
      PlataformasKeyStable();
    } else {
      PlainKeyStable(Strip(name));
    }
  }

  /** A stripped, lower-cased name that matches no rule is its own key. */
  lemma PlainKeyStable(stripped: string)
    requires stripped == [] || (!IsSpace(stripped[0]) && !IsSpace(stripped[|stripped| - 1]))
    requires var low := Lower(stripped); !Contains(low, "insight") && !Contains(low, "marca") && !Contains(low, "plataform")
    ensures WorksheetKey(Lower(stripped)) == Lower(stripped)
  {
    var low := Lower(stripped);
    LowerKeepsSpaces(stripped);
    StripStripped(low);
    LowerIdempotent(stripped);
  }

  lemma BancoInsightsLowered()
    ensures Lower(Strip("BANCO_INSIGHTS")) == "banco_insights"
  {
    LoweredCapitals("BANCO_INSIGHTS", "banco_insights");
  }

  lemma MarcasCapitalsLowered()
    ensures Lower(Strip("MARCAS")) == "marcas"
  {
    LoweredCapitals("MARCAS", "marcas");
  }

  lemma PlataformasCapitalsLowered()
    ensures Lower(Strip("PLATAFORMAS")) == "plataformas"
  {
    LoweredCapitals("PLATAFORMAS", "plataformas");
  }

  /** The insights worksheet is stored under `"insights"`. */
  lemma InsightsWorksheetKey()
    ensures WorksheetKey("BANCO_INSIGHTS") == "insights"
  {
    BancoInsightsLowered();
    InsightsRule();
  }

  /** The brands worksheet is stored under `"marcas"`. */
  lemma MarcasWorksheetKey()
    ensures WorksheetKey("MARCAS") == "marcas"
  {
    MarcasCapitalsLowered();
    MarcasRule();
  }

  /** The platforms worksheet is stored under `"plataformas"`. */
  lemma PlataformasWorksheetKey()
    ensures WorksheetKey("PLATAFORMAS") == "plataformas"
  {
    PlataformasCapitalsLowered();
    PlataformasRule();
  }

  predicate Fetched(name: string, worksheets: map<string, Option<seq<Row>>>) {
    name in worksheets && worksheets[name].Some?
  }

  /** Where one worksheet lands: its stable key when read, its raw name when not. */
  function SlotKey(name: string, worksheets: map<string, Option<seq<Row>>>): string {
    if Fetched(name, worksheets) then WorksheetKey(name) else name
  }

  /** What one worksheet contributes: its records when read, `[]` when not. */
  function SlotRows(name: string, worksheets: map<string, Option<seq<Row>>>): seq<Row> {
    if Fetched(name, worksheets) then worksheets[name].value else []
  }

  /** The dictionary after storing the worksheets `names` in order. */
  function Assembled(names: seq<string>, worksheets: map<string, Option<seq<Row>>>): AllData
    decreases |names|
  {
    if names == [] then map[]
    else
      var last := names[|names| - 1];
      Assembled(names[..|names| - 1], worksheets)[SlotKey(last, worksheets) := SlotRows(last, worksheets)]
  }

  /** Each worksheet contributes exactly one key and nothing else is added. */
  lemma {:induction false} AssembledKeys(names: seq<string>, worksheets: map<string, Option<seq<Row>>>)
    ensures Assembled(names, worksheets).Keys == set i | 0 <= i < |names| :: SlotKey(names[i], worksheets)
    decreases |names|
  {
    if names != [] {
      var init := names[..|names| - 1];
      AssembledKeys(init, worksheets);
      var s := set i | 0 <= i < |names| :: SlotKey(names[i], worksheets);
      var t := set i | 0 <= i < |init| :: SlotKey(init[i], worksheets);
      assert s == t + {SlotKey(names[|names| - 1], worksheets)} by {
        forall k | k in s ensures k in t + {SlotKey(names[|names| - 1], worksheets)} {
          var i :| 0 <= i < |names| && k == SlotKey(names[i], worksheets);
          if i < |init| { assert init[i] == names[i]; }
        }
        forall k | k in t ensures k in s {
          var i :| 0 <= i < |init| && k == SlotKey(init[i], worksheets);
          assert names[i] == init[i];
        }
      }
    }
  }

  /** A key holds the records of the last worksheet stored under it. */
  lemma {:induction false} AssembledLastWins(names: seq<string>, worksheets: map<string, Option<seq<Row>>>, i: int)
    requires 0 <= i < |names|
    requires forall j :: i < j < |names| ==> SlotKey(names[j], worksheets) != SlotKey(names[i], worksheets)
    ensures SlotKey(names[i], worksheets) in Assembled(names, worksheets)
    ensures Assembled(names, worksheets)[SlotKey(names[i], worksheets)] == SlotRows(names[i], worksheets)
    decreases |names|
  {
    if i < |names| - 1 {
      var init := names[..|names| - 1];
      assert init[i] == names[i];
      AssembledLastWins(init, worksheets, i);
    }
  }

  /** The loop of `fetch_all_data` over the worksheet names, one store per name. */
  method AssembleWorksheets(names: seq<string>, worksheets: map<string, Option<seq<Row>>>)
    returns (allData: AllData)
    ensures allData == Assembled(names, worksheets)
  {
    allData := map[];
    var i := 0;
    while i < |names|
      invariant 0 <= i <= |names|
      invariant allData == Assembled(names[..i], worksheets)
    {
      var name := names[i];
      if name in worksheets && worksheets[name].Some? {
        var key := WorksheetKey(name);
        allData := allData[key := worksheets[name].value];
      } else {
        allData := allData[name := []];
      }
      assert names[..i + 1][..i] == names[..i];
      i := i + 1;
    }
    assert names[..i] == names;
  }

  /** The value of one uncached call of `fetch_all_data`. */
  function FetchResult(upstream: Upstream): AllData {
    match upstream
    case AuthFailed => map[]
    case OpenFailed => map[]
    case Opened(worksheets) => Assembled(WORKSHEETS_TO_FETCH, worksheets)
  }

  /** The body of `fetch_all_data`: `{}` on failure, otherwise the assembled worksheets. */
  method FetchFromUpstream(upstream: Upstream) returns (allData: AllData)
    ensures allData == FetchResult(upstream)
  {
    match upstream {
      case AuthFailed =>
        allData := map[];
      case OpenFailed =>
        allData := map[];
      case Opened(worksheets) =>
        allData := AssembleWorksheets(WORKSHEETS_TO_FETCH, worksheets);
    }
  }

  /** Where the fixed list puts the insights worksheet. */
  function InsightsSlot(worksheets: map<string, Option<seq<Row>>>): string {
    if Fetched("BANCO_INSIGHTS", worksheets) then "insights" else "BANCO_INSIGHTS"
  }

  /** Where the fixed list puts the brands worksheet. */
  function MarcasSlot(worksheets: map<string, Option<seq<Row>>>): string {
    if Fetched("MARCAS", worksheets) then "marcas" else "MARCAS"
  }

  /** Where the fixed list puts the platforms worksheet. */
  function PlataformasSlot(worksheets: map<string, Option<seq<Row>>>): string {
    if Fetched("PLATAFORMAS", worksheets) then "plataformas" else "PLATAFORMAS"
  }

  /** Three worksheets stored under three different keys. */
  lemma {:induction false} AssembledThree(names: seq<string>, worksheets: map<string, Option<seq<Row>>>)
    requires |names| == 3
    ensures Assembled(names, worksheets) ==
      map[SlotKey(names[0], worksheets) := SlotRows(names[0], worksheets)]
         [SlotKey(names[1], worksheets) := SlotRows(names[1], worksheets)]
         [SlotKey(names[2], worksheets) := SlotRows(names[2], worksheets)]
  {
    var two, one := names[..2], names[..1];
    assert two[..1] == one && one[..0] == [];
    assert Assembled(names, worksheets) ==
      Assembled(two, worksheets)[SlotKey(names[2], worksheets) := SlotRows(names[2], worksheets)];
    assert Assembled(two, worksheets) ==
      Assembled(one, worksheets)[SlotKey(names[1], worksheets) := SlotRows(names[1], worksheets)];
    assert Assembled(one, worksheets) ==
      map[][SlotKey(names[0], worksheets) := SlotRows(names[0], worksheets)];
  }

  /**
   * With the fixed worksheet list, a read worksheet lands under its stable key,
   * an unread one under its raw name with no records, and nothing else is stored.
   */
  lemma FixedWorksheetSlots(worksheets: map<string, Option<seq<Row>>>)
    ensures FetchResult(Opened(worksheets)) ==
      map[InsightsSlot(worksheets) := SlotRows("BANCO_INSIGHTS", worksheets),
          MarcasSlot(worksheets) := SlotRows("MARCAS", worksheets),
          PlataformasSlot(worksheets) := SlotRows("PLATAFORMAS", worksheets)]
  {
    var names := WORKSHEETS_TO_FETCH;
    assert names[0] == "BANCO_INSIGHTS" && names[1] == "MARCAS" && names[2] == "PLATAFORMAS";
    AssembledThree(names, worksheets);
    InsightsSlotKey(worksheets);
    MarcasSlotKey(worksheets);
    PlataformasSlotKey(worksheets);
  }

  lemma InsightsSlotKey(worksheets: map<string, Option<seq<Row>>>)
    ensures SlotKey("BANCO_INSIGHTS", worksheets) == InsightsSlot(worksheets)
  {
    InsightsWorksheetKey();
  }

  lemma MarcasSlotKey(worksheets: map<string, Option<seq<Row>>>)
    ensures SlotKey("MARCAS", worksheets) == MarcasSlot(worksheets)
  {
    MarcasWorksheetKey();
  }

  lemma PlataformasSlotKey(worksheets: map<string, Option<seq<Row>>>)
    ensures SlotKey("PLATAFORMAS", worksheets) == PlataformasSlot(worksheets)
  {
    PlataformasWorksheetKey();
  }

  /**
   * `@lru_cache(maxsize=1)` on the argument-less `fetch_all_data`: the first
   * call runs the body and keeps whatever it returned, `{}` included; every
   * later call returns that value without running the body again.
   */
  class LruCachedFetch {
    var memo: Option<AllData>
    /** How many times the body has run. */
    ghost var runs: nat

    ghost predicate Valid()
      reads this
    {
      runs <= 1 && (memo.None? <==> runs == 0)
    }

    constructor ()
      ensures Valid() && memo == None && runs == 0
    {
      memo := None;
      runs := 0;
    }

    method FetchAllData(upstream: Upstream) returns (allData: AllData)
      requires Valid()
      modifies this
      ensures Valid()
      ensures old(memo).Some? ==> allData == old(memo).value && memo == old(memo) && runs == old(runs)
      ensures old(memo).None? ==> allData == FetchResult(upstream) && memo == Some(allData) && runs == 1
    {
      if memo.Some? {
        allData := memo.value;
      } else {
        allData := FetchFromUpstream(upstream);
        memo := Some(allData);
        runs := runs + 1;
      }
    }
  }

  /**
   * Two calls in one process, whatever the spreadsheet answers each time:
   * the second returns what the first did, and the body ran once.
   */
  method MemoKeepsFirstResult(first: Upstream, later: Upstream) returns (a: AllData, b: AllData)
    ensures a == FetchResult(first)
    ensures b == a
  {
    var cache := new LruCachedFetch();
    a := cache.FetchAllData(first);
    b := cache.FetchAllData(later);
    assert cache.runs == 1;
  }
}
