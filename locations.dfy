/**
 * The location registry: each configured location key maps to a City
 * (display name, timezone, archival code). The table is built once, in
 * order, from the "locations" section of the configuration, whose values
 * have the form "<name>, <timezone>".
 */
module Locations {
  import opened Base
  import opened Strings

  datatype City = City(name: string, timezone: string, code: string)

  /** `City(*data)` was given the wrong number of fields (a TypeError at start-up). */
  datatype ConfigError = WrongFieldCount(key: string, fields: nat)

  /**
   * One configuration entry: the value split on commas, every piece stripped,
   * the key appended as the code, and the three fields handed to City.
   */
  function ParseCity(key: string, info: string): (r: Result<City, ConfigError>)
    ensures r.Ok? <==> multiset(info)[','] == 1
    ensures r.Err? ==> r.error == WrongFieldCount(key, multiset(info)[','] + 2)
    ensures r.Ok? ==> r.value.code == key
    ensures r.Ok? ==> var i := FirstIndex(info, ',');
      i < |info| && r.value.name == Strip(info[..i]) && r.value.timezone == Strip(info[i + 1..])
  {
    var pieces := Split(info, ',');
    var data := seq(|pieces|, k requires 0 <= k < |pieces| => Strip(pieces[k])) + [key];
    if |data| != 3 then Err(WrongFieldCount(key, |data|))
    else
      JoinSplit(info, ',');
      assert info == pieces[0] + [','] + pieces[1];
      assert info[..|pieces[0]|] == pieces[0] && info[|pieces[0]| + 1..] == pieces[1];
      assert forall k :: 0 <= k < |pieces[0]| ==> info[k] == pieces[0][k];
      assert FirstIndex(info, ',') == |pieces[0]|;
      Ok(City(data[0], data[1], data[2]))
  }

  /** The position of the first `c` in `s`, or `|s|` when there is none. */
  function FirstIndex(s: string, c: char): (i: nat)
    ensures i <= |s|
    ensures i < |s| ==> s[i] == c
    ensures forall k :: 0 <= k < i ==> s[k] != c
    decreases |s|
  {
    if s == [] || s[0] == c then 0 else 1 + FirstIndex(s[1..], c)
  }

  /** How one configuration entry (key, value) becomes a City. */
  type EntryParser = (string, string) -> Result<City, ConfigError>

  /** The table after the loop has also processed `items`, starting from `db`. */
  function Fill(parse: EntryParser, db: map<string, City>, items: seq<(string, string)>)
    : Result<map<string, City>, ConfigError>
    decreases |items|
  {
    if items == [] then Ok(db)
    else match parse(items[0].0, items[0].1)
      case Err(e) => Err(e)
      case Ok(city) => Fill(parse, db[items[0].0 := city], items[1..])
  }

  /** The table the configuration's entries produce, or the first bad entry's error. */
  function LocationTable(items: seq<(string, string)>): Result<map<string, City>, ConfigError>
  {
    Fill(ParseCity, map[], items)
  }

  /** The module-level loop that fills `location_db`. */
  method BuildLocationTable(items: seq<(string, string)>) returns (r: Result<map<string, City>, ConfigError>)
    ensures r == LocationTable(items)
  {
    var locationDb: map<string, City> := map[];
    for i := 0 to |items|
      invariant Fill(ParseCity, locationDb, items[i..]) == LocationTable(items)
    {
      var (short, info) := items[i];
      assert items[i..][1..] == items[i + 1..];
      var city := ParseCity(short, info);
      if city.Err? {
        return Err(city.error);
      }
      locationDb := locationDb[short := city.value];
    }
    r := Ok(locationDb);
  }

  /** Filling succeeds exactly when every entry parses. */
  lemma {:induction false} FillOkIff(parse: EntryParser, db: map<string, City>, items: seq<(string, string)>)
    ensures Fill(parse, db, items).Ok? <==> forall j :: 0 <= j < |items| ==> parse(items[j].0, items[j].1).Ok?
    decreases |items|
  {
    if items != [] && parse(items[0].0, items[0].1).Ok? {
      FillOkIff(parse, db[items[0].0 := parse(items[0].0, items[0].1).value], items[1..]);
      assert forall j :: 1 <= j < |items| ==> items[1..][j - 1] == items[j];
    }
  }

  /** A failed fill reports the error of the first entry that does not parse. */
  lemma {:induction false} FillFirstError(parse: EntryParser, db: map<string, City>, items: seq<(string, string)>)
    ensures Fill(parse, db, items).Err? ==>
      exists j :: (0 <= j < |items| && parse(items[j].0, items[j].1) == Err(Fill(parse, db, items).error)
                   && forall j' :: 0 <= j' < j ==> parse(items[j'].0, items[j'].1).Ok?)
    decreases |items|
  {
    if items != [] && parse(items[0].0, items[0].1).Ok? && Fill(parse, db, items).Err? {
      var rest := items[1..];
      FillFirstError(parse, db[items[0].0 := parse(items[0].0, items[0].1).value], rest);
      var j :| 0 <= j < |rest| && parse(rest[j].0, rest[j].1) == Err(Fill(parse, db, items).error)
        && forall j' :: 0 <= j' < j ==> parse(rest[j'].0, rest[j'].1).Ok?;
      assert items[j + 1] == rest[j];
      assert forall j' :: 1 <= j' < j + 1 ==> items[j'] == rest[j' - 1];
    }
  }

  /** The filled table's keys are the starting keys and the keys of all entries. */
  lemma {:induction false} FillKeys(parse: EntryParser, db: map<string, City>, items: seq<(string, string)>)
    ensures Fill(parse, db, items).Ok? ==>
      Fill(parse, db, items).value.Keys == db.Keys + set j | 0 <= j < |items| :: items[j].0
    decreases |items|
  {
    if items != [] && Fill(parse, db, items).Ok? {
      var db' := db[items[0].0 := parse(items[0].0, items[0].1).value];
      FillKeys(parse, db', items[1..]);
      var rest := set j | 0 <= j < |items| - 1 :: items[1..][j].0;
      var all := set j | 0 <= j < |items| :: items[j].0;
      assert all == {items[0].0} + rest by {
        forall x | x in all ensures x in {items[0].0} + rest {
          var j :| 0 <= j < |items| && items[j].0 == x;
          if j > 0 { assert items[1..][j - 1].0 == x; }
        }
      }
    }
  }

  /** If the parser keeps each key as its City's code, so does every filled table. */
  lemma {:induction false} FillCodes(parse: EntryParser, db: map<string, City>, items: seq<(string, string)>)
    requires forall k, v :: parse(k, v).Ok? ==> parse(k, v).value.code == k
    requires forall k :: k in db ==> db[k].code == k
    ensures Fill(parse, db, items).Ok? ==>
      forall k :: k in Fill(parse, db, items).value ==> Fill(parse, db, items).value[k].code == k
    decreases |items|
  {
    if items != [] && Fill(parse, db, items).Ok? {
      FillCodes(parse, db[items[0].0 := parse(items[0].0, items[0].1).value], items[1..]);
    }
  }

  /** When a key occurs several times, the last entry with that key wins. */
  lemma {:induction false} FillLastWins(parse: EntryParser, db: map<string, City>, items: seq<(string, string)>, j: nat)
    requires j < |items| && Fill(parse, db, items).Ok?
    requires forall j' :: j < j' < |items| ==> items[j'].0 != items[j].0
    ensures items[j].0 in Fill(parse, db, items).value
    ensures parse(items[j].0, items[j].1) == Ok(Fill(parse, db, items).value[items[j].0])
    decreases |items|
  {
    var db' := db[items[0].0 := parse(items[0].0, items[0].1).value];
    if j == 0 {
      assert forall j' :: 0 <= j' < |items| - 1 ==> items[1..][j'] == items[j' + 1];
      FillUntouched(parse, db', items[1..], items[0].0);
    } else {
      assert forall j' :: j - 1 < j' < |items| - 1 ==> items[1..][j'] == items[j' + 1];
      FillLastWins(parse, db', items[1..], j - 1);
    }
  }

  /** A key that no entry mentions keeps its starting value. */
  lemma {:induction false} FillUntouched(parse: EntryParser, db: map<string, City>, items: seq<(string, string)>, key: string)
    requires key in db && Fill(parse, db, items).Ok?
    requires forall j :: 0 <= j < |items| ==> items[j].0 != key
    ensures key in Fill(parse, db, items).value && Fill(parse, db, items).value[key] == db[key]
    decreases |items|
  {
    if items != [] {
      assert forall j :: 0 <= j < |items| - 1 ==> items[1..][j] == items[j + 1];
      FillUntouched(parse, db[items[0].0 := parse(items[0].0, items[0].1).value], items[1..], key);
    }
  }

  /**
   * The location table: built exactly when every entry has two comma-separated
   * fields, keyed by the entries' keys, each City's code its own key, and the
   * last entry for a key deciding its City; otherwise the first bad entry's error.
   */
  lemma LocationTableFacts(items: seq<(string, string)>)
    ensures LocationTable(items).Ok? <==> forall j :: 0 <= j < |items| ==> multiset(items[j].1)[','] == 1
    ensures LocationTable(items).Err? ==> exists j :: (0 <= j < |items|
      && ParseCity(items[j].0, items[j].1) == Err(LocationTable(items).error)
      && forall j' :: 0 <= j' < j ==> multiset(items[j'].1)[','] == 1)
    ensures LocationTable(items).Ok? ==> LocationTable(items).value.Keys == set j | 0 <= j < |items| :: items[j].0
    ensures LocationTable(items).Ok? ==>
      forall k :: k in LocationTable(items).value ==> LocationTable(items).value[k].code == k
    ensures LocationTable(items).Ok? ==> forall j ::
      (0 <= j < |items| && forall j' :: j < j' < |items| ==> items[j'].0 != items[j].0) ==>
        ParseCity(items[j].0, items[j].1) == Ok(LocationTable(items).value[items[j].0])
  {
    FillOkIff(ParseCity, map[], items);
    FillFirstError(ParseCity, map[], items);
    FillKeys(ParseCity, map[], items);
    FillCodes(ParseCity, map[], items);
    forall j | 0 <= j < |items| && LocationTable(items).Ok? && (forall j' :: j < j' < |items| ==> items[j'].0 != items[j].0)
      ensures ParseCity(items[j].0, items[j].1) == Ok(LocationTable(items).value[items[j].0])
    {
      FillLastWins(ParseCity, map[], items, j);
    }
  }
}
