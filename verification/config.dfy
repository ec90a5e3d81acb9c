/** The shared constants of the server: the survey year to table mapping and
    the categorisation bands on the stage of extraction (a percentage). */
module Config {
  import opened JsText

  /** Survey year to the database table holding that year's assessment. */
  const YearTableMap: map<int, string> :=
    map[2024 := "ingres_data2024final2", 2023 := "ingres_data2023final2"]

  /** The keys of the year table in enumeration order: integer-like keys of a
      JavaScript object enumerate in ascending numeric order. */
  const YearKeys: seq<int> := [2023, 2024]

  /** The tables in the same order, as `Object.values` lists them. */
  const YearTables: seq<string> := ["ingres_data2023final2", "ingres_data2024final2"]

  /** The key list enumerates exactly the map's keys, strictly ascending, and
      the table list follows it. */
  lemma YearKeysEnumerateMap()
    ensures forall y :: y in YearTableMap <==> y in YearKeys
    ensures forall i, j :: 0 <= i < j < |YearKeys| ==> YearKeys[i] < YearKeys[j]
    ensures |YearTables| == |YearKeys|
    ensures forall i :: 0 <= i < |YearKeys| ==> YearTables[i] == YearTableMap[YearKeys[i]]
  {
  }

  /** Every supported year has a non-empty table name, so a lookup is truthy
      exactly when the year is supported. */
  lemma TableNamesNonEmpty()
    ensures forall y :: y in YearTableMap ==> YearTableMap[y] != ""
  {
  }

  /** The rendered key list `Object.keys(YEAR_TABLE_MAP).join(", ")`. */
  function ValidYearsText(): (r: string)
    ensures r == "2023, 2024"
  {
    var parts := seq(|YearKeys|, i requires 0 <= i < |YearKeys| => IntToDecimal(YearKeys[i]));
    YearsPrinted();
    assert parts == ["2023", "2024"];
    assert Join(parts[1..], ", ") == "2024";
    Join(parts, ", ")
  }

  /** The two years as JavaScript prints them. */
  lemma YearsPrinted()
    ensures IntToDecimal(2023) == "2023" && IntToDecimal(2024) == "2024"
  {
    assert NatToDecimal(2) == "2";
    assert NatToDecimal(20) == "20";
    assert NatToDecimal(202) == "202";
  }

  /** One categorisation band: a category name and its membership test. */
  datatype Threshold = Threshold(name: string, test: real -> bool)

  /** The bands in the order they are tried. */
  const CategoryThresholds: seq<Threshold> := [
    Threshold("Over-extracted", v => v > 100.0),
    Threshold("Critical", v => v > 90.0 && v <= 100.0),
    Threshold("Semi-critical", v => v > 70.0 && v <= 90.0),
    Threshold("Safe", v => v >= 0.0 && v <= 70.0)
  ]

  /** How many bands of `ts` accept `v`. */
  function MatchCount(ts: seq<Threshold>, v: real): nat {
    if ts == [] then 0 else (if ts[0].test(v) then 1 else 0) + MatchCount(ts[1..], v)
  }

  /** No value passes two band tests. */
  lemma BandsDisjoint(v: real, i: nat, j: nat)
    requires i < j < |CategoryThresholds|
    ensures !(CategoryThresholds[i].test(v) && CategoryThresholds[j].test(v))
  {
  }

  /** Every non-negative value falls into exactly one band, and a negative
      value into none. */
  lemma BandsCoverNonNegatives(v: real)
    ensures v >= 0.0 ==> MatchCount(CategoryThresholds, v) == 1
    ensures v < 0.0 ==> MatchCount(CategoryThresholds, v) == 0
  {
    var ts := CategoryThresholds;
    assert ts[1..][1..][1..][1..] == [];
    assert MatchCount(ts[3..], v) == if v >= 0.0 && v <= 70.0 then 1 else 0 by {
      assert ts[3..][1..] == [];
    }
    assert MatchCount(ts[2..], v) == (if v > 70.0 && v <= 90.0 then 1 else 0) + MatchCount(ts[3..], v) by {
      assert ts[2..][1..] == ts[3..];
    }
    assert MatchCount(ts[1..], v) == (if v > 90.0 && v <= 100.0 then 1 else 0) + MatchCount(ts[2..], v) by {
      assert ts[1..][1..] == ts[2..];
    }
  }
}
