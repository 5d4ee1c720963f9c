/**
 * The per-block settings of src/main.ts: a dictionary copied from the
 * plugin's persisted settings, overwritten row by row by `key:value` lines,
 * from which six fields of the bar are then taken.
 */
module Settings {

  import opened Strings

  /** A dictionary value: the persisted settings hold strings, a number and a flag; override rows store strings. */
  datatype SettingValue = Text(text: string) | Number(number: int) | Flag(flag: bool)

  /** The persisted settings, `TextProgressSettings`. */
  datatype GlobalSettings = GlobalSettings(
    transition: string,
    fill: string,
    empty: string,
    open: string,
    close: string,
    length: int,
    labelHide: bool)

  /** `DEFAULT_SETTINGS`: moon phases for the transition, full and new moon for fill and empty. */
  const Defaults := GlobalSettings("\U{1F312},\U{1F313},\U{1F314}", "\U{1F315}", "\U{1F311}", "", "", 0, false)

  /**
   * The defaults draw three moon phases as transitions, a single full moon as
   * the fill, and a bar as long as the total (a length of 0 defers to it).
   */
  lemma DefaultSymbols()
    ensures Split(Defaults.transition, ',') == ["\U{1F312}", "\U{1F313}", "\U{1F314}"]
    ensures Split(Defaults.fill, ',') == ["\U{1F315}"]
    ensures Defaults.length <= 0
  {
    var phases := ["\U{1F312}", "\U{1F313}", "\U{1F314}"];
    assert Join(phases, ',') == Defaults.transition;
    SplitJoin(phases, ',');
  }

  type Dictionary = map<string, SettingValue>

  /** The keys of the per-block copy are all present, and the string-valued ones hold text. */
  ghost predicate WellTyped(m: Dictionary) {
    "transition" in m && "open" in m && "close" in m && "fill" in m && "empty" in m &&
    "labelHide" in m && "length" in m &&
    m["transition"].Text? && m["open"].Text? && m["close"].Text? && m["fill"].Text? && m["empty"].Text?
  }

  /** The per-block copy of the persisted settings that the override rows are merged into. */
  function Snapshot(g: GlobalSettings): (m: Dictionary)
    ensures WellTyped(m)
    ensures m.Keys == {"transition", "open", "close", "fill", "empty", "labelHide", "length"}
  {
    map["transition" := Text(g.transition), "open" := Text(g.open), "close" := Text(g.close),
        "fill" := Text(g.fill), "empty" := Text(g.empty), "labelHide" := Flag(g.labelHide),
        "length" := Number(g.length)]
  }

  /** The key of an override row: the text before its first colon, or the whole row. */
  function RowKey(row: string): string {
    if ':' in row then row[..IndexOf(row, ':')] else row
  }

  /** The value of an override row: the text after its first colon, or "" when it has none. */
  function RowValue(row: string): string {
    if ':' in row then row[IndexOf(row, ':') + 1..] else ""
  }

  /**
   * A row is its key, then, when it has a colon, the colon and its value; the
   * key holds no colon, and a row without one has the empty value.
   */
  lemma RowParts(row: string)
    ensures ':' !in RowKey(row)
    ensures ':' in row ==> row == RowKey(row) + [':'] + RowValue(row)
    ensures ':' !in row ==> RowKey(row) == row && RowValue(row) == ""
  {
    if ':' in row {
      var i := IndexOf(row, ':');
      assert row == row[..i] + [row[i]] + row[i + 1..];
    }
  }

  /**
   * Splitting a row on every colon and joining all pieces but the first again,
   * as the merge loop does, is splitting it on its first colon.
   */
  lemma SplitFirstColon(row: string)
    ensures Split(row, ':')[0] == RowKey(row)
    ensures Join(Split(row, ':')[1..], ':') == RowValue(row)
  {
    var parts := Split(row, ':');
    if ':' in row {
      var i := IndexOf(row, ':');
      assert parts[1..] == Split(row[i + 1..], ':');
      JoinSplit(row[i + 1..], ':');
    } else {
      assert parts[1..] == [];
    }
  }

  /** The dictionary after writing the rows in order, each as `key := Text(value)`. */
  function Merge(base: Dictionary, rows: seq<string>): (m: Dictionary)
    ensures WellTyped(base) ==> WellTyped(m)
    decreases |rows|
  {
    if rows == [] then base
    else
      var last := rows[|rows| - 1];
      Merge(base, rows[..|rows| - 1])[RowKey(last) := Text(RowValue(last))]
  }

  /**
   * The merge loop of src/main.ts: each row split on every colon, the first
   * piece the key, the others joined again the value, written over the copy.
   */
  method MergeRows(base: Dictionary, rows: seq<string>) returns (settings: Dictionary)
    ensures settings == Merge(base, rows)
  {
    settings := base;
    for row := 0 to |rows|
      invariant settings == Merge(base, rows[..row])
    {
      var parts := Split(rows[row], ':');
      var first, rest := parts[0], parts[1..];
      var restJoined := Join(rest, ':');
      SplitFirstColon(rows[row]);
      settings := settings[first := Text(restJoined)];
      assert rows[..row + 1][..row] == rows[..row];
    }
    assert rows[..|rows|] == rows;
  }

  /** The last row that names a key decides that key's value. */
  lemma {:induction false} MergeLastWins(base: Dictionary, rows: seq<string>, i: nat)
    requires i < |rows|
    requires forall j :: i < j < |rows| ==> RowKey(rows[j]) != RowKey(rows[i])
    ensures RowKey(rows[i]) in Merge(base, rows)
    ensures Merge(base, rows)[RowKey(rows[i])] == Text(RowValue(rows[i]))
    decreases |rows|
  {
    var init := rows[..|rows| - 1];
    if i < |rows| - 1 {
      forall j | i < j < |init| ensures RowKey(init[j]) != RowKey(init[i]) {
        assert init[j] == rows[j];
      }
      MergeLastWins(base, init, i);
    }
  }

  /** A key no row names keeps the value it had before the merge (or stays absent). */
  lemma {:induction false} MergeKeepsUnnamed(base: Dictionary, rows: seq<string>, k: string)
    requires forall j :: 0 <= j < |rows| ==> RowKey(rows[j]) != k
    ensures k in Merge(base, rows) <==> k in base
    ensures k in base ==> Merge(base, rows)[k] == base[k]
    decreases |rows|
  {
    if rows != [] {
      var init := rows[..|rows| - 1];
      forall j | 0 <= j < |init| ensures RowKey(init[j]) != k {
        assert init[j] == rows[j];
      }
      MergeKeepsUnnamed(base, init, k);
    }
  }

  /** The keys the rows name. */
  function Named(rows: seq<string>): set<string> {
    set j | 0 <= j < |rows| :: RowKey(rows[j])
  }

  /** The merge adds the rows' keys and nothing else. */
  lemma {:induction false} MergeKeys(base: Dictionary, rows: seq<string>)
    ensures Merge(base, rows).Keys == base.Keys + Named(rows)
    decreases |rows|
  {
    if rows != [] {
      MergeKeys(base, rows[..|rows| - 1]);
      NamedSnoc(rows);
    }
  }

  /** The keys the rows name are those the rows before the last name, and the last row's. */
  lemma NamedSnoc(rows: seq<string>)
    requires rows != []
    ensures Named(rows) == Named(rows[..|rows| - 1]) + {RowKey(rows[|rows| - 1])}
  {
    var init := rows[..|rows| - 1];
    forall key | key in Named(rows) ensures key in Named(init) + {RowKey(rows[|rows| - 1])} {
      var j :| 0 <= j < |rows| && RowKey(rows[j]) == key;
      if j < |init| {
        assert init[j] == rows[j];
      }
    }
    forall key | key in Named(init) ensures key in Named(rows) {
      var j :| 0 <= j < |init| && RowKey(init[j]) == key;
      assert rows[j] == init[j];
    }
  }

  /** The six fields a block takes from the merged dictionary. */
  datatype BarFields = BarFields(
    transition: string,
    open: string,
    close: string,
    fill: string,
    length: int,
    empty: string)

  /**
   * The numeric length read from a dictionary value, as JavaScript's number
   * conversion reads it where the source compares and multiplies it: a number
   * as it is; a row's text, once the white space around it is trimmed, as its
   * value when it is a plain run of decimal digits, and any other text as 0
   * (which makes the bar fall back to one segment per unit).
   */
  function LengthOf(v: SettingValue): (n: int)
    ensures v.Number? ==> n == v.number
    ensures v.Text? ==> n >= 0
    ensures v.Text? && v.text != "" && AllDigits(v.text) ==> n == DigitsValue(v.text)
  {
    match v
    case Number(n) => n
    case Text(s) =>
      DigitsUntrimmed(s);
      var t := Trim(s);
      if t != "" && AllDigits(t) then DigitsValue(t) else 0
    case Flag(b) => if b then 1 else 0
  }

  /** A run of digits has no white space to trim. */
  lemma DigitsUntrimmed(s: string)
    ensures s != "" && AllDigits(s) ==> TrimStart(s) == s && TrimEnd(s) == s && Trim(s) == s
  {
    if s != "" && AllDigits(s) {
      assert !IsSpace(s[0]) && !IsSpace(s[|s| - 1]);
      assert TrimStart(s) == s;
    }
  }

  /** White space after the colon is ignored: `length: 10` reads as `length:10`. */
  lemma SpacedLength(spaces: string, ds: string)
    requires forall i :: 0 <= i < |spaces| ==> IsSpace(spaces[i])
    requires ds != "" && AllDigits(ds)
    ensures LengthOf(Text(spaces + ds)) == DigitsValue(ds)
  {
    assert !IsSpace(ds[0]);
    TrimLeading(spaces, ds);
    DigitsUntrimmed(ds);
    assert Trim(spaces + ds) == ds;
  }

  /** Lines 149-154 of src/main.ts: transition, open, close, fill, length and empty, and nothing else. */
  function Resolve(m: Dictionary): BarFields
    requires WellTyped(m)
  {
    BarFields(m["transition"].text, m["open"].text, m["close"].text, m["fill"].text,
              LengthOf(m["length"]), m["empty"].text)
  }

  const BarKeys: set<string> := {"transition", "open", "close", "fill", "length", "empty"}

  /** Writing any other key, `labelHide` or an unknown one, leaves the bar's fields as they were. */
  lemma ResolveIgnoresOtherKeys(m: Dictionary, k: string, v: SettingValue)
    requires WellTyped(m) && k !in BarKeys
    ensures WellTyped(m[k := v])
    ensures Resolve(m[k := v]) == Resolve(m)
  {
  }

  /**
   * The bar of a block takes its fill and its length from the last row
   * naming each, and from the persisted settings when no row does.
   */
  lemma ResolveMerged(g: GlobalSettings, rows: seq<string>)
    ensures WellTyped(Merge(Snapshot(g), rows))
    ensures (forall j :: 0 <= j < |rows| ==> RowKey(rows[j]) != "fill") ==>
              Resolve(Merge(Snapshot(g), rows)).fill == g.fill
    ensures (forall j :: 0 <= j < |rows| ==> RowKey(rows[j]) != "length") ==>
              Resolve(Merge(Snapshot(g), rows)).length == g.length
    ensures forall i :: (0 <= i < |rows| && RowKey(rows[i]) == "fill" &&
                         forall j :: i < j < |rows| ==> RowKey(rows[j]) != "fill") ==>
              Resolve(Merge(Snapshot(g), rows)).fill == RowValue(rows[i])
    ensures forall i :: (0 <= i < |rows| && RowKey(rows[i]) == "length" &&
                         forall j :: i < j < |rows| ==> RowKey(rows[j]) != "length") ==>
              Resolve(Merge(Snapshot(g), rows)).length == LengthOf(Text(RowValue(rows[i])))
  {
    var base := Snapshot(g);
    var m := Merge(base, rows);
    if forall j :: 0 <= j < |rows| ==> RowKey(rows[j]) != "fill" {
      UnnamedKept(g, rows, "fill");
    }
    if forall j :: 0 <= j < |rows| ==> RowKey(rows[j]) != "length" {
      UnnamedKept(g, rows, "length");
    }
    forall i | 0 <= i < |rows| && RowKey(rows[i]) == "fill" &&
               (forall j :: i < j < |rows| ==> RowKey(rows[j]) != "fill")
      ensures Resolve(m).fill == RowValue(rows[i])
    {
      LastRowWins(g, rows, i);
    }
    forall i | 0 <= i < |rows| && RowKey(rows[i]) == "length" &&
               (forall j :: i < j < |rows| ==> RowKey(rows[j]) != "length")
      ensures Resolve(m).length == LengthOf(Text(RowValue(rows[i])))
    {
      LastRowWins(g, rows, i);
    }
  }

  /** A field no row names keeps the persisted value. */
  lemma UnnamedKept(g: GlobalSettings, rows: seq<string>, k: string)
    requires k in {"fill", "length"}
    requires forall j :: 0 <= j < |rows| ==> RowKey(rows[j]) != k
    ensures WellTyped(Merge(Snapshot(g), rows))
    ensures k == "fill" ==> Resolve(Merge(Snapshot(g), rows)).fill == g.fill
    ensures k == "length" ==> Resolve(Merge(Snapshot(g), rows)).length == g.length
  {
    MergeKeepsUnnamed(Snapshot(g), rows, k);
  }

  /** The field a row names comes from that row when no later row names it. */
  lemma LastRowWins(g: GlobalSettings, rows: seq<string>, i: nat)
    requires i < |rows| && RowKey(rows[i]) in {"fill", "length"}
    requires forall j :: i < j < |rows| ==> RowKey(rows[j]) != RowKey(rows[i])
    ensures WellTyped(Merge(Snapshot(g), rows))
    ensures RowKey(rows[i]) == "fill" ==> Resolve(Merge(Snapshot(g), rows)).fill == RowValue(rows[i])
    ensures RowKey(rows[i]) == "length" ==>
              Resolve(Merge(Snapshot(g), rows)).length == LengthOf(Text(RowValue(rows[i])))
  {
    MergeLastWins(Snapshot(g), rows, i);
  }

  /** A value keeps every colon after the first: `open:a:b` sets `open` to `a:b`. */
  lemma ColonInValue()
    ensures RowKey("open:a:b") == "open" && RowValue("open:a:b") == "a:b"
  {
    IndexOfAt("open:a:b", ':', 4);
  }

  /** Overriding fill and length over the defaults changes those two and keeps the rest. */
  lemma OverrideDefaults()
    ensures Resolve(Merge(Snapshot(Defaults), ["fill:\U{1F311}", "length:5"])) ==
            BarFields(Defaults.transition, "", "", "\U{1F311}", 5, Defaults.empty)
  {
    OverrideMerged();
    ResolveFillLength(Defaults, "\U{1F311}", "5");
    LengthFive();
  }

  /** The text `5` reads as the length 5. */
  lemma LengthFive()
    ensures LengthOf(Text("5")) == 5
  {
    assert AllDigits("5") && DigitsValue("5") == 5;
  }

  /** Writing `fill` and then `length` over a snapshot changes those two fields only. */
  lemma ResolveFillLength(g: GlobalSettings, fill: string, length: string)
    ensures WellTyped(Snapshot(g)["fill" := Text(fill)]["length" := Text(length)])
    ensures Resolve(Snapshot(g)["fill" := Text(fill)]["length" := Text(length)]) ==
            BarFields(g.transition, g.open, g.close, fill, LengthOf(Text(length)), g.empty)
  {
  }

  /** The two rows write `fill` and then `length`, as text. */
  lemma OverrideMerged()
    ensures Merge(Snapshot(Defaults), ["fill:\U{1F311}", "length:5"]) ==
            Snapshot(Defaults)["fill" := Text("\U{1F311}")]["length" := Text("5")]
  {
    var rows := ["fill:\U{1F311}", "length:5"];
    OverrideRows();
    var m0 := Snapshot(Defaults);
    assert rows[..1][..0] == [] && rows[..1][0] == rows[0];
    assert Merge(m0, rows[..1]) == m0["fill" := Text("\U{1F311}")];
  }

  /** The two rows split on their first colons. */
  lemma OverrideRows()
    ensures RowKey("fill:\U{1F311}") == "fill" && RowValue("fill:\U{1F311}") == "\U{1F311}"
    ensures RowKey("length:5") == "length" && RowValue("length:5") == "5"
  {
    IndexOfAt("fill:\U{1F311}", ':', 4);
    IndexOfAt("length:5", ':', 6);
  }

}
