/**
 * The battery controller: a power-supply `uevent` file of `KEY=VALUE`
 * lines folded into a record, the device path, and the current reading.
 */
module PowerSupply {
  import opened Common
  import opened Text
  import opened Numbers
  import opened Files

  datatype PowerSupplyErrorCode = FailedToOpenFile | InvalidDataFormat

  /** What `get_current` can fail with: an I/O error passed on by `?`, or a code of its own. */
  datatype BatteryError = IoError | PowerSupplyError(code: PowerSupplyErrorCode)

  /** The record `info` fills; the numeric fields keep their Rust widths. */
  datatype PowerSupply = PowerSupply(
    name: string,
    supplyType: string,
    status: string,
    present: bool,
    voltageNow: int,        // u32
    currentNow: int,        // i32
    capacity: int,          // u8
    capacityLevel: string,
    temp: int,              // i32
    technology: string,
    chargeFull: int,        // u32
    chargeNow: int,         // u32
    chargeFullDesign: int,  // u32
    manufacturer: string)

  const NAME_KEY := "POWER_SUPPLY_NAME"
  const TYPE_KEY := "POWER_SUPPLY_TYPE"
  const STATUS_KEY := "POWER_SUPPLY_STATUS"
  const PRESENT_KEY := "POWER_SUPPLY_PRESENT"
  const VOLTAGE_NOW_KEY := "POWER_SUPPLY_VOLTAGE_NOW"
  const CURRENT_NOW_KEY := "POWER_SUPPLY_CURRENT_NOW"
  const CAPACITY_KEY := "POWER_SUPPLY_CAPACITY"
  const CAPACITY_LEVEL_KEY := "POWER_SUPPLY_CAPACITY_LEVEL"
  const TEMP_KEY := "POWER_SUPPLY_TEMP"
  const TECHNOLOGY_KEY := "POWER_SUPPLY_TECHNOLOGY"
  const CHARGE_FULL_KEY := "POWER_SUPPLY_CHARGE_FULL"
  const CHARGE_NOW_KEY := "POWER_SUPPLY_CHARGE_NOW"
  const CHARGE_FULL_DESIGN_KEY := "POWER_SUPPLY_CHARGE_FULL_DESIGN"
  const MANUFACTURER_KEY := "POWER_SUPPLY_MANUFACTURER"

  /** The keys `info` recognises; every other key is ignored. */
  const KEYS: set<string> := {
    NAME_KEY, TYPE_KEY, STATUS_KEY, PRESENT_KEY, VOLTAGE_NOW_KEY, CURRENT_NOW_KEY,
    CAPACITY_KEY, CAPACITY_LEVEL_KEY, TEMP_KEY, TECHNOLOGY_KEY, CHARGE_FULL_KEY,
    CHARGE_NOW_KEY, CHARGE_FULL_DESIGN_KEY, MANUFACTURER_KEY
  }

  /**
   * `splitn(2, '=')` of one line, both parts trimmed: the key is what comes
   * before the first `=`, the value what comes after it, or "" without one.
   */
  function SplitLine(line: string): (r: (string, string))
    ensures '=' !in line ==> r == (Trim(line), "")
    ensures '=' in line ==> exists i :: 0 <= i < |line| && line[i] == '=' && '=' !in line[..i]
                                        && r == (Trim(line[..i]), Trim(line[i + 1..]))
  {
    var (before, after) := SplitOnce(line, '=');
    match after
    case None => (Trim(before), "")
    case Some(a) =>
      var i := |before|;
      assert line[..i] == before && line[i] == '=' && line[i + 1..] == a;
      (Trim(before), Trim(a))
  }

  /** A line's key and value, as `info` splits it. */
  type Entry = (string, string)

  /** Every line of the file, split. */
  function Entries(lines: seq<string>): (r: seq<Entry>)
    ensures |r| == |lines| && forall j :: 0 <= j < |lines| ==> r[j] == SplitLine(lines[j])
  {
    seq(|lines|, j requires 0 <= j < |lines| => SplitLine(lines[j]))
  }

  /**
   * The value of the last entry whose key is `key`, or `None` when no entry
   * names it: the reference meaning of "later lines overwrite earlier ones".
   */
  function LastValue(entries: seq<Entry>, key: string): (r: Option<string>)
    ensures r.None? <==> forall j :: 0 <= j < |entries| ==> entries[j].0 != key
    ensures r.Some? ==> exists j :: 0 <= j < |entries| && entries[j] == (key, r.value)
                                    && forall k :: j < k < |entries| ==> entries[k].0 != key
  {
    if entries == [] then None
    else
      var last := entries[|entries| - 1];
      var init := entries[..|entries| - 1];
      if last.0 == key then
        assert entries[|entries| - 1] == (key, last.1);
        Some(last.1)
      else
        var r := LastValue(init, key);
        LastValueSkipsLast(entries, key, r);
        r
  }

  /** What `LastValue` says of all entries but the last holds of all of them when the last names another key. */
  lemma LastValueSkipsLast(entries: seq<Entry>, key: string, r: Option<string>)
    requires entries != [] && entries[|entries| - 1].0 != key
    requires var init := entries[..|entries| - 1];
             (r.None? <==> forall j :: 0 <= j < |init| ==> init[j].0 != key) &&
             (r.Some? ==> exists j :: 0 <= j < |init| && init[j] == (key, r.value)
                                      && forall k :: j < k < |init| ==> init[k].0 != key)
    ensures r.None? <==> forall j :: 0 <= j < |entries| ==> entries[j].0 != key
    ensures r.Some? ==> exists j :: 0 <= j < |entries| && entries[j] == (key, r.value)
                                    && forall k :: j < k < |entries| ==> entries[k].0 != key
  {
    var init := entries[..|entries| - 1];
    assert forall j :: 0 <= j < |init| ==> init[j] == entries[j];
    if r.Some? {
      var j :| 0 <= j < |init| && init[j] == (key, r.value) && forall k :: j < k < |init| ==> init[k].0 != key;
      assert entries[j] == (key, r.value);
    }
  }

  /** Appending an entry changes the last value of its own key only. */
  lemma {:induction false} LastValueAppend(entries: seq<Entry>, e: Entry, key: string)
    ensures LastValue(entries + [e], key) == if e.0 == key then Some(e.1) else LastValue(entries, key)
  {
    assert (entries + [e])[..|entries|] == entries;
  }

  /** A text field: the last value given for it, or "". */
  function TextField(entries: seq<Entry>, key: string): string
  {
    match LastValue(entries, key)
    case None => ""
    case Some(v) => v
  }

  /** A flag: true exactly when the last value given for it is "1". */
  function FlagField(entries: seq<Entry>, key: string): bool
  {
    LastValue(entries, key) == Some("1")
  }

  /**
   * A number of the Rust type `lo..=hi`: the last value given for it when
   * that parses as such a number, and 0 otherwise.
   */
  function NumberField(entries: seq<Entry>, key: string, lo: int, hi: int): int
  {
    match LastValue(entries, key)
    case None => 0
    case Some(v) => ParseOrZero(v, lo, hi)
  }

  /** `value.parse().unwrap_or(0)`. */
  function ParseOrZero(value: string, lo: int, hi: int): int
  {
    match ParseInteger(value, lo, hi)
    case None => 0
    case Some(n) => n
  }

  /** The record the entries describe, field by field. */
  function Described(entries: seq<Entry>): PowerSupply
  {
    PowerSupply(
      TextField(entries, NAME_KEY),
      TextField(entries, TYPE_KEY),
      TextField(entries, STATUS_KEY),
      FlagField(entries, PRESENT_KEY),
      NumberField(entries, VOLTAGE_NOW_KEY, 0, U32_MAX),
      NumberField(entries, CURRENT_NOW_KEY, I32_MIN, I32_MAX),
      NumberField(entries, CAPACITY_KEY, 0, U8_MAX),
      TextField(entries, CAPACITY_LEVEL_KEY),
      NumberField(entries, TEMP_KEY, I32_MIN, I32_MAX),
      TextField(entries, TECHNOLOGY_KEY),
      NumberField(entries, CHARGE_FULL_KEY, 0, U32_MAX),
      NumberField(entries, CHARGE_NOW_KEY, 0, U32_MAX),
      NumberField(entries, CHARGE_FULL_DESIGN_KEY, 0, U32_MAX),
      TextField(entries, MANUFACTURER_KEY))
  }

  /** The record `info` starts from. */
  const DEFAULT_SUPPLY := PowerSupply("", "", "", false, 0, 0, 0, "", 0, "", 0, 0, 0, "")

  /** No lines describe the default record. */
  lemma DescribedEmpty()
    ensures Described([]) == DEFAULT_SUPPLY
  {
  }

  /** An entry with an unknown key leaves the record as it was. */
  lemma {:induction false} UnknownKeyIgnored(entries: seq<Entry>, e: Entry)
    requires e.0 !in KEYS
    ensures Described(entries + [e]) == Described(entries)
  {
    forall key | key in KEYS ensures LastValue(entries + [e], key) == LastValue(entries, key) {
      LastValueAppend(entries, e, key);
    }
  }

  /** The last entry naming a key decides it, whatever earlier entries said. */
  lemma {:induction false} LastOccurrenceWins(entries: seq<Entry>, j: nat, key: string)
    requires j < |entries| && entries[j].0 == key
    requires forall k :: j < k < |entries| ==> entries[k].0 != key
    ensures LastValue(entries, key) == Some(entries[j].1)
  {
    var init := entries[..|entries| - 1];
    if j < |entries| - 1 {
      assert forall k :: j < k < |init| ==> init[k] == entries[k];
      LastOccurrenceWins(init, j, key);
    }
  }

  /** A key that no entry names keeps its default: "", 0 or false. */
  lemma AbsentKeyKeepsDefault(entries: seq<Entry>, key: string, lo: int, hi: int)
    requires forall j :: 0 <= j < |entries| ==> entries[j].0 != key
    ensures TextField(entries, key) == "" && !FlagField(entries, key)
    ensures NumberField(entries, key, lo, hi) == 0
  {
  }

  /** A decimal value that fits the field's type is read as that number. */
  lemma NumberInRangeIsRead(v: string, lo: int, hi: int)
    requires v != [] && AllDigits(v) && lo <= DigitsValue(v) <= hi
    ensures ParseOrZero(v, lo, hi) == DigitsValue(v)
  {
  }

  /** A decimal value too large for the field's type reads as 0. */
  lemma NumberOverflowIsZero(v: string, lo: int, hi: int)
    requires v != [] && AllDigits(v) && DigitsValue(v) > hi
    ensures ParseOrZero(v, lo, hi) == 0
  {
  }

  /** A value that is not an integer at all reads as 0. */
  lemma NonNumericIsZero(v: string, lo: int, hi: int)
    requires || v == []
             || (exists k :: 0 < k < |v| && !IsDigit(v[k]))
             || (!IsDigit(v[0]) && v[0] != '+' && v[0] != '-')
             || (v[0] == '-' && lo >= 0)
    ensures ParseOrZero(v, lo, hi) == 0
  {
  }

  /** A capacity that does not fit a `u8`, such as "300", reads as 0. */
  lemma CapacityOverflowIsZero()
    ensures ParseOrZero("300", 0, U8_MAX) == 0
  {
    assert DigitsValue("300") == 300 by {
      assert "300"[..2] == "30" && "30"[..1] == "3" && "3"[..0] == "";
    }
    NumberOverflowIsZero("300", 0, U8_MAX);
  }

  /** A numeric field is the last value given for its key, read at the field's width or as 0. */
  lemma NumberFieldOfLastLine(entries: seq<Entry>, j: nat, key: string, lo: int, hi: int)
    requires j < |entries| && entries[j].0 == key
    requires forall k :: j < k < |entries| ==> entries[k].0 != key
    ensures NumberField(entries, key, lo, hi) == ParseOrZero(entries[j].1, lo, hi)
  {
    LastOccurrenceWins(entries, j, key);
  }

  lemma TakeOneMore<T>(s: seq<T>, i: nat)
    requires i < |s|
    ensures s[..i + 1] == s[..i] + [s[i]]
  {
  }

  /** The record with the field `key` names set from `value`, the others kept. */
  function Updated(ps: PowerSupply, key: string, value: string): PowerSupply
  {
    PowerSupply(
      if key == NAME_KEY then value else ps.name,
      if key == TYPE_KEY then value else ps.supplyType,
      if key == STATUS_KEY then value else ps.status,
      if key == PRESENT_KEY then value == "1" else ps.present,
      if key == VOLTAGE_NOW_KEY then ParseOrZero(value, 0, U32_MAX) else ps.voltageNow,
      if key == CURRENT_NOW_KEY then ParseOrZero(value, I32_MIN, I32_MAX) else ps.currentNow,
      if key == CAPACITY_KEY then ParseOrZero(value, 0, U8_MAX) else ps.capacity,
      if key == CAPACITY_LEVEL_KEY then value else ps.capacityLevel,
      if key == TEMP_KEY then ParseOrZero(value, I32_MIN, I32_MAX) else ps.temp,
      if key == TECHNOLOGY_KEY then value else ps.technology,
      if key == CHARGE_FULL_KEY then ParseOrZero(value, 0, U32_MAX) else ps.chargeFull,
      if key == CHARGE_NOW_KEY then ParseOrZero(value, 0, U32_MAX) else ps.chargeNow,
      if key == CHARGE_FULL_DESIGN_KEY then ParseOrZero(value, 0, U32_MAX) else ps.chargeFullDesign,
      if key == MANUFACTURER_KEY then value else ps.manufacturer)
  }

  /** One more line updates exactly the field its key names. */
  lemma DescribedAppend(entries: seq<Entry>, e: Entry)
    ensures Described(entries + [e]) == Updated(Described(entries), e.0, e.1)
  {
    var es := entries + [e];
    TextFieldAppend(entries, e, NAME_KEY);
    TextFieldAppend(entries, e, TYPE_KEY);
    TextFieldAppend(entries, e, STATUS_KEY);
    LastValueAppend(entries, e, PRESENT_KEY);
    NumberFieldAppend(entries, e, VOLTAGE_NOW_KEY, 0, U32_MAX);
    NumberFieldAppend(entries, e, CURRENT_NOW_KEY, I32_MIN, I32_MAX);
    NumberFieldAppend(entries, e, CAPACITY_KEY, 0, U8_MAX);
    TextFieldAppend(entries, e, CAPACITY_LEVEL_KEY);
    NumberFieldAppend(entries, e, TEMP_KEY, I32_MIN, I32_MAX);
    TextFieldAppend(entries, e, TECHNOLOGY_KEY);
    NumberFieldAppend(entries, e, CHARGE_FULL_KEY, 0, U32_MAX);
    NumberFieldAppend(entries, e, CHARGE_NOW_KEY, 0, U32_MAX);
    NumberFieldAppend(entries, e, CHARGE_FULL_DESIGN_KEY, 0, U32_MAX);
    TextFieldAppend(entries, e, MANUFACTURER_KEY);
  }

  /** Appending an entry changes the text field of its own key only. */
  lemma TextFieldAppend(entries: seq<Entry>, e: Entry, key: string)
    ensures TextField(entries + [e], key) == if e.0 == key then e.1 else TextField(entries, key)
  {
    LastValueAppend(entries, e, key);
  }

  /** Appending an entry changes the numeric field of its own key only. */
  lemma NumberFieldAppend(entries: seq<Entry>, e: Entry, key: string, lo: int, hi: int)
    ensures NumberField(entries + [e], key, lo, hi) ==
            if e.0 == key then ParseOrZero(e.1, lo, hi) else NumberField(entries, key, lo, hi)
  {
    LastValueAppend(entries, e, key);
  }

  /**
   * One turn of `info`'s loop: the field the key names takes the value;
   * a key it does not know changes nothing.
   */
  method Assign(ps: PowerSupply, key: string, value: string, ghost entries: seq<Entry>) returns (ps': PowerSupply)
    requires ps == Described(entries)
    ensures ps' == Described(entries + [(key, value)])
  {
    ps' := ps;
    match key {
      case "POWER_SUPPLY_NAME" => ps' := ps.(name := value);
      case "POWER_SUPPLY_TYPE" => ps' := ps.(supplyType := value);
      case "POWER_SUPPLY_STATUS" => ps' := ps.(status := value);
      case "POWER_SUPPLY_PRESENT" => ps' := ps.(present := value == "1");
      case "POWER_SUPPLY_VOLTAGE_NOW" => ps' := ps.(voltageNow := ParseOrZero(value, 0, U32_MAX));
      case "POWER_SUPPLY_CURRENT_NOW" => ps' := ps.(currentNow := ParseOrZero(value, I32_MIN, I32_MAX));
      case "POWER_SUPPLY_CAPACITY" => ps' := ps.(capacity := ParseOrZero(value, 0, U8_MAX));
      case "POWER_SUPPLY_CAPACITY_LEVEL" => ps' := ps.(capacityLevel := value);
      case "POWER_SUPPLY_TEMP" => ps' := ps.(temp := ParseOrZero(value, I32_MIN, I32_MAX));
      case "POWER_SUPPLY_TECHNOLOGY" => ps' := ps.(technology := value);
      case "POWER_SUPPLY_CHARGE_FULL" => ps' := ps.(chargeFull := ParseOrZero(value, 0, U32_MAX));
      case "POWER_SUPPLY_CHARGE_NOW" => ps' := ps.(chargeNow := ParseOrZero(value, 0, U32_MAX));
      case "POWER_SUPPLY_CHARGE_FULL_DESIGN" => ps' := ps.(chargeFullDesign := ParseOrZero(value, 0, U32_MAX));
      case "POWER_SUPPLY_MANUFACTURER" => ps' := ps.(manufacturer := value);
      case _ =>
    }
    DescribedAppend(entries, (key, value));
  }

  class Battery {
    var path: string
    var currentNowPath: string  // the source's `currnet_now`

    /** `Battery::default()`: both paths empty. */
    constructor ()
      ensures path == "" && currentNowPath == ""
    {
      path := "";
      currentNowPath := "";
    }

    /**
     * `info`: reads the uevent file at `path` and folds its lines into the
     * record. `None` where the source panics: the file cannot be read.
     */
    method Info(store: FileStore) returns (r: Option<PowerSupply>)
      ensures path !in store.files ==> r.None?
      ensures path in store.files ==> r == Some(Described(Entries(Lines(store.files[path]))))
    {
      var contents := store.Read(path);
      if contents.None? {
        return None;
      }
      var lines := Lines(contents.value);
      ghost var entries := Entries(lines);
      var ps := DEFAULT_SUPPLY;
      assert entries[..0] == [];
      DescribedEmpty();
      for i := 0 to |lines|
        invariant ps == Described(entries[..i])
      {
        var entry := SplitLine(lines[i]);
        assert entries[i] == entry;
        TakeOneMore(entries, i);
        ps := Assign(ps, entry.0, entry.1, entries[..i]);
      }
      assert entries[..|lines|] == entries;
      r := Some(ps);
    }

    /** `set_device`: an empty path is refused and the old one kept. */
    method SetDevice(device: string) returns (r: Result<(), PowerSupplyErrorCode>)
      modifies this
      ensures device == [] ==> r == Err(FailedToOpenFile) && path == old(path)
      ensures device != [] ==> r == Ok(()) && path == device
      ensures currentNowPath == old(currentNowPath)
    {
      if device == [] {
        return Err(FailedToOpenFile);
      }
      path := device;
      r := Ok(());
    }

    /** `get_device`: fails exactly when no path has been set. */
    method GetDevice() returns (r: Result<string, PowerSupplyErrorCode>)
      ensures r.Err? <==> path == []
      ensures r.Err? ==> r.error == FailedToOpenFile
      ensures r.Ok? ==> r.value == path
    {
      if path == [] {
        return Err(FailedToOpenFile);
      }
      r := Ok(path);
    }

    /** `get_current`: the trimmed content of the current file as an `i64`. */
    method GetCurrent(store: FileStore) returns (r: Result<int, BatteryError>)
      ensures currentNowPath !in store.files ==> r == Err(IoError)
      ensures currentNowPath in store.files ==>
                r == match ParseInteger(Trim(store.files[currentNowPath]), I64_MIN, I64_MAX)
                     case Some(v) => Ok(v)
                     case None => Err(PowerSupplyError(InvalidDataFormat))
      ensures r.Ok? ==> I64_MIN <= r.value <= I64_MAX
    {
      var contents := store.Read(currentNowPath);
      if contents.None? {
        return Err(IoError);
      }
      var parsed := ParseInteger(Trim(contents.value), I64_MIN, I64_MAX);
      match parsed {
        case Some(v) => r := Ok(v);
        case None => r := Err(PowerSupplyError(InvalidDataFormat));
      }
    }
  }

  /** Whatever `i64` the current file holds in decimal, `get_current` returns it. */
  lemma CurrentRoundTrip(v: int)
    requires I64_MIN <= v <= I64_MAX
    ensures ParseInteger(Trim(ShowInt(v)), I64_MIN, I64_MAX) == Some(v)
  {
    var s := ShowInt(v);
    if v < 0 {
      assert !IsWhitespace(s[0]) && s[1..] == ShowNat(-v);
      assert forall k :: 1 <= k < |s| ==> IsDigit(s[k]) by {
        forall k | 1 <= k < |s| ensures IsDigit(s[k]) { assert s[k] == s[1..][k - 1]; }
      }
    } else {
      assert AllDigits(s);
    }
    assert forall k :: 0 <= k < |s| ==> !IsWhitespace(s[k]);
    TrimNoWhitespace(s);
    ParseShowInt(v, I64_MIN, I64_MAX);
  }
}
