/** The display backlight controller: one sysfs brightness file. */
module Display {
  import opened Common
  import opened Text
  import opened Numbers
  import opened Files

  /** The largest brightness `set_display_brightness` accepts. */
  const MAX_BRIGHTNESS: int := 244

  datatype DisplayErrorCode = InvalidBrightnessValueError | InvalidBrightnessPathError

  /** The first line `BufRead::lines` yields, if the text has any. */
  function FirstLine(content: string): (r: Option<string>)
    ensures r.None? <==> content == []
    ensures r.Some? ==> '\n' !in r.value
    ensures r.Some? ==> r.value == match IndexOf(content, '\n')
                                   case Some(j) => StripCr(content[..j])
                                   case None => content
  {
    var lines := Lines(content);
    if lines == [] then None else Some(lines[0])
  }

  /**
   * What `get_display_brightness` makes of the file's content: the first
   * line, trimmed, parsed as a `u8`. Every way this can fail is an
   * `InvalidBrightnessValueError`.
   */
  function DecodeBrightness(content: string): (r: Result<u8, DisplayErrorCode>)
    ensures content == [] ==> r == Err(InvalidBrightnessValueError)
    ensures r.Err? ==> r.error == InvalidBrightnessValueError
    ensures r.Ok? ==> exists k :: 0 <= k < |content| && IsDigit(content[k])
    // the trimmed first line in decimal: its value when it fits a u8, an error otherwise
    ensures content != [] && ReadText(content) != [] && AllDigits(ReadText(content)) ==>
              (r.Ok? <==> DigitsValue(ReadText(content)) <= U8_MAX) &&
              (r.Ok? ==> r.value == DigitsValue(ReadText(content)))
    // a `+` before the digits is allowed; a `+` alone is an error
    ensures content != [] && |ReadText(content)| > 1 && ReadText(content)[0] == '+' && AllDigits(ReadText(content)[1..]) ==>
              (r.Ok? <==> DigitsValue(ReadText(content)[1..]) <= U8_MAX) &&
              (r.Ok? ==> r.value == DigitsValue(ReadText(content)[1..]))
    ensures content != [] && ReadText(content) == "+" ==> r.Err?
    // a first line that is not a decimal number is an error
    ensures content != [] && (exists k :: 0 < k < |ReadText(content)| && !IsDigit(ReadText(content)[k])) ==> r.Err?
    ensures content != [] && ReadText(content) == [] ==> r.Err?
    ensures (content != [] && ReadText(content) != [] &&
             !IsDigit(ReadText(content)[0]) && ReadText(content)[0] != '+') ==> r.Err?
  {
    match FirstLine(content)
    case None => Err(InvalidBrightnessValueError)
    case Some(line) =>
      match ParseInteger(Trim(line), 0, U8_MAX)
      case None => Err(InvalidBrightnessValueError)
      case Some(v) =>
        assert exists k :: 0 <= k < |content| && IsDigit(content[k]) by {
          FirstLineDigit(content, Trim(line), line);
        }
        Ok(v)
  }

  /** The first line with the whitespace at both ends cut off: the text parsed as a `u8`. */
  function ReadText(content: string): string
    requires content != []
  {
    Trim(FirstLine(content).value)
  }

  /** A digit of the trimmed first line is a digit of the content. */
  lemma FirstLineDigit(content: string, t: string, line: string)
    requires FirstLine(content) == Some(line) && t == Trim(line)
    requires exists k :: 0 <= k < |t| && IsDigit(t[k])
    ensures exists k :: 0 <= k < |content| && IsDigit(content[k])
  {
    var k :| 0 <= k < |t| && IsDigit(t[k]);
    var i: nat :| OccursAt(line, t, i);
    assert line[i + k] == t[k];
    match IndexOf(content, '\n')
    case None =>
      assert content[i + k] == line[i + k];
    case Some(j) =>
      assert line == StripCr(content[..j]);
      assert content[i + k] == line[i + k];
  }

  /** The decimal text (`{}`) written for a brightness value. */
  function BrightnessText(b: u8): string
  {
    ShowNat(b)
  }

  /** Reading back what was written gives the same value, for every `u8`. */
  lemma BrightnessRoundTrip(b: u8)
    ensures DecodeBrightness(BrightnessText(b)) == Ok(b)
  {
    var s := ShowNat(b);
    assert forall k :: 0 <= k < |s| ==> IsDigit(s[k]) && s[k] != '\n';
    LinesOfSingleLine(s);
    DigitsTrim(s);
    ParseShowInt(b, 0, U8_MAX);
  }

  /**
   * Reading applies no upper limit of its own: a stored 245..255, which
   * `set_display_brightness` never writes, is still returned.
   */
  lemma NoLimitOnRead(b: u8)
    requires b > MAX_BRIGHTNESS
    ensures DecodeBrightness(BrightnessText(b)).Ok?
  {
    BrightnessRoundTrip(b);
  }

  class DisplayCtrl {
    const path: string

    constructor (path: string)
      ensures this.path == path
    {
      this.path := path;
    }

    /**
     * `set_display_brightness`: a value above 244 is refused before the file
     * is touched; otherwise its decimal text replaces the file's content.
     */
    method SetDisplayBrightness(store: FileStore, brightness: u8, fault: Fault) returns (r: Result<(), DisplayErrorCode>)
      modifies store
      ensures brightness > MAX_BRIGHTNESS ==> r == Err(InvalidBrightnessValueError) && store.files == old(store.files)
      ensures brightness <= MAX_BRIGHTNESS ==>
                && store.files == AfterWrite(old(store.files), path, BrightnessText(brightness), fault)
                && r == match fault
                        case NoFault => Ok(())
                        case CreateFails => Err(InvalidBrightnessPathError)
                        case WriteFails => Err(InvalidBrightnessValueError)
    {
      if brightness > MAX_BRIGHTNESS {
        return Err(InvalidBrightnessValueError);
      }
      var written := store.Overwrite(path, BrightnessText(brightness), fault);
      match written {
        case Ok(_) => r := Ok(());
        case Err(CreateError) => r := Err(InvalidBrightnessPathError);
        case Err(WriteError) => r := Err(InvalidBrightnessValueError);
      }
    }

    /** `get_display_brightness`: a file that cannot be opened is a path error. */
    method GetDisplayBrightness(store: FileStore) returns (r: Result<u8, DisplayErrorCode>)
      ensures path !in store.files ==> r == Err(InvalidBrightnessPathError)
      ensures path in store.files ==> r == DecodeBrightness(store.files[path])
    {
      var content := store.Read(path);
      match content {
        case None => r := Err(InvalidBrightnessPathError);
        case Some(c) => r := DecodeBrightness(c);
      }
    }
  }

  /** After an accepted brightness is written, reading the file gives it back. */
  lemma {:induction false} SetThenGet(files: map<string, string>, path: string, b: u8)
    requires b <= MAX_BRIGHTNESS
    ensures var after := AfterWrite(files, path, BrightnessText(b), NoFault);
            path in after && DecodeBrightness(after[path]) == Ok(b)
  {
    BrightnessRoundTrip(b);
  }
}
