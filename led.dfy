/** The RGB LED controller: one sysfs brightness file per colour. */
module Led {
  import opened Common
  import opened Files

  datatype LedColor = Red | Green | Blue

  datatype LedCtrlErrorCode = InvalidLedPathValueError

  class LedCtrl {
    const redLedPath: string
    const greenLedPath: string
    const blueLedPath: string

    constructor (redLedPath: string, greenLedPath: string, blueLedPath: string)
      ensures this.redLedPath == redLedPath
      ensures this.greenLedPath == greenLedPath
      ensures this.blueLedPath == blueLedPath
    {
      this.redLedPath := redLedPath;
      this.greenLedPath := greenLedPath;
      this.blueLedPath := blueLedPath;
    }

    /** The brightness file that drives `color`. */
    function PathOf(color: LedColor): string
    {
      match color
      case Red => redLedPath
      case Green => greenLedPath
      case Blue => blueLedPath
    }

    /** Turns `color` on: its brightness file is overwritten with "1". */
    method SetLed(store: FileStore, color: LedColor, fault: Fault) returns (r: Result<(), LedCtrlErrorCode>)
      modifies store
      ensures store.files == AfterWrite(old(store.files), PathOf(color), "1", fault)
      ensures r == if fault == NoFault then Ok(()) else Err(InvalidLedPathValueError)
    {
      var path := PathOf(color);
      var written := WriteBrightness(store, path, "1", fault);
      if written.Err? {
        return Err(InvalidLedPathValueError);
      }
      r := Ok(());
    }

    /** Turns `color` off: its brightness file is overwritten with "0". */
    method ClearLed(store: FileStore, color: LedColor, fault: Fault) returns (r: Result<(), LedCtrlErrorCode>)
      modifies store
      ensures store.files == AfterWrite(old(store.files), PathOf(color), "0", fault)
      ensures r == if fault == NoFault then Ok(()) else Err(InvalidLedPathValueError)
    {
      var path := PathOf(color);
      var written := WriteBrightness(store, path, "0", fault);
      if written.Err? {
        return Err(InvalidLedPathValueError);
      }
      r := Ok(());
    }

    /** Truncates the file at `path` and writes `value` into it. */
    method WriteBrightness(store: FileStore, path: string, value: string, fault: Fault) returns (r: Result<(), IoError>)
      modifies store
      ensures store.files == AfterWrite(old(store.files), path, value, fault)
      ensures r.Ok? <==> fault == NoFault
    {
      r := store.Overwrite(path, value, fault);
    }
  }

  /**
   * After a successful set or clear, the selected colour's file holds the
   * value written, and a file of any other path holds what it held before.
   */
  lemma OnlySelectedFileChanges(ctrl: LedCtrl, files: map<string, string>, color: LedColor, value: string, p: string)
    requires p in files
    ensures AfterWrite(files, ctrl.PathOf(color), value, NoFault)[ctrl.PathOf(color)] == value
    ensures p != ctrl.PathOf(color) ==> AfterWrite(files, ctrl.PathOf(color), value, NoFault)[p] == files[p]
  {
  }
}
