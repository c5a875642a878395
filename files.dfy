/**
 * The sysfs and device files the controllers touch, as a map from path to
 * content. `File::create` followed by a write is the only way they change.
 */
module Files {
  import opened Common

  /** Whether, and where, the environment makes `File::create` + write fail. */
  datatype Fault = NoFault | CreateFails | WriteFails

  datatype IoError = CreateError | WriteError

  /**
   * The files after `File::create(path)` and a write of `content`: a failed
   * create changes nothing; a create that succeeds truncates the file, so a
   * write that then fails leaves it empty.
   */
  function AfterWrite(files: map<string, string>, path: string, content: string, fault: Fault): (r: map<string, string>)
    ensures fault == CreateFails ==> r == files
    ensures fault != CreateFails ==> r.Keys == files.Keys + {path}
    ensures fault != CreateFails ==> r[path] == (if fault == NoFault then content else "")
    ensures forall p :: p != path && p in files ==> p in r && r[p] == files[p]
  {
    match fault
    case NoFault => files[path := content]
    case CreateFails => files
    case WriteFails => files[path := ""]
  }

  class FileStore {
    var files: map<string, string>

    constructor (files: map<string, string>)
      ensures this.files == files
    {
      this.files := files;
    }

    /** `fs::read_to_string(path)`: `None` when the file cannot be read. */
    function Read(path: string): Option<string>
      reads this
    {
      if path in files then Some(files[path]) else None
    }

    /** `File::create(path)?.write_all(content)`. */
    method Overwrite(path: string, content: string, fault: Fault) returns (r: Result<(), IoError>)
      modifies this
      ensures files == AfterWrite(old(files), path, content, fault)
      ensures r == match fault
                   case NoFault => Ok(())
                   case CreateFails => Err(CreateError)
                   case WriteFails => Err(WriteError)
    {
      match fault {
        case NoFault =>
          files := files[path := content];
          r := Ok(());
        case CreateFails =>
          r := Err(CreateError);
        case WriteFails =>
          files := files[path := ""];
          r := Err(WriteError);
      }
    }
  }
}
