/**
 * The file system as the conversion engines see it
 * (src/infrastructure/adapters/file-system.adapter.ts): UTF-8 text files read,
 * written and deleted by path, and directories created. A path in `denied` cannot
 * be touched at all and one in `readOnly` can be read but not written, deleted or
 * made a directory (EACCES); a missing file cannot be read or deleted (ENOENT). The class
 * keeps a log of every call made on it, so that the order of the calls can be
 * stated.
 */
module FileSystemAdapter {
  import opened Wrappers
  import Text

  datatype ErrorCode = ENOENT | EACCES

  /** A Node.js system error: its code, the failing system call and the path. */
  datatype IoError = IoError(code: ErrorCode, syscall: string, path: string)

  /**
   * The message Node.js gives such an error: the code first, then a description,
   * and last the system call and the quoted path.
   */
  function Message(e: IoError): (m: string)
    ensures Text.StartsWith(m, if e.code == ENOENT then "ENOENT: " else "EACCES: ")
    ensures Text.EndsWith(m, e.syscall + " '" + e.path + "'")
  {
    var code := if e.code == ENOENT then "ENOENT: " else "EACCES: ";
    var description := if e.code == ENOENT then "no such file or directory, " else "permission denied, ";
    var origin := e.syscall + " '" + e.path + "'";
    Text.PrefixOfConcat(code, description);
    Text.PrefixOfLonger(code + description, origin, code);
    Text.SuffixOfConcat(code + description, origin);
    code + description + origin
  }

  /** One call made on the file system, whether or not it succeeded. */
  datatype Op = ReadCall(path: string) | WriteCall(path: string, content: string) | UnlinkCall(path: string) | MkdirCall(path: string)

  /**
   * The state of the file system: file contents by path, the directories, the paths
   * that cannot be touched and the paths that can only be read.
   */
  datatype Disk = Disk(files: map<string, string>, dirs: set<string>, denied: set<string>, readOnly: set<string>)

  /** The paths that cannot be written, deleted or created. */
  predicate Locked(d: Disk, path: string)
  {
    path in d.denied || path in d.readOnly
  }

  /** What a call that changes the file system leaves behind. */
  datatype Effect = Effect(disk: Disk, outcome: Outcome<IoError>)

  /** `readFile(path, "utf-8")` */
  function ReadFile(d: Disk, path: string): (r: Result<string, IoError>)
    ensures r.Ok? <==> path !in d.denied && path in d.files
    ensures r.Ok? ==> r.value == d.files[path]
    ensures r.Err? ==> r.error.path == path && (r.error.code == ENOENT <==> path !in d.denied)
  {
    if path in d.denied then Err(IoError(EACCES, "open", path))
    else if path in d.files then Ok(d.files[path])
    else Err(IoError(ENOENT, "open", path))
  }

  /** readTextFileIfExists: a missing file reads as absent, every other error is rethrown. */
  function ReadFileIfExists(d: Disk, path: string): (r: Result<Option<string>, IoError>)
    ensures r == Ok(None) <==> ReadFile(d, path).Err? && ReadFile(d, path).error.code == ENOENT
    ensures r.Ok? && r.value.Some? <==> ReadFile(d, path).Ok?
    ensures r.Ok? && r.value.Some? ==> r.value.value == ReadFile(d, path).value
    ensures r.Err? ==> r == Err(ReadFile(d, path).error) && r.error.code != ENOENT
  {
    match ReadFile(d, path)
    case Ok(content) => Ok(Some(content))
    case Err(e) => if e.code == ENOENT then Ok(None) else Err(e)
  }

  /** `writeFile(path, content, "utf-8")`: creates or replaces the file. */
  function WriteFile(d: Disk, path: string, content: string): (r: Effect)
    ensures r.outcome.Pass? <==> !Locked(d, path)
    ensures r.outcome.Pass? ==> r.disk == d.(files := d.files[path := content])
    ensures r.outcome.Fail? ==> r.disk == d && r.outcome.error.code == EACCES
  {
    if Locked(d, path) then Effect(d, Fail(IoError(EACCES, "open", path)))
    else Effect(d.(files := d.files[path := content]), Pass)
  }

  /** `unlink(path)` */
  function Unlink(d: Disk, path: string): (r: Effect)
    ensures r.outcome.Pass? <==> !Locked(d, path) && path in d.files
    ensures r.outcome.Pass? ==> r.disk == d.(files := d.files - {path})
    ensures r.outcome.Fail? ==> r.disk == d
  {
    if Locked(d, path) then Effect(d, Fail(IoError(EACCES, "unlink", path)))
    else if path in d.files then Effect(d.(files := d.files - {path}), Pass)
    else Effect(d, Fail(IoError(ENOENT, "unlink", path)))
  }

  /** `mkdir(path, { recursive: true })`: an existing directory is no error. */
  function Mkdir(d: Disk, path: string): (r: Effect)
    ensures r.outcome.Pass? <==> !Locked(d, path)
    ensures r.outcome.Pass? ==> r.disk == d.(dirs := d.dirs + {path}) && path in r.disk.dirs
    ensures r.outcome.Fail? ==> r.disk == d
  {
    if Locked(d, path) then Effect(d, Fail(IoError(EACCES, "mkdir", path)))
    else Effect(d.(dirs := d.dirs + {path}), Pass)
  }

  /** A failed read that is not "missing" is still failed when read through readTextFileIfExists. */
  lemma IfExistsOnlyHidesMissing(d: Disk, path: string)
    ensures ReadFile(d, path).Ok? ==> ReadFileIfExists(d, path) == Ok(Some(d.files[path]))
    ensures path in d.denied ==> ReadFileIfExists(d, path).Err?
    ensures path !in d.denied && path !in d.files ==> ReadFileIfExists(d, path) == Ok(None)
  {
  }

  /** Reading a file just written gives back what was written. */
  lemma ReadAfterWrite(d: Disk, path: string, content: string)
    requires WriteFile(d, path, content).outcome.Pass?
    ensures ReadFile(WriteFile(d, path, content).disk, path) == Ok(content)
  {
  }

  /** The file system the adapter functions act on, with the log of the calls made. */
  class FileSystem {
    var files: map<string, string>
    var dirs: set<string>
    const denied: set<string>
    const readOnly: set<string>
    var log: seq<Op>

    function State(): Disk
      reads this
    {
      Disk(files, dirs, denied, readOnly)
    }

    constructor (initial: Disk)
      ensures State() == initial && log == []
    {
      files := initial.files;
      dirs := initial.dirs;
      denied := initial.denied;
      readOnly := initial.readOnly;
      log := [];
    }

    /** readTextFile */
    method ReadTextFile(path: string) returns (r: Result<string, IoError>)
      modifies this
      ensures r == ReadFile(old(State()), path)
      ensures State() == old(State()) && log == old(log) + [ReadCall(path)]
    {
      log := log + [ReadCall(path)];
      if path in denied {
        r := Err(IoError(EACCES, "open", path));
      } else if path in files {
        r := Ok(files[path]);
      } else {
        r := Err(IoError(ENOENT, "open", path));
      }
    }

    /** readTextFileIfExists */
    method ReadTextFileIfExists(path: string) returns (r: Result<Option<string>, IoError>)
      modifies this
      ensures r == ReadFileIfExists(old(State()), path)
      ensures State() == old(State()) && log == old(log) + [ReadCall(path)]
    {
      var attempt := ReadTextFile(path);
      match attempt
      case Ok(content) =>
        r := Ok(Some(content));
      case Err(e) =>
        if e.code == ENOENT {
          r := Ok(None);
        } else {
          r := Err(e);
        }
    }

    /** writeTextFile */
    method WriteTextFile(path: string, content: string) returns (o: Outcome<IoError>)
      modifies this
      ensures Effect(State(), o) == WriteFile(old(State()), path, content)
      ensures log == old(log) + [WriteCall(path, content)]
    {
      log := log + [WriteCall(path, content)];
      if path in denied || path in readOnly {
        o := Fail(IoError(EACCES, "open", path));
      } else {
        files := files[path := content];
        o := Pass;
      }
    }

    /** deleteFile */
    method DeleteFile(path: string) returns (o: Outcome<IoError>)
      modifies this
      ensures Effect(State(), o) == Unlink(old(State()), path)
      ensures log == old(log) + [UnlinkCall(path)]
    {
      log := log + [UnlinkCall(path)];
      if path in denied || path in readOnly {
        o := Fail(IoError(EACCES, "unlink", path));
      } else if path in files {
        files := files - {path};
        o := Pass;
      } else {
        o := Fail(IoError(ENOENT, "unlink", path));
      }
    }

    /** createDirectory */
    method CreateDirectory(path: string) returns (o: Outcome<IoError>)
      modifies this
      ensures Effect(State(), o) == Mkdir(old(State()), path)
      ensures log == old(log) + [MkdirCall(path)]
    {
      log := log + [MkdirCall(path)];
      if path in denied || path in readOnly {
        o := Fail(IoError(EACCES, "mkdir", path));
      } else {
        dirs := dirs + {path};
        o := Pass;
      }
    }
  }
}
