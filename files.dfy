/**
  The part of the file system the generators touch: files with their text
  content and the set of existing directories. `Disk` is its value; the class
  `FileSystem` is the mutable store behind `existsSync` and `writeFile`.
 */
module Files {
  import opened Strings

  /** The directory part of a path: everything before its last `/` ("" if it has none). */
  function ParentDir(path: string): (dir: string)
    ensures |dir| <= |path| && dir == path[..|dir|]
    ensures '/' in path ==> |dir| < |path| && path[|dir|] == '/'
    ensures '/' in path ==> forall j :: |dir| < j < |path| ==> path[j] != '/'
    ensures '/' !in path ==> dir == ""
  {
    var i := LastIndexOf(path, '/');
    if i < 0 then "" else path[..i]
  }

  datatype Disk = Disk(files: map<string, string>, dirs: set<string>) {

    /** No path is both a file and a directory. */
    predicate WellFormed() {
      files.Keys !! dirs
    }

    /** `existsSync(path)`: true for a file and for a directory alike. */
    predicate Exists(path: string): (b: bool)
      ensures WellFormed() ==> (b <==> (path in files) != (path in dirs))
      ensures CanWrite(path) ==> (b <==> path in files)
    {
      path in files || path in dirs
    }

    /**
      `writeFile(path, content)` succeeds when the parent directory exists and
      `path` is not itself a directory; otherwise it rejects (ENOENT, ENOTDIR, EISDIR).
     */
    predicate CanWrite(path: string): (ok: bool)
      ensures ok ==> path !in dirs && ParentDir(path) != path
      ensures ok && WellFormed() ==> ParentDir(path) !in files
    {
      ParentDir(path) in dirs && path !in dirs
    }

    /** The disk after a successful `writeFile`: the file at `path` created or replaced. */
    function Write(path: string, content: string): (d: Disk)
      requires CanWrite(path)
      ensures d.files.Keys == files.Keys + {path} && d.files[path] == content
      ensures forall p :: p in files && p != path ==> p in d.files && d.files[p] == files[p]
      ensures d.dirs == dirs
      ensures WellFormed() ==> d.WellFormed()
    {
      Disk(files[path := content], dirs)
    }
  }

  class FileSystem {
    var files: map<string, string>
    var dirs: set<string>

    ghost predicate Valid()
      reads this
    {
      Snapshot().WellFormed()
    }

    /** The current contents of the store as a value. */
    function Snapshot(): Disk
      reads this
    {
      Disk(files, dirs)
    }

    constructor (initial: Disk)
      requires initial.WellFormed()
      ensures Valid() && Snapshot() == initial
    {
      files := initial.files;
      dirs := initial.dirs;
    }

    /** `existsSync(path)`. */
    method ExistsSync(path: string) returns (b: bool)
      ensures b == Snapshot().Exists(path)
    {
      b := Snapshot().Exists(path);
    }

    /** `writeFile(path, content, 'utf-8')`: `ok` is false when the write rejects. */
    method WriteFile(path: string, content: string) returns (ok: bool)
      requires Valid()
      modifies this
      ensures Valid()
      ensures ok == old(Snapshot()).CanWrite(path)
      ensures Snapshot() == if ok then old(Snapshot()).Write(path, content) else old(Snapshot())
    {
      ok := Snapshot().CanWrite(path);
      if ok {
        files := files[path := content];
      }
    }
  }
}
