/**
  The three artifact kinds and where each is written: a fixed directory under
  the project root, a file named after the lower-cased name, and a fixed suffix.
  The project root stands for `process.cwd()`; `path.resolve` becomes plain
  concatenation with `/`.
 */
module Artifacts {
  import opened Casing
  import opened Strings
  import opened Files
  import opened Wrappers

  datatype Kind = Controller | Repository | ValidateSchema

  /** The data a template is rendered with: placeholder name to text. */
  type Context = map<string, string>

  /**
    JavaScript truthiness of an optional string argument: present and non-empty.
    (`name ? name : ...`, `options.model || name`.)
   */
  predicate Truthy(arg: Option<string>): (t: bool)
    ensures t <==> arg != None && arg != Some("")
  {
    arg.Some? && arg.value != ""
  }

  /** The directory each kind is written to, relative to the project root. */
  function Directory(k: Kind): string {
    match k
    case Controller => "src/app/controllers"
    case Repository => "src/app/repositories"
    case ValidateSchema => "src/app/validateSchema"
  }

  /** The file-name suffix of each kind. */
  function Suffix(k: Kind): string {
    match k
    case Controller => ".controller.ts"
    case Repository => ".repository.ts"
    case ValidateSchema => ".schema.ts"
  }

  /** The template resource each kind is rendered from. */
  function TemplateFile(k: Kind): (r: string)
    ensures |r| > 14 && r[..10] == "templates/" && r[|r| - 4..] == ".hbs"
  {
    match k
    case Controller => "templates/controller.hbs"
    case Repository => "templates/repository.hbs"
    case ValidateSchema => "templates/validateSchema.hbs"
  }

  /** The three kinds read three different template resources. */
  lemma TemplateFilesDiffer(k1: Kind, k2: Kind)
    ensures TemplateFile(k1) == TemplateFile(k2) <==> k1 == k2
  {
  }

  /** `resolve(root, dir, file)` for a relative directory and a plain file name. */
  function PathOf(root: string, dir: string, file: string): string {
    root + "/" + dir + "/" + file
  }

  /** The file name of an artifact: the lower-cased name followed by the kind's suffix. */
  function FileName(k: Kind, name: string): string {
    LowerStr(name) + Suffix(k)
  }

  /** `getOutputFile(name)`: `resolve(cwd, '<directory>/', name.toLowerCase() + '<suffix>')`. */
  function OutputFile(root: string, k: Kind, name: string): (r: string)
    ensures |r| == |root| + |Directory(k)| + |name| + |Suffix(k)| + 2
    ensures r[..|root|] == root
    ensures r[|root| + |Directory(k)| + 2..] == LowerStr(name) + Suffix(k)
  {
    PathOf(root, Directory(k), FileName(k, name))
  }

  /** `path.replace(process.cwd(), '.')`: the path shown to the user. */
  function ReportedPath(root: string, path: string): (r: string)
    ensures |root| <= |path| && path[..|root|] == root ==> r == "." + path[|root|..]
    ensures (forall j :: 0 <= j <= |path| ==> !OccursAt(path, root, j)) ==> r == path
  {
    ReplaceFirst(path, root, ".")
  }

  /** Within one directory, paths are equal exactly when the file names are. */
  lemma PathOfInjective(root: string, dir: string, f1: string, f2: string)
    ensures PathOf(root, dir, f1) == PathOf(root, dir, f2) <==> f1 == f2
  {
    var pre := root + "/" + dir + "/";
    assert PathOf(root, dir, f1) == pre + f1;
    assert PathOf(root, dir, f2) == pre + f2;
    if pre + f1 == pre + f2 {
      assert f1 == (pre + f1)[|pre|..];
      assert f2 == (pre + f2)[|pre|..];
    }
  }

  /** Strings with a common suffix are equal exactly when what precedes it is. */
  lemma CommonSuffix(a: string, b: string, sfx: string)
    ensures a + sfx == b + sfx <==> a == b
  {
    if a + sfx == b + sfx {
      assert a == (a + sfx)[..|a|];
      assert b == (b + sfx)[..|b|];
    }
  }

  /** The output path depends on the name only through its lower-case form, in both directions. */
  lemma OutputFileCaseInsensitive(root: string, k: Kind, a: string, b: string)
    ensures OutputFile(root, k, a) == OutputFile(root, k, b) <==> LowerStr(a) == LowerStr(b)
  {
    PathOfInjective(root, Directory(k), FileName(k, a), FileName(k, b));
    CommonSuffix(LowerStr(a), LowerStr(b), Suffix(k));
  }

  /** The character of a path at a position inside its directory part. */
  lemma PathOfAt(root: string, dir: string, file: string, i: nat)
    requires i < |dir|
    ensures |root| + 1 + i < |PathOf(root, dir, file)|
    ensures PathOf(root, dir, file)[|root| + 1 + i] == dir[i]
  {
    assert PathOf(root, dir, file) == (root + "/") + dir + ("/" + file);
  }

  /** The directories of two kinds part at their ninth character: `c`, `r` or `v` after `src/app/`. */
  lemma DirectoriesDiffer(k1: Kind, k2: Kind)
    requires k1 != k2
    ensures |Directory(k1)| > 8 && |Directory(k2)| > 8
    ensures Directory(k1)[8] != Directory(k2)[8]
  {
  }

  /** Two kinds never share an output path, whatever the two names are. */
  lemma OutputFilesOfKindsDiffer(root: string, k1: Kind, k2: Kind, a: string, b: string)
    requires k1 != k2
    ensures OutputFile(root, k1, a) != OutputFile(root, k2, b)
  {
    DirectoriesDiffer(k1, k2);
    PathOfAt(root, Directory(k1), FileName(k1, a), 8);
    PathOfAt(root, Directory(k2), FileName(k2, b), 8);
  }

  /** A path under the root is reported with the root replaced by `.`. */
  lemma ReportedPathOf(root: string, dir: string, file: string)
    ensures ReportedPath(root, PathOf(root, dir, file)) == "./" + dir + "/" + file
  {
    var rest := "/" + dir + "/" + file;
    assert PathOf(root, dir, file) == root + rest;
    ReplaceFirstOfPrefix(root, rest, ".");
    assert "." + rest == "./" + dir + "/" + file;
  }

  /** The reported path is the output path with the project root replaced by `.`. */
  lemma ReportedOutputFile(root: string, k: Kind, name: string)
    ensures ReportedPath(root, OutputFile(root, k, name)) == "./" + Directory(k) + "/" + FileName(k, name)
  {
    ReportedPathOf(root, Directory(k), FileName(k, name));
  }

  /** The directory of a path built from a file name without `/` is the directory it was built from. */
  lemma ParentOfPathOf(root: string, dir: string, file: string)
    requires '/' !in file
    ensures ParentDir(PathOf(root, dir, file)) == root + "/" + dir
  {
    var d := root + "/" + dir;
    assert PathOf(root, dir, file) == (d + "/") + file;
    LastIndexOfAfter(d + "/", file, '/');
    assert ((d + "/") + file)[..|d|] == d;
  }

  /** Lower-casing never produces a `/`, so a name without one keeps none. */
  lemma NoSlashInLowerStr(name: string)
    requires '/' !in name
    ensures '/' !in LowerStr(name)
  {
    var l := LowerStr(name);
    forall j | 0 <= j < |l|
      ensures l[j] != '/'
    {
      assert name[j] != '/';
    }
  }

  lemma NoSlashInSuffix(k: Kind)
    ensures '/' !in Suffix(k)
  {
  }

  /** The file name of an artifact holds no `/` when the name holds none. */
  lemma NoSlashInFileName(k: Kind, name: string)
    requires '/' !in name
    ensures '/' !in FileName(k, name)
  {
    NoSlashInLowerStr(name);
    NoSlashInSuffix(k);
  }

  /** A name without `/` lands directly in the kind's directory. */
  lemma ParentOfOutputFile(root: string, k: Kind, name: string)
    requires '/' !in name
    ensures ParentDir(OutputFile(root, k, name)) == root + "/" + Directory(k)
  {
    NoSlashInFileName(k, name);
    ParentOfPathOf(root, Directory(k), FileName(k, name));
  }
}
