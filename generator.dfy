/**
  The generator pipeline shared by `make:controller`, `make:repository` and
  `make:schema`: resolve the name, compute the output path, soft-stop if
  something already exists there, render the kind's template and write exactly
  one file, then report the path relative to the project root.

  `Run` is the pipeline as a function of the disk before the command; the
  method `Action` performs the same steps against a `FileSystem` object and is
  proved to agree with `Run`.
 */
module Generator {
  import opened Wrappers
  import opened Casing
  import opened Files
  import opened Artifacts
  import ControllerCommand
  import RepositoryCommand
  import SchemaCommand

  /** What the interactive `input` prompt produced: the typed text, or a cancellation. */
  datatype Prompt = Answered(text: string) | Cancelled

  /** One invocation: the optional `[name]` argument, the prompt's answer and, for repositories, `--model`. */
  datatype Request = Request(arg: Option<string>, prompt: Prompt, model: Option<string>)

  /**
    What the command runs against: the project root (`process.cwd()`), the
    packaged template resources by file name, and Handlebars, as a function from
    template source and context to text (`handlebars.compile(source)(context)`).
   */
  datatype Env = Env(root: string, templates: map<string, string>, render: (string, Context) -> string)

  /** Errors that end the command with status 1. */
  datatype Failure =
    | NameUnusable        // TypeError: `name[0]` of an empty name
    | TemplateUnreadable  // `readFile` of the template rejected
    | WriteFailed         // `writeFile` rejected

  datatype Outcome =
    | Created(path: string, reported: string)
    | AlreadyExists
    | PromptCancelled
    | Crashed(failure: Failure)

  /** Status 0 after a creation or the "already exists" soft-stop, 1 otherwise. */
  function ExitCode(o: Outcome): (code: nat)
    ensures code == 0 <==> o.Created? || o.AlreadyExists?
    ensures code <= 1
  {
    match o
    case Created(_, _) => 0
    case AlreadyExists => 0
    case PromptCancelled => 1
    case Crashed(_) => 1
  }

  /**
    `name ? name : await input(...)`: a truthy argument is used as is and the
    prompt is not shown; otherwise the prompt's text, which may be empty.
    `None` is the cancelled prompt (`process.exit(1)`).
   */
  function ResolveName(arg: Option<string>, prompt: Prompt): (name: Option<string>)
    ensures name.None? <==> !Truthy(arg) && prompt.Cancelled?
    ensures Truthy(arg) ==> name == Some(arg.value)
    ensures !Truthy(arg) && prompt.Answered? ==> name == Some(prompt.text)
  {
    if Truthy(arg) then arg
    else match prompt
      case Answered(text) => Some(text)
      case Cancelled => None
  }

  /** An explicit empty argument is falsy: it leads to the prompt exactly like an omitted one. */
  lemma EmptyArgumentPrompts(prompt: Prompt)
    ensures ResolveName(Some(""), prompt) == ResolveName(None, prompt)
  {
  }

  /** The template context of each kind; `None` when building it throws. */
  function BuildContext(k: Kind, name: string, model: Option<string>): (ctx: Option<Context>)
    ensures ctx.None? <==> k != ValidateSchema && name == ""
    ensures ctx.Some? ==> "name" in ctx.value
  {
    match k
    case Controller => ControllerCommand.PrepareContext(name)
    case Repository => RepositoryCommand.PrepareContext(name, model)
    case ValidateSchema => Some(SchemaCommand.PrepareContext(name))
  }

  /**
    `prepareContent`: read the kind's template, compile it, build the context and
    render. The template is read before the context is built, so a missing
    template is reported even for an empty name.
   */
  function PrepareContent(env: Env, k: Kind, name: string, model: Option<string>): (r: Result<string, Failure>)
    ensures r.Err? <==> TemplateFile(k) !in env.templates || (k != ValidateSchema && name == "")
    ensures r == Err(NameUnusable) <==> TemplateFile(k) in env.templates && k != ValidateSchema && name == ""
  {
    if TemplateFile(k) !in env.templates then Err(TemplateUnreadable)
    else
      var source := env.templates[TemplateFile(k)];
      match BuildContext(k, name, model)
      case None => Err(NameUnusable)
      case Some(ctx) => Ok(env.render(source, ctx))
  }

  /** The whole command as a function of the disk before it: the disk after it and the outcome. */
  function Run(d: Disk, env: Env, k: Kind, req: Request): (r: (Disk, Outcome))
    ensures r.0.dirs == d.dirs
    ensures forall p :: p in d.files ==> p in r.0.files && r.0.files[p] == d.files[p]
  {
    match ResolveName(req.arg, req.prompt)
    case None => (d, PromptCancelled)
    case Some(name) =>
      var path := OutputFile(env.root, k, name);
      if d.Exists(path) then (d, AlreadyExists)
      else match PrepareContent(env, k, name, req.model)
        case Err(e) => (d, Crashed(e))
        case Ok(content) =>
          if d.CanWrite(path) then (d.Write(path, content), Created(path, ReportedPath(env.root, path)))
          else (d, Crashed(WriteFailed))
  }

  // ---------------------------------------------------------------------------
  // The imperative command

  /** `checkFileExists(name)` without its exit: whether something is at the output path. */
  method CheckFileExists(fs: FileSystem, root: string, k: Kind, name: string) returns (found: bool)
    ensures found == fs.Snapshot().Exists(OutputFile(root, k, name))
  {
    var outputFile := OutputFile(root, k, name);
    found := fs.ExistsSync(outputFile);
  }

  /** `createFile(content, name)`: write the content at the output path and return that path. */
  method CreateFile(fs: FileSystem, root: string, k: Kind, name: string, content: string)
    returns (ok: bool, path: string)
    requires fs.Valid()
    modifies fs
    ensures fs.Valid()
    ensures path == OutputFile(root, k, name)
    ensures ok == old(fs.Snapshot()).CanWrite(path)
    ensures fs.Snapshot() == if ok then old(fs.Snapshot()).Write(path, content) else old(fs.Snapshot())
  {
    path := OutputFile(root, k, name);
    ok := fs.WriteFile(path, content);
  }

  /** `action`: the pipeline, step by step, with its early exits. */
  method Action(fs: FileSystem, env: Env, k: Kind, req: Request) returns (outcome: Outcome)
    requires fs.Valid()
    modifies fs
    ensures fs.Valid()
    ensures (fs.Snapshot(), outcome) == Run(old(fs.Snapshot()), env, k, req)
  {
    var name := ResolveName(req.arg, req.prompt);
    if name.None? {
      return PromptCancelled;
    }
    var found := CheckFileExists(fs, env.root, k, name.value);
    if found {
      return AlreadyExists;
    }
    var content := PrepareContent(env, k, name.value, req.model);
    if content.Err? {
      return Crashed(content.error);
    }
    var ok, path := CreateFile(fs, env.root, k, name.value, content.value);
    if !ok {
      return Crashed(WriteFailed);
    }
    outcome := Created(path, ReportedPath(env.root, path));
  }

  /** `make:controller [name]`. */
  method MakeController(fs: FileSystem, env: Env, arg: Option<string>, prompt: Prompt) returns (outcome: Outcome)
    requires fs.Valid()
    modifies fs
    ensures fs.Valid()
    ensures (fs.Snapshot(), outcome) == Run(old(fs.Snapshot()), env, Controller, Request(arg, prompt, None))
  {
    outcome := Action(fs, env, Controller, Request(arg, prompt, None));
  }

  /** `make:repository [name] [--model <model>]`. */
  method MakeRepository(fs: FileSystem, env: Env, arg: Option<string>, prompt: Prompt, model: Option<string>)
    returns (outcome: Outcome)
    requires fs.Valid()
    modifies fs
    ensures fs.Valid()
    ensures (fs.Snapshot(), outcome) == Run(old(fs.Snapshot()), env, Repository, Request(arg, prompt, model))
  {
    outcome := Action(fs, env, Repository, Request(arg, prompt, model));
  }

  /** `make:schema [name]`. */
  method MakeSchema(fs: FileSystem, env: Env, arg: Option<string>, prompt: Prompt) returns (outcome: Outcome)
    requires fs.Valid()
    modifies fs
    ensures fs.Valid()
    ensures (fs.Snapshot(), outcome) == Run(old(fs.Snapshot()), env, ValidateSchema, Request(arg, prompt, None))
  {
    outcome := Action(fs, env, ValidateSchema, Request(arg, prompt, None));
  }

  // ---------------------------------------------------------------------------
  // Properties of the pipeline

  /** A cancelled prompt ends the command with status 1 before any file operation. */
  lemma RunCancelled(d: Disk, env: Env, k: Kind, req: Request)
    requires !Truthy(req.arg) && req.prompt.Cancelled?
    ensures Run(d, env, k, req) == (d, PromptCancelled)
    ensures ExitCode(Run(d, env, k, req).1) == 1
  {
  }

  /** With a truthy argument the prompt plays no part. */
  lemma RunIgnoresPromptGivenArgument(d: Disk, env: Env, k: Kind, req: Request, prompt: Prompt)
    requires Truthy(req.arg)
    ensures Run(d, env, k, req) == Run(d, env, k, req.(prompt := prompt))
  {
  }

  /**
    Anything at the output path means a soft-stop with status 0 and an unchanged
    disk; the template is not even read and an empty name does not throw.
   */
  lemma RunExisting(d: Disk, env: Env, k: Kind, req: Request, name: string)
    requires ResolveName(req.arg, req.prompt) == Some(name)
    requires d.Exists(OutputFile(env.root, k, name))
    ensures Run(d, env, k, req) == (d, AlreadyExists)
    ensures ExitCode(Run(d, env, k, req).1) == 0
  {
  }

  /** A run that fails or soft-stops leaves the disk as it was. */
  lemma RunUnchangedUnlessCreated(d: Disk, env: Env, k: Kind, req: Request)
    requires !Run(d, env, k, req).1.Created?
    ensures Run(d, env, k, req).0 == d
  {
  }

  /** The only way a run creates: every check passed and the rendered content was written at the output path. */
  lemma RunCreatedSteps(d: Disk, env: Env, k: Kind, req: Request, name: string)
    requires ResolveName(req.arg, req.prompt) == Some(name)
    requires Run(d, env, k, req).1.Created?
    ensures var path := OutputFile(env.root, k, name);
      && !d.Exists(path)
      && PrepareContent(env, k, name, req.model).Ok?
      && d.CanWrite(path)
      && Run(d, env, k, req)
         == (d.Write(path, PrepareContent(env, k, name, req.model).value), Created(path, ReportedPath(env.root, path)))
  {
  }

  /**
    A run that creates adds exactly the output path, which held nothing before,
    with the rendered content; it changes no other file and no directory, and
    reports the path relative to the root.
   */
  lemma RunChangesOnlyOutputFile(d: Disk, env: Env, k: Kind, req: Request, name: string)
    requires ResolveName(req.arg, req.prompt) == Some(name)
    requires Run(d, env, k, req).1.Created?
    ensures var (d', o) := Run(d, env, k, req);
      && o.path == OutputFile(env.root, k, name)
      && !d.Exists(o.path)
      && d'.dirs == d.dirs
      && d'.files.Keys == d.files.Keys + {o.path}
      && d'.files[o.path] == PrepareContent(env, k, name, req.model).value
      && (forall p :: p in d.files ==> d'.files[p] == d.files[p])
      && o.reported == "./" + Directory(k) + "/" + FileName(k, name)
  {
    RunCreatedSteps(d, env, k, req, name);
    ReportedOutputFile(env.root, k, name);
  }

  /**
    Running a command again with the same name, or one that differs only in
    case, soft-stops and leaves the first run's file untouched.
   */
  lemma RunTwiceSoftStops(d: Disk, env: Env, k: Kind, first: Request, second: Request, n1: string, n2: string)
    requires ResolveName(first.arg, first.prompt) == Some(n1)
    requires ResolveName(second.arg, second.prompt) == Some(n2)
    requires LowerStr(n1) == LowerStr(n2)
    requires Run(d, env, k, first).1.Created?
    ensures Run(Run(d, env, k, first).0, env, k, second) == (Run(d, env, k, first).0, AlreadyExists)
  {
    var d1 := Run(d, env, k, first).0;
    RunCreatedSteps(d, env, k, first, n1);
    OutputFileCaseInsensitive(env.root, k, n1, n2);
    assert d1.Exists(OutputFile(env.root, k, n2));
    RunExisting(d1, env, k, second, n2);
  }

  /**
    The command creates its file whenever it can: the name is resolved, nothing
    is at the output path, the template is packaged, the context can be built
    and the kind's directory exists (for a name without `/`).
   */
  lemma RunCreatesWhenReady(d: Disk, env: Env, k: Kind, req: Request, name: string)
    requires ResolveName(req.arg, req.prompt) == Some(name)
    requires '/' !in name
    requires !d.Exists(OutputFile(env.root, k, name))
    requires TemplateFile(k) in env.templates
    requires k == ValidateSchema || name != ""
    requires env.root + "/" + Directory(k) in d.dirs
    ensures Run(d, env, k, req).1 == Created(OutputFile(env.root, k, name), ReportedPath(env.root, OutputFile(env.root, k, name)))
  {
    ParentOfOutputFile(env.root, k, name);
  }

  /**
    An empty name reaches `name[0]` for controllers and repositories: once the
    existence check has passed and the template is read, the command fails with
    status 1 and writes nothing.
   */
  lemma RunEmptyNameThrows(d: Disk, env: Env, k: Kind, req: Request)
    requires ResolveName(req.arg, req.prompt) == Some("")
    requires k != ValidateSchema
    requires !d.Exists(OutputFile(env.root, k, ""))
    requires TemplateFile(k) in env.templates
    ensures Run(d, env, k, req) == (d, Crashed(NameUnusable))
    ensures ExitCode(Run(d, env, k, req).1) == 1
  {
  }

  /**
    A missing template crashes the run once nothing is at the output path, for every
    name: the template is read before the name is indexed, so even the empty name
    reports the unreadable template, and nothing is written.
   */
  lemma RunTemplateMissing(d: Disk, env: Env, k: Kind, req: Request, name: string)
    requires ResolveName(req.arg, req.prompt) == Some(name)
    requires !d.Exists(OutputFile(env.root, k, name))
    requires TemplateFile(k) !in env.templates
    ensures Run(d, env, k, req) == (d, Crashed(TemplateUnreadable))
    ensures ExitCode(Run(d, env, k, req).1) == 1
  {
  }

  /** A schema command accepts an empty name and writes `src/app/validateSchema/.schema.ts`. */
  lemma RunSchemaEmptyName(d: Disk, env: Env, req: Request)
    requires ResolveName(req.arg, req.prompt) == Some("")
    requires !d.Exists(OutputFile(env.root, ValidateSchema, ""))
    requires TemplateFile(ValidateSchema) in env.templates
    requires env.root + "/" + Directory(ValidateSchema) in d.dirs
    ensures Run(d, env, ValidateSchema, req).1.Created?
    ensures Run(d, env, ValidateSchema, req).1.path == PathOf(env.root, "src/app/validateSchema", ".schema.ts")
  {
    RunCreatesWhenReady(d, env, ValidateSchema, req, "");
    assert FileName(ValidateSchema, "") == ".schema.ts" by {
      assert LowerStr("") == "";
    }
  }

  /** No command makes a path both a file and a directory. */
  lemma RunPreservesWellFormed(d: Disk, env: Env, k: Kind, req: Request)
    requires d.WellFormed()
    ensures Run(d, env, k, req).0.WellFormed()
  {
  }

  /** A command of one kind never changes whether another kind's file exists. */
  lemma RunLeavesOtherKinds(d: Disk, env: Env, k: Kind, req: Request, other: Kind, name: string)
    requires other != k
    ensures Run(d, env, k, req).0.Exists(OutputFile(env.root, other, name))
        <==> d.Exists(OutputFile(env.root, other, name))
  {
    match ResolveName(req.arg, req.prompt)
    case None =>
    case Some(n) =>
      OutputFilesOfKindsDiffer(env.root, k, other, n, name);
  }

  /** `make:controller user` on a fresh project: one file, rendered with the class name `User`. */
  lemma ScenarioControllerUser(env: Env, prompt: Prompt)
    requires TemplateFile(Controller) in env.templates
    ensures var d := Disk(map[], {env.root + "/" + "src/app/controllers"});
      var (d', o) := Run(d, env, Controller, Request(Some("user"), prompt, None));
      && o.Created?
      && o.path == PathOf(env.root, "src/app/controllers", "user" + ".controller.ts")
      && o.reported == "./" + "src/app/controllers" + "/" + ("user" + ".controller.ts")
      && d'.files.Keys == {o.path}
      && d'.files[o.path] == env.render(env.templates["templates/controller.hbs"], map["name" := "User"])
  {
    var d := Disk(map[], {env.root + "/" + "src/app/controllers"});
    var req := Request(Some("user"), prompt, None);
    var path := OutputFile(env.root, Controller, "user");
    assert path == PathOf(env.root, "src/app/controllers", "user" + ".controller.ts") by {
      assert LowerStr("user") == "user";
    }
    assert !d.Exists(path) by {
      assert |path| > |env.root + "/" + "src/app/controllers"|;
    }
    RunCreatesWhenReady(d, env, Controller, req, "user");
    RunChangesOnlyOutputFile(d, env, Controller, req, "user");
    var r := Run(d, env, Controller, req);
    assert r.1.path == path;
    assert r.0.files.Keys == {path};
    assert r.0.files[path] == env.render(env.templates["templates/controller.hbs"], map["name" := "User"]) by {
      ControllerCommand.PrepareContextUser();
    }
  }

  /**
    `make:repository order --model product`: the file is named after the
    repository, the model placeholders come from `--model`.
   */
  lemma ScenarioRepositoryOrderProduct(d: Disk, env: Env, prompt: Prompt)
    requires TemplateFile(Repository) in env.templates
    requires !d.Exists(PathOf(env.root, "src/app/repositories", "order" + ".repository.ts"))
    requires env.root + "/" + "src/app/repositories" in d.dirs
    ensures var (d', o) := Run(d, env, Repository, Request(Some("order"), prompt, Some("product")));
      && o.Created?
      && o.path == PathOf(env.root, "src/app/repositories", "order" + ".repository.ts")
      && o.path in d'.files
      && d'.files[o.path] == env.render(env.templates["templates/repository.hbs"],
           map["name" := "Order", "model" := "product", "capitalizedModel" := "Product"])
  {
    var req := Request(Some("order"), prompt, Some("product"));
    assert LowerStr("order") == "order";
    RunCreatesWhenReady(d, env, Repository, req, "order");
    RunChangesOnlyOutputFile(d, env, Repository, req, "order");
    RepositoryCommand.PrepareContextOrderProduct();
  }

  /** `make:schema user` twice on a fresh project: the second run soft-stops and the file stays as written. */
  lemma ScenarioSchemaUserTwice(env: Env, prompt: Prompt)
    requires TemplateFile(ValidateSchema) in env.templates
    ensures var d := Disk(map[], {env.root + "/" + "src/app/validateSchema"});
      var req := Request(Some("user"), prompt, None);
      var (d1, o1) := Run(d, env, ValidateSchema, req);
      && o1.Created?
      && Run(d1, env, ValidateSchema, req) == (d1, AlreadyExists)
      && ExitCode(Run(d1, env, ValidateSchema, req).1) == 0
  {
    var d := Disk(map[], {env.root + "/" + "src/app/validateSchema"});
    var req := Request(Some("user"), prompt, None);
    assert |OutputFile(env.root, ValidateSchema, "user")| > |env.root + "/" + "src/app/validateSchema"|;
    RunCreatesWhenReady(d, env, ValidateSchema, req, "user");
    RunTwiceSoftStops(d, env, ValidateSchema, req, req, "user", "user");
  }
}
