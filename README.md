# File generators of the `expressor` scaffolding tool

This project models the three file generators of the `expressor` command-line
tool: `make:controller`, `make:repository` and `make:schema`. Each takes a name,
from its `[name]` argument or, failing that, from an interactive prompt. It
computes a fixed output path from the lower-cased name and soft-stops with
status 0 when something already exists there. Otherwise it renders the kind's
Handlebars template with a context built from casing forms of the name, writes
exactly one file and reports the path relative to the working directory.

Modules:

- `Casing`: the name normaliser. It holds ASCII `Lower`/`Upper`, `LowerStr`
  (`toLowerCase`) and `Capitalized` (`capitalized`, and the same expression
  inline in the controller).
- `Strings`: `ReplaceFirst` is JavaScript's `String.prototype.replace` with a
  string pattern and a replacement without `$` patterns, which replaces the
  first occurrence only. `LastIndexOf`
  finds the last path separator.
- `Files`: the file system as a value (`Disk`: files with their content and
  the set of directories). The class `FileSystem` holds that state and offers
  `ExistsSync` and `WriteFile`, which reassign its fields.
- `Artifacts`: the three kinds, their directories, suffixes and template
  files, plus the output path (`getOutputFile`) and the reported path.
- `ControllerCommand`, `RepositoryCommand`, `SchemaCommand`: the per-file
  template contexts (`prepareContent`) and the concrete path layout of each
  command.
- `Generator`: name resolution (`getControllerName` and its two twins), the
  pipeline as a function `Run` from the disk before a command to the disk
  after it and the outcome, and the imperative `Action` (`checkFileExists`,
  `prepareContent`, `createFile`, `output`). `Action` is proved to agree with
  `Run`. `MakeController`, `MakeRepository` and `MakeSchema` are the three
  commands.

The working directory is an explicit `root` string. `path.resolve(cwd, dir, file)`
becomes `root + "/" + dir + "/" + file`. Handlebars is a parameter
`render: (template source, context) -> text` of the environment, so rendering is
deterministic by construction. The packaged templates are a map from resource
name to source. The prompt is an input value: typed text, or cancelled.

Behaviour of the code worth knowing:

- An empty name is not rejected before file I/O. The existence check runs first.
  If nothing exists, the controller and repository commands read their template
  and then throw a TypeError at `name[0]`; the async action's rejection ends
  the process with status 1, and nothing is written (`RunEmptyNameThrows`).
  The schema command never indexes the name: with an empty name it writes
  `src/app/validateSchema/.schema.ts` (`RunSchemaEmptyName`).
- An explicit empty argument is falsy, so it shows the prompt just as an omitted
  argument does (`EmptyArgumentPrompts`).
- The existence test is `existsSync`, which is true for a directory as well as a file.
- `writeFile` fails when the parent directory is missing or the path is a
  directory. The command then ends with status 1 (`Crashed(WriteFailed)`).

## Model

| member | source | states |
|---|---|---|
| `Casing.Lower` | src/commands/make/makeController.mjs:46 | lower-casing maps exactly the ASCII capitals to the matching small letter, 32 code points up, and leaves every other character alone; no capital remains |
| `Casing.Upper` | src/commands/make/makeController.mjs:56 | upper-casing maps exactly the ASCII small letters to the matching capital, 32 code points down, and leaves every other character alone |
| `Casing.LowerIdempotent` | src/commands/make/makeController.mjs:46 | lower-casing a character twice equals lower-casing it once |
| `Casing.LowerAfterUpper` | src/commands/make/makeController.mjs:56 | lower-casing undoes a preceding upper-casing |
| `Casing.LowerStr` | src/commands/make/makeController.mjs:46 | `toLowerCase` keeps the length and lower-cases each character in place |
| `Casing.LowerStrIdempotent` | src/commands/make/makeRepository.mjs:46 | lower-casing a name twice equals lower-casing it once |
| `Casing.LowerStrHasNoUpper` | src/commands/make/makeValidateSchema.mjs:46 | a lower-cased name holds no capital letter |
| `Casing.Capitalized` | src/commands/make/makeRepository.mjs:63 | for a non-empty string: same length, first character upper-cased, every later character unchanged |
| `Casing.LowerStrOfCapitalized` | src/commands/make/makeRepository.mjs:57-58 | capitalising does not change the lower-case form |
| `Casing.CapitalizedIdempotent` | src/commands/make/makeRepository.mjs:63 | capitalising twice equals capitalising once |
| `Strings.IndexOfFrom` | src/commands/make/makeController.mjs:18 | the search for the pattern returns the first occurrence at or after the start, or -1 exactly when there is none |
| `Strings.IndexOfPrefix` | src/commands/make/makeController.mjs:18 | a string that starts with the pattern has its first occurrence at 0 |
| `Strings.ReplaceFirstAbsent` | src/commands/make/makeController.mjs:18 | `replace` with a pattern that does not occur returns the string unchanged |
| `Strings.ReplaceFirst` | src/commands/make/makeController.mjs:18 | a pattern that does not occur leaves the string unchanged; a pattern the string starts with is replaced by the replacement, and the rest is kept |
| `Strings.ReplaceFirstOfPrefix` | src/commands/make/makeController.mjs:18 | `(pat + t).replace(pat, rep)` is `rep + t` |
| `Strings.LastIndexOf` | src/commands/make/makeController.mjs:37 | the index of the last occurrence of a character, or -1 when it does not occur |
| `Strings.LastIndexOfAfter` | src/commands/make/makeController.mjs:37 | in `a + b`, where `a` ends with the character and `b` holds none, the last occurrence is the end of `a` |
| `Files.ParentDir` | src/commands/make/makeController.mjs:37 | the directory part of a path is the prefix before its last `/`; empty when there is no `/` |
| `Files.Disk.Write` | src/commands/make/makeController.mjs:37 | a successful write adds or replaces exactly one file with the given content; all other files and all directories stay; well-formedness is kept |
| `Files.Disk.Exists` | src/commands/make/makeController.mjs:24 | on a well-formed disk, a path exists when it is either a file or a directory, never both; at a writable path it exists only as a file |
| `Files.Disk.CanWrite` | src/commands/make/makeController.mjs:37 | a writable path is not a directory and is not its own parent; on a well-formed disk its parent is a directory, not a file |
| `Files.FileSystem.ExistsSync` | src/commands/make/makeController.mjs:24 | true exactly when a file or a directory is at the path |
| `Files.FileSystem.WriteFile` | src/commands/make/makeController.mjs:37 | succeeds exactly when the parent directory exists and the path is not a directory; the new state is the old one with the file written, or unchanged on failure |
| `Artifacts.PathOfInjective` | src/commands/make/makeController.mjs:43-47 | two paths resolved in the same directory are equal if and only if their file names are |
| `Artifacts.CommonSuffix` | src/commands/make/makeController.mjs:46 | two file names with the same suffix are equal if and only if the names before the suffix are |
| `Artifacts.OutputFileCaseInsensitive` | src/commands/make/makeController.mjs:46 | two names give the same output path if and only if their lower-case forms are equal |
| `Artifacts.PathOfAt` | src/commands/make/makeController.mjs:43-47 | each character of the directory appears in the resolved path right after the root and its separator |
| `Artifacts.DirectoriesDiffer` | src/commands/make/makeValidateSchema.mjs:45 | the directories of two different kinds differ at their ninth character, after `src/app/` |
| `Artifacts.Truthy` | src/commands/make/makeRepository.mjs:55 | an argument or option counts as given unless it is absent or the empty string |
| `Artifacts.TemplateFile` | src/commands/make/makeController.mjs:52 | every kind is rendered from a `.hbs` resource under `templates/` |
| `Artifacts.TemplateFilesDiffer` | src/commands/make/makeRepository.mjs:52 | two different kinds are rendered from two different template resources |
| `Artifacts.OutputFile` | src/commands/make/makeController.mjs:42-48 | the output path starts with the root, ends with the lower-cased name and the kind's suffix, and its length is the sum of its parts plus two separators; it is made of `Directory` (the directory literal, :45), `FileName` (the template literal, :46, with the `Suffix` literal) and `PathOf` (`resolve`, :43-47) |
| `Artifacts.ReportedPath` | src/commands/make/makeController.mjs:18 | a path under the root is reported with the root replaced by `.`; a path that does not contain the root is reported unchanged |
| `Artifacts.OutputFilesOfKindsDiffer` | src/commands/make/makeValidateSchema.mjs:45-46 | output paths of two different kinds differ, whatever the two names |
| `Artifacts.ReportedPathOf` | src/commands/make/makeController.mjs:18 | a path resolved under the root is reported as `.` followed by the rest of the path |
| `Artifacts.ReportedOutputFile` | src/commands/make/makeRepository.mjs:18 | the reported path of an output file is `./<directory>/<file name>` |
| `Artifacts.ParentOfPathOf` | src/commands/make/makeController.mjs:37 | the file written at a path resolved from a directory and a file name without `/` lands in that directory |
| `Artifacts.NoSlashInLowerStr` | src/commands/make/makeController.mjs:46 | lower-casing a name without `/` produces no `/` |
| `Artifacts.NoSlashInSuffix` | src/commands/make/makeController.mjs:46 | no suffix holds a `/` |
| `Artifacts.NoSlashInFileName` | src/commands/make/makeRepository.mjs:46 | the file name of an artifact holds `/` only if the name does |
| `Artifacts.ParentOfOutputFile` | src/commands/make/makeRepository.mjs:42-48 | for a name without `/`, the output file's directory is the kind's directory under the root |
| `ControllerCommand.PrepareContext` | src/commands/make/makeController.mjs:55-57 | the context is undefined (TypeError) exactly for the empty name; otherwise its only key `name` is the name with its first character upper-cased and the rest unchanged |
| `ControllerCommand.PrepareContextUser` | src/commands/make/makeController.mjs:55-57 | the name `user` gives the context `{name: "User"}` |
| `ControllerCommand.OutputFileLayout` | src/commands/make/makeController.mjs:42-48 | the controller file is `<lowercase name>.controller.ts` resolved in `src/app/controllers` under the root |
| `ControllerCommand.ReportedPathLayout` | src/commands/make/makeController.mjs:30-32 | the reported path is `./src/app/controllers/<lowercase name>.controller.ts` |
| `RepositoryCommand.ModelName` | src/commands/make/makeRepository.mjs:55 | the model name is `--model` when truthy, otherwise the repository name; it is empty only if the name is |
| `RepositoryCommand.PrepareContext` | src/commands/make/makeRepository.mjs:56-60 | undefined exactly for the empty name; otherwise keys `name`, `model`, `capitalizedModel` holding the capitalised name, the lower-cased model and the capitalised model |
| `RepositoryCommand.ModelDefaultsToName` | src/commands/make/makeRepository.mjs:55 | without a truthy `--model`, `capitalizedModel` equals `name` and `model` is the lower-case form of `name` |
| `RepositoryCommand.PrepareContextOrderProduct` | src/commands/make/makeRepository.mjs:56-60 | `order` with `--model product` gives `{name: "Order", model: "product", capitalizedModel: "Product"}` |
| `RepositoryCommand.OutputFileLayout` | src/commands/make/makeRepository.mjs:42-48 | the repository file is `<lowercase name>.repository.ts` resolved in `src/app/repositories` under the root |
| `RepositoryCommand.ReportedPathLayout` | src/commands/make/makeRepository.mjs:30-32 | the reported path is `./src/app/repositories/<lowercase name>.repository.ts` |
| `SchemaCommand.PrepareContext` | src/commands/make/makeValidateSchema.mjs:55 | the context's only key `name` holds the name unchanged, empty or not |
| `SchemaCommand.OutputFileLayout` | src/commands/make/makeValidateSchema.mjs:42-48 | the schema file is `<lowercase name>.schema.ts` resolved in `src/app/validateSchema` under the root |
| `SchemaCommand.ReportedPathLayout` | src/commands/make/makeValidateSchema.mjs:30-32 | the reported path is `./src/app/validateSchema/<lowercase name>.schema.ts` |
| `Generator.ExitCode` | src/commands/make/makeController.mjs:24-27 | status 0 exactly after a creation or the "already exists" soft-stop, 1 otherwise |
| `Generator.ResolveName` | src/commands/make/makeController.mjs:60-70 | a truthy argument is the name; otherwise the prompt's text; no name exactly when the argument is falsy and the prompt is cancelled |
| `Generator.EmptyArgumentPrompts` | src/commands/make/makeRepository.mjs:67-71 | an explicit empty argument resolves exactly like an omitted one |
| `Generator.BuildContext` | src/commands/make/makeController.mjs:50-58 | building the context fails exactly for an empty controller or repository name; every context has a `name` |
| `Generator.PrepareContent` | src/commands/make/makeRepository.mjs:50-61 | preparing the content fails exactly when the template is missing or the name is empty for a controller or repository; it fails on the name only when the template was found, so the template is read before the name is indexed |
| `Generator.Run` | src/commands/make/makeController.mjs:9-19 | no run changes the directories or any file that was already there: an existing file is never overwritten |
| `Generator.CheckFileExists` | src/commands/make/makeController.mjs:21-28 | true exactly when something exists at the kind's output path |
| `Generator.CreateFile` | src/commands/make/makeValidateSchema.mjs:34-40 | writes the content at the output path and returns that path; the disk is changed only by that write, and only when the write can succeed |
| `Generator.Action` | src/commands/make/makeController.mjs:9-19 | the imperative pipeline leaves the file system and returns the outcome that `Run` gives for the state before it |
| `Generator.MakeController` | src/commands/make/makeController.mjs:73-85 | `make:controller` is the pipeline of the controller kind with no model option |
| `Generator.MakeRepository` | src/commands/make/makeRepository.mjs:9-19 | `make:repository` is the pipeline of the repository kind with the `--model` option |
| `Generator.MakeSchema` | src/commands/make/makeValidateSchema.mjs:9-19 | `make:schema` is the pipeline of the schema kind with no model option |
| `Generator.RunCancelled` | src/commands/make/makeRepository.mjs:65-76 | a cancelled prompt ends with status 1 and an unchanged disk |
| `Generator.RunIgnoresPromptGivenArgument` | src/commands/make/makeController.mjs:62-66 | with a truthy argument the prompt's answer makes no difference |
| `Generator.RunExisting` | src/commands/make/makeController.mjs:21-28 | anything at the output path gives the soft-stop with status 0 and an unchanged disk, before any template read or name indexing |
| `Generator.RunUnchangedUnlessCreated` | src/commands/make/makeController.mjs:12-16 | a run that fails, is cancelled or soft-stops leaves the disk unchanged |
| `Generator.RunCreatedSteps` | src/commands/make/makeController.mjs:9-19 | a run creates only after the name resolved, nothing was at the output path, the content was rendered and the write could succeed; the result is that write and the root-relative report |
| `Generator.RunChangesOnlyOutputFile` | src/commands/make/makeController.mjs:34-40 | a creating run adds exactly the previously absent output path with the rendered content, changes no other file or directory, and reports `./<directory>/<file name>` |
| `Generator.RunTwiceSoftStops` | src/commands/make/makeRepository.mjs:21-28 | after a creating run, a second run with a name of the same lower-case form soft-stops and leaves the disk as the first run left it |
| `Generator.RunCreatesWhenReady` | src/commands/make/makeValidateSchema.mjs:9-19 | with a name free of `/`, nothing at the path, the template present, a buildable context and the kind's directory present, the run creates the output file |
| `Generator.RunEmptyNameThrows` | src/commands/make/makeController.mjs:56 | an empty controller or repository name, once the existence check passes, fails with status 1 and writes nothing |
| `Generator.RunTemplateMissing` | src/commands/make/makeController.mjs:53 | with nothing at the output path and the template missing, a run crashes with status 1 for every name, the empty one included, and writes nothing |
| `Generator.RunSchemaEmptyName` | src/commands/make/makeValidateSchema.mjs:55 | an empty schema name creates the file `.schema.ts` in `src/app/validateSchema` |
| `Generator.RunPreservesWellFormed` | src/commands/make/makeValidateSchema.mjs:37 | no run makes a path both a file and a directory |
| `Generator.RunLeavesOtherKinds` | src/commands/make/makeController.mjs:45-46 | a run of one kind never changes whether another kind's output file exists |
| `Generator.ScenarioControllerUser` | src/commands/make/makeController.mjs:9-19 | `make:controller user` on a fresh project creates only `src/app/controllers/user.controller.ts`, rendered with `{name: "User"}`, and reports `./src/app/controllers/user.controller.ts` |
| `Generator.ScenarioRepositoryOrderProduct` | src/commands/make/makeRepository.mjs:50-61 | `make:repository order --model product` creates `src/app/repositories/order.repository.ts` rendered with `Order`, `product` and `Product` |
| `Generator.ScenarioSchemaUserTwice` | src/commands/make/makeValidateSchema.mjs:21-28 | `make:schema user` twice: the first creates, the second soft-stops with status 0 and the disk unchanged |

## Left out

- Handlebars is not modelled. `render` is an uninterpreted function of the template source and the context. The templates are not part of this model, so escaping and the placeholders they use are not modelled either.
- `Casing.Lower`, `Casing.Upper`: case mapping covers ASCII letters only. JavaScript maps all of Unicode, where upper-casing can change the length (`ß` becomes `SS`). Beyond ASCII, the length property of `Capitalized` is not claimed.
- `Artifacts.OutputFile`: `path.resolve` normalisation is not modelled. That covers `..` and absolute names, a name containing `/` that names a subdirectory, and a working directory ending in a separator. The path is plain concatenation.
- `Strings.ReplaceFirst`: the `$&`, `$$`, `` $` `` and `$'` patterns JavaScript expands in a replacement string are not modelled; the replacement is inserted literally. The only replacement the commands pass is `'.'`, which has none.
- `Generator.Action`: `process.exit` and async/await become returned outcomes. The unhandled rejection of the async action becomes `Crashed` with status 1.
- `Generator.CheckFileExists`: the window between `existsSync` and `writeFile`, where another process could create the file, is not modelled; only one command runs at a time.
- `Files.FileSystem.WriteFile`: only two failures are modelled, a missing parent directory and a path that is a directory. Permission errors, a full disk and partial writes are not.
- `Generator.PrepareContent`: reading the template is a map lookup. A missing resource is the only read failure; the package directory the template path is resolved from is not modelled.
- Console output (`output`, `info`, `errorLog` in src/logs.mjs) is left out. The messages only inform the user; the reported path they carry is modelled.
- The `inquirer` prompt is an input value, not an interaction.
- Commander wiring is left out (index.mjs and the `make*` command builders). That includes how `make.opts()` comes to hold the parsed `--model`; the model takes the parsed option as an input.
- Project bootstrapping is left out (`new`/`newApp` in src/commands/newApp.mjs and bin/index.js). It consists of `git clone`, `npm install`, directory creation and un-awaited cleanup, all external processes and file-system plumbing.
