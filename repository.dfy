/** `make:repository [name] [--model <model>]`: the repository-specific parts of the generator. */
module RepositoryCommand {
  import opened Wrappers
  import opened Casing
  import opened Artifacts

  /** `options.model || name`: the `--model` option when truthy, the repository name otherwise. */
  function ModelName(name: string, model: Option<string>): (m: string)
    ensures Truthy(model) ==> m == model.value
    ensures !Truthy(model) ==> m == name
    ensures m == "" ==> name == ""
  {
    if Truthy(model) then model.value else name
  }

  /**
    The object `prepareContent` renders the repository template with:
    `{ name: capitalized(name), model: model.toLowerCase(), capitalizedModel: capitalized(model) }`.
    `None` stands for the TypeError `capitalized` throws on an empty name.
   */
  function PrepareContext(name: string, model: Option<string>): (ctx: Option<Context>)
    ensures ctx.None? <==> name == ""
    ensures ctx.Some? ==> ctx.value.Keys == {"name", "model", "capitalizedModel"}
    ensures ctx.Some? ==> var m := ModelName(name, model);
      && ctx.value["name"] == Capitalized(name)
      && ctx.value["model"] == LowerStr(m)
      && ctx.value["capitalizedModel"] == Capitalized(m)
  {
    var m := ModelName(name, model);
    if name == "" then None
    else Some(map["name" := Capitalized(name), "model" := LowerStr(m), "capitalizedModel" := Capitalized(m)])
  }

  /**
    Without a truthy `--model`, the model placeholders are the repository's own
    name forms: `capitalizedModel` is the capitalised name and `model` is its lower-case form.
   */
  lemma ModelDefaultsToName(name: string, model: Option<string>)
    requires name != "" && !Truthy(model)
    ensures PrepareContext(name, model).Some?
    ensures PrepareContext(name, model).value["capitalizedModel"] == PrepareContext(name, model).value["name"]
    ensures PrepareContext(name, model).value["model"] == LowerStr(PrepareContext(name, model).value["name"])
  {
    LowerStrOfCapitalized(name);
  }

  /** `make:repository order --model product`. */
  lemma PrepareContextOrderProduct()
    ensures PrepareContext("order", Some("product"))
         == Some(map["name" := "Order", "model" := "product", "capitalizedModel" := "Product"])
  {
    assert Capitalized("order") == "Order";
    assert Capitalized("product") == "Product";
    assert LowerStr("product") == "product";
  }

  /** The repository file: `resolve(cwd, 'src/app/repositories/', name.toLowerCase() + '.repository.ts')`. */
  lemma OutputFileLayout(root: string, name: string)
    ensures OutputFile(root, Repository, name) == PathOf(root, "src/app/repositories", LowerStr(name) + ".repository.ts")
  {
  }

  /** The path reported after creating the file: relative to the project root. */
  lemma ReportedPathLayout(root: string, name: string)
    ensures ReportedPath(root, OutputFile(root, Repository, name))
         == "./" + "src/app/repositories" + "/" + (LowerStr(name) + ".repository.ts")
  {
    ReportedOutputFile(root, Repository, name);
  }
}
