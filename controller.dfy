/** `make:controller`: the controller-specific parts of the generator. */
module ControllerCommand {
  import opened Wrappers
  import opened Casing
  import opened Artifacts

  /**
    The object `prepareContent` renders the controller template with:
    `{ name: name[0].toUpperCase() + name.slice(1) }`. `None` stands for the
    TypeError thrown at `name[0]` when the name is empty.
   */
  function PrepareContext(name: string): (ctx: Option<Context>)
    ensures ctx.None? <==> name == ""
    ensures ctx.Some? ==> ctx.value.Keys == {"name"}
    ensures ctx.Some? ==> |ctx.value["name"]| == |name|
    ensures ctx.Some? ==> ctx.value["name"][0] == Upper(name[0])
    ensures ctx.Some? ==> ctx.value["name"][1..] == name[1..]
  {
    if name == "" then None else Some(map["name" := Capitalized(name)])
  }

  /** `make:controller user` renders the class name `User`. */
  lemma PrepareContextUser()
    ensures PrepareContext("user") == Some(map["name" := "User"])
  {
    assert Capitalized("user") == "User";
  }

  /** The controller file: `resolve(cwd, 'src/app/controllers/', name.toLowerCase() + '.controller.ts')`. */
  lemma OutputFileLayout(root: string, name: string)
    ensures OutputFile(root, Controller, name) == PathOf(root, "src/app/controllers", LowerStr(name) + ".controller.ts")
  {
  }

  /** The path reported after creating the file: relative to the project root. */
  lemma ReportedPathLayout(root: string, name: string)
    ensures ReportedPath(root, OutputFile(root, Controller, name))
         == "./" + "src/app/controllers" + "/" + (LowerStr(name) + ".controller.ts")
  {
    ReportedOutputFile(root, Controller, name);
  }
}
