/** `make:schema`: the validation-schema-specific parts of the generator. */
module SchemaCommand {
  import opened Casing
  import opened Artifacts

  /**
    The object `prepareContent` renders the schema template with: `{ name }`, the
    name exactly as given. Nothing is indexed, so an empty name does not throw.
   */
  function PrepareContext(name: string): (ctx: Context)
    ensures ctx.Keys == {"name"} && ctx["name"] == name
  {
    map["name" := name]
  }

  /** The schema file: `resolve(cwd, 'src/app/validateSchema/', name.toLowerCase() + '.schema.ts')`. */
  lemma OutputFileLayout(root: string, name: string)
    ensures OutputFile(root, ValidateSchema, name) == PathOf(root, "src/app/validateSchema", LowerStr(name) + ".schema.ts")
  {
  }

  /** The path reported after creating the file: relative to the project root. */
  lemma ReportedPathLayout(root: string, name: string)
    ensures ReportedPath(root, OutputFile(root, ValidateSchema, name))
         == "./" + "src/app/validateSchema" + "/" + (LowerStr(name) + ".schema.ts")
  {
    ReportedOutputFile(root, ValidateSchema, name);
  }
}
