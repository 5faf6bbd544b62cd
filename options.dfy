/** Compile options and the writer configuration they select
    (src/types.ts, src/BaseCompiler.ts constructor).
 */
module Options {
  import opened ThriftAst

  /** Both indentation units are a single space character. */
  const SPACE: string := " "
  const TAB: string := " "

  datatype IntendMode = TabMode | SpaceMode

  /** An output artifact: a file name and the text to write there. */
  datatype File = File(filename: string, content: string)

  /** `CompileOptions`: every field may be left undefined. */
  datatype CompileOptions = CompileOptions(
    tabSize: Option<int>,
    spaceAsTab: Option<bool>,
    int64AsString: Option<bool>,
    definition: Option<bool>,
    camelCase: Option<bool>)

  /** What a writer is configured with. */
  datatype Config = Config(tabSize: int, mode: IntendMode, int64AsString: bool)

  /** The writer configuration for constructor argument `options`: the
      field initialisers (tab size 2, TAB mode, Int64 as a wrapper type),
      each overridden by the option when that is defined. */
  function ConfigOf(options: Option<CompileOptions>): (c: Config)
    ensures options.None? ==> c == Config(2, TabMode, false)
    ensures options.Some? ==>
      && c.tabSize == options.value.tabSize.GetOr(2)
      && (c.mode == SpaceMode <==> options.value.spaceAsTab == Some(true))
      && c.int64AsString == options.value.int64AsString.GetOr(false)
  {
    match options
    case None => Config(2, TabMode, false)
    case Some(o) =>
      Config(
        o.tabSize.GetOr(2),
        match o.spaceAsTab
        case Some(b) => if b then SpaceMode else TabMode
        case None => TabMode,
        o.int64AsString.GetOr(false))
  }

  /** The `definition` flag a compile runs under; an undefined flag is falsy. */
  function DefinitionOf(options: Option<CompileOptions>): (d: bool)
    ensures d <==> options.Some? && options.value.definition == Some(true)
  {
    match options
    case None => false
    case Some(o) => o.definition.GetOr(false)
  }
}
