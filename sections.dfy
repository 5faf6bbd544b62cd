/** The top-level sections an artifact is written in.  Both `flush` methods
    (src/ServiceCompiler.ts, src/compile.ts) are a fixed sequence of section
    writes into one buffer; an artifact is described here by the list of its
    sections, and its buffer by writing them in turn.
 */
module Sections {
  import opened Text
  import opened ThriftAst
  import opened Options
  import opened Emit

  datatype Section =
    | Imports(includes: OrderedMap<Include>)      // writeInclude
    | CallbackDecl                                // writeCallbackTypeDeclare
    | CommonType                                  // writeCommonType
    | Export                                      // wExport
    | Client(service: Service)                    // wService
    | Consts(consts: OrderedMap<Const>)           // writeConst
    | Typedefs(typedefs: OrderedMap<ValueType>)   // writeTypeof
    | Enums(enums: OrderedMap<Enum>)              // writeEnum
    | Structs(structs: OrderedMap<seq<Field>>)    // writeStructs
    | Chunks(chunks: seq<string>)                 // what `writeUnions` appends
    | Exceptions(exceptions: OrderedMap<seq<Field>>) // writeExceptions

  /** The chunks one section appends. */
  function EmitSection(b: Buffer, c: Config, n: int, s: Section): Buffer
  {
    match s
    case Imports(m) => EmitIncludes(b, m)
    case CallbackDecl => EmitCallbackDecl(b, c, n)
    case CommonType => EmitCommonType(b, c, n)
    case Export => EmitExport(b, c, n)
    case Client(svc) => EmitService(b, c, n, svc)
    case Consts(m) => EmitConsts(b, c, n, m)
    case Typedefs(m) => EmitTypedefs(b, c, n, m)
    case Enums(m) => EmitEnums(b, c, n, m)
    case Structs(m) => EmitStructs(b, c, n, m)
    case Chunks(xs) => b + xs
    case Exceptions(m) => EmitExceptions(b, c, n, m)
  }

  /** The sections written in turn, the last one last. */
  function EmitSections(b: Buffer, c: Config, n: int, secs: seq<Section>): Buffer
  {
    if secs == [] then b
    else EmitSection(EmitSections(b, c, n, secs[..|secs| - 1]), c, n, secs[|secs| - 1])
  }

  /** Writing one more section. */
  lemma EmitSectionsSnoc(b: Buffer, c: Config, n: int, secs: seq<Section>, s: Section)
    ensures EmitSections(b, c, n, secs + [s]) == EmitSection(EmitSections(b, c, n, secs), c, n, s)
  {
    assert (secs + [s])[..|secs|] == secs;
  }

  /** Writing `xs` then `ys` is writing `xs + ys`. */
  lemma {:induction false} EmitSectionsAppend(b: Buffer, c: Config, n: int, xs: seq<Section>, ys: seq<Section>)
    ensures EmitSections(b, c, n, xs + ys) == EmitSections(EmitSections(b, c, n, xs), c, n, ys)
  {
    if ys != [] {
      assert (xs + ys)[..|xs + ys| - 1] == xs + ys[..|ys| - 1];
      EmitSectionsAppend(b, c, n, xs, ys[..|ys| - 1]);
    } else {
      assert xs + ys == xs;
    }
  }
}
