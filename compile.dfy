/** The orchestrator of one compile (src/compile.ts): it writes the types
    artifact itself and hands each service to a `ServiceCompiler` of its own.

    The source parses the file content in its constructor; here the parsed
    tree is the input.  The union writer `writeUnions` has no definition in
    the source, so the chunks it appends are a parameter.
 */
module Compile {
  import opened Text
  import opened ThriftAst
  import opened Options
  import opened Emit
  import opened Render
  import opened NodePath
  import opened BaseCompiler
  import opened ServiceCompiler
  import opened Sections

  /** What `writeUnions` appends, for the configuration, the counter and the
      unions it is given. */
  type UnionWriter = (Config, int, OrderedMap<seq<Field>>) -> seq<string>

  /** Each section of the types artifact appends its declarations when the
      schema has it and nothing otherwise. */
  function EmitImportsPart(b: Buffer, ast: Schema): Buffer
  {
    if ast.includes.Some? then EmitIncludes(b, ast.includes.value) else b
  }

  function EmitConstsPart(b: Buffer, c: Config, n: int, ast: Schema): Buffer
  {
    if ast.consts.Some? then EmitConsts(b, c, n, ast.consts.value) else b
  }

  function EmitTypedefsPart(b: Buffer, c: Config, n: int, ast: Schema): Buffer
  {
    if ast.typedefs.Some? then EmitTypedefs(b, c, n, ast.typedefs.value) else b
  }

  function EmitEnumsPart(b: Buffer, c: Config, n: int, ast: Schema): Buffer
  {
    if ast.enums.Some? then EmitEnums(b, c, n, ast.enums.value) else b
  }

  function EmitStructsPart(b: Buffer, c: Config, n: int, ast: Schema): Buffer
  {
    if ast.structs.Some? then EmitStructs(b, c, n, ast.structs.value) else b
  }

  function EmitUnionsPart(b: Buffer, c: Config, n: int, ast: Schema, unions: UnionWriter): Buffer
  {
    if ast.unions.Some? then b + unions(c, n, ast.unions.value) else b
  }

  function EmitExceptionsPart(b: Buffer, c: Config, n: int, ast: Schema): Buffer
  {
    if ast.exceptions.Some? then EmitExceptions(b, c, n, ast.exceptions.value) else b
  }

  /** The first sections of the types buffer: the common type, includes,
      constants and typedefs. */
  function EmitDeclarations(b: Buffer, c: Config, n: int, ast: Schema): Buffer
  {
    EmitTypedefsPart(EmitConstsPart(EmitImportsPart(EmitCommonType(b, c, n), ast), c, n, ast), c, n, ast)
  }

  /** The later sections: enums, structs, unions and exceptions. */
  function EmitTypeDecls(b: Buffer, c: Config, n: int, ast: Schema, unions: UnionWriter): Buffer
  {
    EmitExceptionsPart(EmitUnionsPart(EmitStructsPart(EmitEnumsPart(b, c, n, ast), c, n, ast), c, n, ast, unions), c, n, ast)
  }

  /** The first sections of the types artifact: the common type, then the
      includes, constants and typedefs the schema has. */
  function DeclarationSections(ast: Schema): seq<Section>
  {
    [CommonType]
      + (if ast.includes.Some? then [Imports(ast.includes.value)] else [])
      + (if ast.consts.Some? then [Consts(ast.consts.value)] else [])
      + (if ast.typedefs.Some? then [Typedefs(ast.typedefs.value)] else [])
  }

  /** The later sections: the enums, structs, unions and exceptions the
      schema has. */
  function TypeDeclSections(c: Config, n: int, ast: Schema, unions: UnionWriter): seq<Section>
  {
    (if ast.enums.Some? then [Enums(ast.enums.value)] else [])
      + (if ast.structs.Some? then [Structs(ast.structs.value)] else [])
      + (if ast.unions.Some? then [Chunks(unions(c, n, ast.unions.value))] else [])
      + (if ast.exceptions.Some? then [Exceptions(ast.exceptions.value)] else [])
  }

  /** The sections `flush` writes into the types buffer, in order. */
  function TypesSections(c: Config, n: int, ast: Schema, unions: UnionWriter): seq<Section>
  {
    DeclarationSections(ast) + TypeDeclSections(c, n, ast, unions)
  }

  /** A list of at most one section is written by writing that section. */
  lemma EmitOptional(b: Buffer, c: Config, n: int, present: bool, s: Section)
    ensures EmitSections(b, c, n, if present then [s] else []) == if present then EmitSection(b, c, n, s) else b
  {
    if present {
      EmitSectionsSnoc(b, c, n, [], s);
      assert [] + [s] == [s];
    }
  }

  /** Writing four section lists in turn. */
  lemma EmitFour(b: Buffer, c: Config, n: int, p1: seq<Section>, p2: seq<Section>, p3: seq<Section>, p4: seq<Section>)
    ensures EmitSections(b, c, n, p1 + p2 + p3 + p4)
      == EmitSections(EmitSections(EmitSections(EmitSections(b, c, n, p1), c, n, p2), c, n, p3), c, n, p4)
  {
    EmitSectionsAppend(b, c, n, p1 + p2 + p3, p4);
    EmitSectionsAppend(b, c, n, p1 + p2, p3);
    EmitSectionsAppend(b, c, n, p1, p2);
  }

  lemma ImportsStep(b: Buffer, c: Config, n: int, ast: Schema)
    ensures EmitSections(b, c, n, if ast.includes.Some? then [Imports(ast.includes.value)] else []) == EmitImportsPart(b, ast)
  {
    if ast.includes.Some? { EmitOptional(b, c, n, true, Imports(ast.includes.value)); }
  }

  lemma ConstsStep(b: Buffer, c: Config, n: int, ast: Schema)
    ensures EmitSections(b, c, n, if ast.consts.Some? then [Consts(ast.consts.value)] else []) == EmitConstsPart(b, c, n, ast)
  {
    if ast.consts.Some? { EmitOptional(b, c, n, true, Consts(ast.consts.value)); }
  }

  lemma TypedefsStep(b: Buffer, c: Config, n: int, ast: Schema)
    ensures EmitSections(b, c, n, if ast.typedefs.Some? then [Typedefs(ast.typedefs.value)] else []) == EmitTypedefsPart(b, c, n, ast)
  {
    if ast.typedefs.Some? { EmitOptional(b, c, n, true, Typedefs(ast.typedefs.value)); }
  }

  lemma EnumsStep(b: Buffer, c: Config, n: int, ast: Schema)
    ensures EmitSections(b, c, n, if ast.enums.Some? then [Enums(ast.enums.value)] else []) == EmitEnumsPart(b, c, n, ast)
  {
    if ast.enums.Some? { EmitOptional(b, c, n, true, Enums(ast.enums.value)); }
  }

  lemma StructsStep(b: Buffer, c: Config, n: int, ast: Schema)
    ensures EmitSections(b, c, n, if ast.structs.Some? then [Structs(ast.structs.value)] else []) == EmitStructsPart(b, c, n, ast)
  {
    if ast.structs.Some? { EmitOptional(b, c, n, true, Structs(ast.structs.value)); }
  }

  lemma UnionsStep(b: Buffer, c: Config, n: int, ast: Schema, unions: UnionWriter)
    ensures EmitSections(b, c, n, if ast.unions.Some? then [Chunks(unions(c, n, ast.unions.value))] else []) == EmitUnionsPart(b, c, n, ast, unions)
  {
    if ast.unions.Some? { EmitOptional(b, c, n, true, Chunks(unions(c, n, ast.unions.value))); }
  }

  lemma ExceptionsStep(b: Buffer, c: Config, n: int, ast: Schema)
    ensures EmitSections(b, c, n, if ast.exceptions.Some? then [Exceptions(ast.exceptions.value)] else []) == EmitExceptionsPart(b, c, n, ast)
  {
    if ast.exceptions.Some? { EmitOptional(b, c, n, true, Exceptions(ast.exceptions.value)); }
  }

  lemma DeclarationSteps(b: Buffer, c: Config, n: int, ast: Schema)
    ensures EmitSections(b, c, n, DeclarationSections(ast)) == EmitDeclarations(b, c, n, ast)
  {
    var p2 := if ast.includes.Some? then [Imports(ast.includes.value)] else [];
    var p3 := if ast.consts.Some? then [Consts(ast.consts.value)] else [];
    var p4 := if ast.typedefs.Some? then [Typedefs(ast.typedefs.value)] else [];
    EmitFour(b, c, n, [CommonType], p2, p3, p4);
    EmitOptional(b, c, n, true, CommonType);
    var b1 := EmitCommonType(b, c, n);
    ImportsStep(b1, c, n, ast);
    var b2 := EmitImportsPart(b1, ast);
    ConstsStep(b2, c, n, ast);
    TypedefsStep(EmitConstsPart(b2, c, n, ast), c, n, ast);
  }

  lemma TypeDeclSteps(b: Buffer, c: Config, n: int, ast: Schema, unions: UnionWriter)
    ensures EmitSections(b, c, n, TypeDeclSections(c, n, ast, unions)) == EmitTypeDecls(b, c, n, ast, unions)
  {
    var p1 := if ast.enums.Some? then [Enums(ast.enums.value)] else [];
    var p2 := if ast.structs.Some? then [Structs(ast.structs.value)] else [];
    var p3 := if ast.unions.Some? then [Chunks(unions(c, n, ast.unions.value))] else [];
    var p4 := if ast.exceptions.Some? then [Exceptions(ast.exceptions.value)] else [];
    EmitFour(b, c, n, p1, p2, p3, p4);
    EnumsStep(b, c, n, ast);
    var b1 := EmitEnumsPart(b, c, n, ast);
    StructsStep(b1, c, n, ast);
    var b2 := EmitStructsPart(b1, c, n, ast);
    UnionsStep(b2, c, n, ast, unions);
    ExceptionsStep(EmitUnionsPart(b2, c, n, ast, unions), c, n, ast);
  }

  /** The types sections, written one after the other. */
  lemma TypesSectionsSteps(b: Buffer, c: Config, n: int, ast: Schema, unions: UnionWriter)
    ensures EmitSections(b, c, n, TypesSections(c, n, ast, unions))
      == EmitTypeDecls(EmitDeclarations(b, c, n, ast), c, n, ast, unions)
  {
    EmitSectionsAppend(b, c, n, DeclarationSections(ast), TypeDeclSections(c, n, ast, unions));
    DeclarationSteps(b, c, n, ast);
    TypeDeclSteps(EmitDeclarations(b, c, n, ast), c, n, ast, unions);
  }

  function ConstsPart(c: Config, n: int, ast: Schema): string
  {
    if ast.consts.Some? then ConstsText(c, n, ast.consts.value) else ""
  }

  function TypedefsPart(c: Config, n: int, ast: Schema): string
  {
    if ast.typedefs.Some? then TypedefsText(c, n, ast.typedefs.value) else ""
  }

  function EnumsPart(c: Config, n: int, ast: Schema): string
  {
    if ast.enums.Some? then EnumsText(c, n, ast.enums.value) else ""
  }

  function StructsPart(c: Config, n: int, ast: Schema): string
  {
    if ast.structs.Some? then StructsText(c, n, ast.structs.value) else ""
  }

  function UnionsPart(c: Config, n: int, ast: Schema, unions: UnionWriter): string
  {
    if ast.unions.Some? then Concat(unions(c, n, ast.unions.value)) else ""
  }

  function ExceptionsPart(c: Config, n: int, ast: Schema): string
  {
    if ast.exceptions.Some? then ExceptionsText(c, n, ast.exceptions.value) else ""
  }

  /** The text of the types artifact: `Int64`, imports, constants, typedefs,
      enums, structs, unions, exceptions; an absent section is empty. */
  function TypesText(c: Config, n: int, ast: Schema, unions: UnionWriter): string
  {
    Int64Text(c, n) + ImportsText(ast.includes) + ConstsPart(c, n, ast) + TypedefsPart(c, n, ast)
      + EnumsPart(c, n, ast) + StructsPart(c, n, ast) + UnionsPart(c, n, ast, unions) + ExceptionsPart(c, n, ast)
  }

  lemma ImportsPartLines(b: Buffer, ast: Schema)
    ensures Concat(EmitImportsPart(b, ast)) == Concat(b) + ImportsText(ast.includes)
  {
    if ast.includes.Some? { IncludesLines(b, ast.includes.value); }
  }

  lemma ConstsPartLines(b: Buffer, c: Config, n: int, ast: Schema)
    ensures Concat(EmitConstsPart(b, c, n, ast)) == Concat(b) + ConstsPart(c, n, ast)
  {
    if ast.consts.Some? { ConstsLines(b, c, n, ast.consts.value); }
  }

  lemma TypedefsPartLines(b: Buffer, c: Config, n: int, ast: Schema)
    ensures Concat(EmitTypedefsPart(b, c, n, ast)) == Concat(b) + TypedefsPart(c, n, ast)
  {
    if ast.typedefs.Some? { TypedefsLines(b, c, n, ast.typedefs.value); }
  }

  lemma EnumsPartLines(b: Buffer, c: Config, n: int, ast: Schema)
    ensures Concat(EmitEnumsPart(b, c, n, ast)) == Concat(b) + EnumsPart(c, n, ast)
  {
    if ast.enums.Some? { EnumsLines(b, c, n, ast.enums.value); }
  }

  lemma StructsPartLines(b: Buffer, c: Config, n: int, ast: Schema)
    ensures Concat(EmitStructsPart(b, c, n, ast)) == Concat(b) + StructsPart(c, n, ast)
  {
    if ast.structs.Some? { StructsLines(b, c, n, ast.structs.value); }
  }

  lemma UnionsPartLines(b: Buffer, c: Config, n: int, ast: Schema, unions: UnionWriter)
    ensures Concat(EmitUnionsPart(b, c, n, ast, unions)) == Concat(b) + UnionsPart(c, n, ast, unions)
  {
    if ast.unions.Some? { ConcatAppend(b, unions(c, n, ast.unions.value)); }
  }

  lemma ExceptionsPartLines(b: Buffer, c: Config, n: int, ast: Schema)
    ensures Concat(EmitExceptionsPart(b, c, n, ast)) == Concat(b) + ExceptionsPart(c, n, ast)
  {
    if ast.exceptions.Some? { ExceptionsLines(b, c, n, ast.exceptions.value); }
  }

  /** The types artifact holds its sections in the fixed order. */
  lemma TypesFileLines(b: Buffer, c: Config, n: int, ast: Schema, unions: UnionWriter)
    ensures Concat(EmitSections(b, c, n, TypesSections(c, n, ast, unions))) == Concat(b) + TypesText(c, n, ast, unions)
  {
    TypesSectionsSteps(b, c, n, ast, unions);
    var b1 := EmitCommonType(b, c, n);
    CommonTypeLines(b, c, n);
    var b2 := EmitImportsPart(b1, ast);
    ImportsPartLines(b1, ast);
    var b3 := EmitConstsPart(b2, c, n, ast);
    ConstsPartLines(b2, c, n, ast);
    var b4 := EmitTypedefsPart(b3, c, n, ast);
    TypedefsPartLines(b3, c, n, ast);
    var b5 := EmitEnumsPart(b4, c, n, ast);
    EnumsPartLines(b4, c, n, ast);
    var b6 := EmitStructsPart(b5, c, n, ast);
    StructsPartLines(b5, c, n, ast);
    var b7 := EmitUnionsPart(b6, c, n, ast, unions);
    UnionsPartLines(b6, c, n, ast, unions);
    ExceptionsPartLines(b7, c, n, ast);
    Regroup8(Concat(b), Int64Text(c, n), ImportsText(ast.includes), ConstsPart(c, n, ast), TypedefsPart(c, n, ast),
      EnumsPart(c, n, ast), StructsPart(c, n, ast), UnionsPart(c, n, ast, unions), ExceptionsPart(c, n, ast));
  }

  /** The types artifact's name: `_types.d.ts` in definition mode, `.ts`
      otherwise, after the base name of the source file. */
  function TypesFileName(filename: string, definition: bool): string
  {
    ThriftBasename(filename) + (if definition then "_types.d.ts" else ".ts")
  }

  /** The includes every service compiler receives: the schema's own, and
      the schema itself under its base name. */
  function ServiceIncludes(ast: Schema, basename: string): OrderedMap<Include>
  {
    Assign(ast.includes.GetOr([]), basename, Include(basename))
  }

  /** The self-entry is present, replaces an include of the same name in
      place, and every other include is kept, in its order. */
  lemma SelfInclude(ast: Schema, basename: string)
    ensures (basename, Include(basename)) in ServiceIncludes(ast, basename)
    ensures Keys(ServiceIncludes(ast, basename))[..|ast.includes.GetOr([])|] == Keys(ast.includes.GetOr([]))
    ensures forall e :: e in ast.includes.GetOr([]) && e.0 != basename ==> e in ServiceIncludes(ast, basename)
  {
    var m := ast.includes.GetOr([]);
    var r := ServiceIncludes(ast, basename);
    if basename in Keys(m) {
      var i :| 0 <= i < |m| && Keys(m)[i] == basename;
      assert r[i] == (basename, Include(basename));
    } else {
      assert r[|m|] == (basename, Include(basename));
    }
    forall e | e in m && e.0 != basename
      ensures e in r
    {
      var i :| 0 <= i < |m| && m[i] == e;
      assert r[i] == e;
    }
  }

  /** The service compilers `Compile` creates: one per service, in key order,
      each with a writer of its own. */
  ghost predicate ServiceCompilersFor(scs: seq<ServiceCompiler>, services: OrderedMap<Service>, basename: string,
                                      includes: OrderedMap<Include>)
  {
    && |scs| == |services|
    && (forall k :: 0 <= k < |scs| ==>
          && scs[k].basename == basename && scs[k].name == services[k].0
          && scs[k].service == services[k].1 && scs[k].includes == Some(includes))
    && (forall k, l :: 0 <= k < l < |scs| ==> scs[k].writer != scs[l].writer)
  }

  /** The `map` of the constructor: one service compiler per service key,
      in key order, each with a fresh writer of its own. */
  method NewServiceCompilers(services: OrderedMap<Service>, basename: string, includes: OrderedMap<Include>,
                             options: Option<CompileOptions>)
    returns (scs: seq<ServiceCompiler>)
    ensures ServiceCompilersFor(scs, services, basename, includes)
    ensures forall k :: 0 <= k < |scs| ==>
      && fresh(scs[k].writer) && scs[k].writer.buffer == []
      && scs[k].writer.intends == 0 && scs[k].writer.Cfg() == ConfigOf(options)
  {
    scs := [];
    var i := 0;
    while i < |services|
      invariant 0 <= i <= |services| && |scs| == i
      invariant ServiceCompilersFor(scs, services[..i], basename, includes)
      invariant forall k :: 0 <= k < i ==>
        && fresh(scs[k].writer) && scs[k].writer.buffer == []
        && scs[k].writer.intends == 0 && scs[k].writer.Cfg() == ConfigOf(options)
    {
      var sc := new ServiceCompiler(basename, services[i].0, services[i].1, Some(includes), options);
      scs := scs + [sc];
      i := i + 1;
    }
    assert services[..i] == services;
  }

  /** The constructor's service compilers: none unless the schema has
      services and is compiled in definition mode. */
  method SchemaServiceCompilers(filename: string, ast: Schema, def: bool, options: Option<CompileOptions>)
    returns (scs: seq<ServiceCompiler>)
    ensures ast.services.Some? && def ==>
      ServiceCompilersFor(scs, ast.services.value, ThriftBasename(filename),
        ServiceIncludes(ast, ThriftBasename(filename)))
    ensures !(ast.services.Some? && def) ==> scs == []
    ensures forall k :: 0 <= k < |scs| ==>
      && fresh(scs[k].writer) && scs[k].writer.buffer == []
      && scs[k].writer.intends == 0 && scs[k].writer.Cfg() == ConfigOf(options)
  {
    scs := [];
    if ast.services.Some? && def {
      var basename := ThriftBasename(filename);
      scs := NewServiceCompilers(ast.services.value, basename, ServiceIncludes(ast, basename), options);
    }
  }

  class Compile {
    /** The writer of the types artifact. */
    const writer: BaseCompiler
    const filename: string
    const ast: Schema
    /** The `definition` compile option. */
    const definition: bool
    var serviceCompilers: seq<ServiceCompiler>

    /** Every writer belongs to one compiler only. */
    ghost predicate Valid()
      reads this
    {
      && (forall k :: 0 <= k < |serviceCompilers| ==> serviceCompilers[k].writer != writer)
      && (forall k, l :: 0 <= k < l < |serviceCompilers| ==> serviceCompilers[k].writer != serviceCompilers[l].writer)
    }

    /** Service compilers exist only for a schema with services compiled in
        definition mode: one per service key, in key order. */
    constructor (filename: string, ast: Schema, options: Option<CompileOptions>)
      ensures Valid()
      ensures this.filename == filename && this.ast == ast && definition == DefinitionOf(options)
      ensures fresh(writer) && writer.buffer == [] && writer.intends == 0 && writer.Cfg() == ConfigOf(options)
      ensures ast.services.Some? && definition ==>
        ServiceCompilersFor(serviceCompilers, ast.services.value, ThriftBasename(filename),
          ServiceIncludes(ast, ThriftBasename(filename)))
      ensures !(ast.services.Some? && definition) ==> serviceCompilers == []
      ensures forall k :: 0 <= k < |serviceCompilers| ==>
        && fresh(serviceCompilers[k].writer) && serviceCompilers[k].writer.buffer == []
        && serviceCompilers[k].writer.intends == 0 && serviceCompilers[k].writer.Cfg() == ConfigOf(options)
    {
      var w := new BaseCompiler(options);
      var def := DefinitionOf(options);
      var scs := SchemaServiceCompilers(filename, ast, def, options);
      writer := w;
      this.filename := filename;
      this.ast := ast;
      definition := def;
      serviceCompilers := scs;
    }

    /** The first sections `flush` writes into the types buffer: common
        type, includes, constants, typedefs, each only when the schema has
        it. */
    method WriteDeclarations()
      modifies writer
      ensures writer.buffer == EmitDeclarations(old(writer.buffer), writer.Cfg(), old(writer.intends), ast)
      ensures writer.intends == old(writer.intends)
    {
      ghost var b, c, n := writer.buffer, writer.Cfg(), writer.intends;
      writer.WriteCommonType();
      ghost var b1 := writer.buffer;
      if ast.includes.Some? {
        writer.WriteInclude(ast.includes.value);
      }
      assert writer.buffer == EmitImportsPart(b1, ast) && writer.intends == n;
      ghost var b2 := writer.buffer;
      if ast.consts.Some? {
        writer.WriteConst(ast.consts.value);
      }
      assert writer.buffer == EmitConstsPart(b2, c, n, ast) && writer.intends == n;
      ghost var b3 := writer.buffer;
      if ast.typedefs.Some? {
        writer.WriteTypeof(ast.typedefs.value);
      }
      assert writer.buffer == EmitTypedefsPart(b3, c, n, ast);
    }

    /** The later sections: enums, structs, unions, exceptions, each only
        when the schema has it. */
    method WriteTypeDecls(unions: UnionWriter)
      modifies writer
      ensures writer.buffer == EmitTypeDecls(old(writer.buffer), writer.Cfg(), old(writer.intends), ast, unions)
      ensures writer.intends == old(writer.intends)
    {
      ghost var b, c, n := writer.buffer, writer.Cfg(), writer.intends;
      if ast.enums.Some? {
        writer.WriteEnum(ast.enums.value);
      }
      assert writer.buffer == EmitEnumsPart(b, c, n, ast) && writer.intends == n;
      ghost var b5 := writer.buffer;
      if ast.structs.Some? {
        writer.WriteStructs(ast.structs.value);
      }
      assert writer.buffer == EmitStructsPart(b5, c, n, ast) && writer.intends == n;
      ghost var b6 := writer.buffer;
      if ast.unions.Some? {
        writer.Write(unions(writer.Cfg(), writer.intends, ast.unions.value));
      }
      assert writer.buffer == EmitUnionsPart(b6, c, n, ast, unions);
      ghost var b7 := writer.buffer;
      if ast.exceptions.Some? {
        writer.WriteExceptions(ast.exceptions.value);
      }
      assert writer.buffer == EmitExceptionsPart(b7, c, n, ast);
    }

    /** The types half of `flush`: every types section, in the fixed order. */
    method WriteTypes(unions: UnionWriter)
      modifies writer
      ensures writer.buffer == EmitSections(old(writer.buffer), writer.Cfg(), old(writer.intends), TypesSections(writer.Cfg(), old(writer.intends), ast, unions))
      ensures writer.intends == old(writer.intends)
    {
      ghost var b, c, n := writer.buffer, writer.Cfg(), writer.intends;
      WriteDeclarations();
      WriteTypeDecls(unions);
      TypesSectionsSteps(b, c, n, ast, unions);
    }

    /** The service half of `flush`: each service compiler flushed in
        creation order, one artifact each. */
    method FlushServices() returns (files: seq<File>)
      requires Valid()
      modifies set k | 0 <= k < |serviceCompilers| :: serviceCompilers[k].writer
      ensures |files| == |serviceCompilers|
      ensures forall k :: 0 <= k < |serviceCompilers| ==>
        serviceCompilers[k].writer.intends == old(serviceCompilers[k].writer.intends)
      ensures forall k :: 0 <= k < |serviceCompilers| ==>
        var sc := serviceCompilers[k];
        sc.writer.buffer == EmitSections(old(sc.writer.buffer), sc.writer.Cfg(), old(sc.writer.intends), ServiceSections(sc.includes, sc.service))
      ensures forall k :: 0 <= k < |serviceCompilers| ==>
        files[k] == File(ServiceFileName(serviceCompilers[k].name), Concat(serviceCompilers[k].writer.buffer))
    {
      files := [];
      var i := 0;
      while i < |serviceCompilers|
        invariant 0 <= i <= |serviceCompilers| && |files| == i
        invariant forall k :: 0 <= k < i ==>
          var sc := serviceCompilers[k];
          sc.writer.buffer == EmitSections(old(sc.writer.buffer), sc.writer.Cfg(), old(sc.writer.intends), ServiceSections(sc.includes, sc.service))
        invariant forall k :: 0 <= k < i ==>
          files[k] == File(ServiceFileName(serviceCompilers[k].name), Concat(serviceCompilers[k].writer.buffer))
        invariant forall k :: 0 <= k < |serviceCompilers| ==>
          serviceCompilers[k].writer.intends == old(serviceCompilers[k].writer.intends)
        invariant forall k :: i <= k < |serviceCompilers| ==>
          serviceCompilers[k].writer.buffer == old(serviceCompilers[k].writer.buffer)
      {
        var sc := serviceCompilers[i];
        label before:
        var f := sc.Flush();
        forall k | 0 <= k < |serviceCompilers| && k != i
          ensures serviceCompilers[k].writer.buffer == old@before(serviceCompilers[k].writer.buffer)
          ensures serviceCompilers[k].writer.intends == old@before(serviceCompilers[k].writer.intends)
        {
          assert serviceCompilers[k].writer != sc.writer;
        }
        files := files + [f];
        i := i + 1;
      }
    }

    /** `flush`: the types sections into this compiler's buffer, one
        artifact per service compiler in creation order, then the types
        artifact last.  The source writes the types sections before it
        flushes the service compilers; the writers are distinct objects, so
        flushing the services first yields the same buffers and artifacts. */
    method Flush(unions: UnionWriter) returns (files: seq<File>)
      requires Valid()
      modifies writer, set k | 0 <= k < |serviceCompilers| :: serviceCompilers[k].writer
      ensures writer.buffer == EmitSections(old(writer.buffer), writer.Cfg(), old(writer.intends), TypesSections(writer.Cfg(), old(writer.intends), ast, unions))
      ensures writer.intends == old(writer.intends)
      ensures |files| == |serviceCompilers| + 1
      ensures forall k :: 0 <= k < |serviceCompilers| ==>
        serviceCompilers[k].writer.intends == old(serviceCompilers[k].writer.intends)
      ensures forall k :: 0 <= k < |serviceCompilers| ==>
        var sc := serviceCompilers[k];
        sc.writer.buffer == EmitSections(old(sc.writer.buffer), sc.writer.Cfg(), old(sc.writer.intends), ServiceSections(sc.includes, sc.service))
      ensures forall k :: 0 <= k < |serviceCompilers| ==>
        files[k] == File(ServiceFileName(serviceCompilers[k].name), Concat(serviceCompilers[k].writer.buffer))
      ensures files[|serviceCompilers|] == File(TypesFileName(filename, definition), Concat(writer.buffer))
    {
      files := FlushServices();
      label serviced:
      WriteTypes(unions);
      forall k | 0 <= k < |serviceCompilers|
        ensures serviceCompilers[k].writer.buffer == old@serviced(serviceCompilers[k].writer.buffer)
        ensures serviceCompilers[k].writer.intends == old@serviced(serviceCompilers[k].writer.intends)
      {
        assert serviceCompilers[k].writer != writer;
      }
      files := files + [File(ThriftBasename(filename) + (if definition then "_types.d.ts" else ".ts"), Concat(writer.buffer))];
    }
  }

  /** The default export: compile one parsed schema into its artifacts,
      one per service in definition mode, then the types artifact. */
  method CompileFile(filename: string, ast: Schema, options: Option<CompileOptions>, unions: UnionWriter)
    returns (files: seq<File>)
    ensures var services := if ast.services.Some? && DefinitionOf(options) then ast.services.value else [];
      && |files| == |services| + 1
      && (forall k :: 0 <= k < |services| ==>
            files[k] == File(ServiceFileName(services[k].0),
              Concat(EmitSections([], ConfigOf(options), 0, ServiceSections(Some(ServiceIncludes(ast, ThriftBasename(filename))), services[k].1)))))
      && files[|services|] == File(TypesFileName(filename, DefinitionOf(options)),
           Concat(EmitSections([], ConfigOf(options), 0, TypesSections(ConfigOf(options), 0, ast, unions))))
  {
    var compiler := new Compile(filename, ast, options);
    files := compiler.Flush(unions);
  }

  /** The service artifacts of a compile, as text: the imports of the
      schema's includes and of the schema itself, the `Callback` and `Int64`
      declarations and the exported `Client` class. */
  lemma ServiceArtifactText(c: Config, includes: OrderedMap<Include>, s: Service)
    ensures Concat(EmitSections([], c, 0, ServiceSections(Some(includes), s))) == ServiceFileText(c, 0, Some(includes), s)
  {
    ServiceFileLines([], c, 0, Some(includes), s);
  }

  /** The types artifact of a compile, as text. */
  lemma TypesArtifactText(c: Config, ast: Schema, unions: UnionWriter)
    ensures Concat(EmitSections([], c, 0, TypesSections(c, 0, ast, unions))) == TypesText(c, 0, ast, unions)
  {
    TypesFileLines([], c, 0, ast, unions);
  }
}
