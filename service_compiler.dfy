/** One artifact per service (src/ServiceCompiler.ts).

    The source class extends `BaseCompiler`; here a `ServiceCompiler` owns a
    writer of its own, created fresh by its constructor, and drives it.
 */
module ServiceCompiler {
  import opened Text
  import opened ThriftAst
  import opened Options
  import opened Emit
  import opened Render
  import opened NodePath
  import opened BaseCompiler
  import opened Sections

  /** The sections `flush` writes, in order: the imports when `includes`
      is defined, the `Callback` type, the `Int64` type and the exported
      `Client` class. */
  function ServiceSections(includes: Option<OrderedMap<Include>>, s: Service): seq<Section>
  {
    (if includes.Some? then [Imports(includes.value)] else []) + [CallbackDecl, CommonType, Export, Client(s)]
  }

  /** The imports of `includes`, none when it is undefined. */
  function ImportsText(includes: Option<OrderedMap<Include>>): string
  {
    if includes.Some? then IncludesText(includes.value) else ""
  }

  /** The text of a service artifact, section by section. */
  function ServiceFileText(c: Config, n: int, includes: Option<OrderedMap<Include>>, s: Service): string
  {
    ImportsText(includes) + IndentText(c, n) + CallbackDeclaration + Int64Text(c, n) + ExportText(c, n) + ServiceText(c, n, s)
  }

  /** The sections every service artifact has, written one after the
      other. */
  lemma ClientSectionsSteps(b: Buffer, c: Config, n: int, s: Service)
    ensures EmitSections(b, c, n, [CallbackDecl, CommonType, Export, Client(s)])
      == EmitService(EmitExport(EmitCommonType(EmitCallbackDecl(b, c, n), c, n), c, n), c, n, s)
  {
    var s1, s2, s3 := [CallbackDecl], [CallbackDecl, CommonType], [CallbackDecl, CommonType, Export];
    EmitSectionsSnoc(b, c, n, [], CallbackDecl);
    assert [] + [CallbackDecl] == s1;
    EmitSectionsSnoc(b, c, n, s1, CommonType);
    assert s1 + [CommonType] == s2;
    EmitSectionsSnoc(b, c, n, s2, Export);
    assert s2 + [Export] == s3;
    EmitSectionsSnoc(b, c, n, s3, Client(s));
    assert s3 + [Client(s)] == [CallbackDecl, CommonType, Export, Client(s)];
  }

  /** The service sections, written one after the other. */
  lemma ServiceSectionsSteps(b: Buffer, c: Config, n: int, includes: Option<OrderedMap<Include>>, s: Service)
    ensures var b1 := if includes.Some? then EmitIncludes(b, includes.value) else b;
      EmitSections(b, c, n, ServiceSections(includes, s))
        == EmitService(EmitExport(EmitCommonType(EmitCallbackDecl(b1, c, n), c, n), c, n), c, n, s)
  {
    var head := if includes.Some? then [Imports(includes.value)] else [];
    var tail := [CallbackDecl, CommonType, Export, Client(s)];
    EmitSectionsAppend(b, c, n, head, tail);
    var b1 := EmitSections(b, c, n, head);
    assert b1 == if includes.Some? then EmitIncludes(b, includes.value) else b by {
      if includes.Some? {
        assert head[..0] == [];
      }
    }
    ClientSectionsSteps(b1, c, n, s);
  }

  /** Writing the service sections appends the artifact text. */
  lemma ServiceFileLines(b: Buffer, c: Config, n: int, includes: Option<OrderedMap<Include>>, s: Service)
    ensures Concat(EmitSections(b, c, n, ServiceSections(includes, s))) == Concat(b) + ServiceFileText(c, n, includes, s)
  {
    var b1 := if includes.Some? then EmitIncludes(b, includes.value) else b;
    assert Concat(b1) == Concat(b) + ImportsText(includes) by {
      if includes.Some? {
        IncludesLines(b, includes.value);
      }
    }
    var b2 := EmitCallbackDecl(b1, c, n);
    CallbackDeclLine(b1, c, n);
    var b3 := EmitCommonType(b2, c, n);
    CommonTypeLines(b2, c, n);
    var b4 := EmitExport(b3, c, n);
    ExportLine(b3, c, n);
    ServiceLines(b4, c, n, s);
    ServiceSectionsSteps(b, c, n, includes, s);
    Regroup6(Concat(b), ImportsText(includes), IndentText(c, n), CallbackDeclaration, Int64Text(c, n),
      ExportText(c, n), ServiceText(c, n, s));
  }

  /** Emitted at the top level, a service artifact without includes opens
      with the `Callback` declaration, and the `Client` class always comes
      last. */
  lemma ServiceFileOrder(c: Config, includes: Option<OrderedMap<Include>>, s: Service)
    ensures includes.None? ==> StartsWith(ServiceFileText(c, 0, includes, s), CallbackDeclaration)
    ensures EndsWith(ServiceFileText(c, 0, includes, s), ServiceText(c, 0, s))
  {
    var i, d, t, e, v := ImportsText(includes), CallbackDeclaration, Int64Text(c, 0), ExportText(c, 0), ServiceText(c, 0, s);
    var j := IndentText(c, 0);
    assert ServiceFileText(c, 0, includes, s) == i + j + d + t + e + v;
    EndsWithConcat(i + j + d + t + e, v);
    if includes.None? {
      assert j == "" by {
        IndentIsSpaces([], c, 0);
      }
      assert i + j + d == d;
      Regroup3(d, t, e, v);
      StartsWithConcat(d, t + e + v);
    }
  }

  /** The artifact name: the service name without a `.thrift` ending, with
      `.d.ts`. */
  function ServiceFileName(name: string): string
  {
    ThriftBasename(name) + ".d.ts"
  }

  class ServiceCompiler {
    const basename: string
    const name: string
    const service: Service
    const includes: Option<OrderedMap<Include>>
    /** The writer this instance appends to. */
    const writer: BaseCompiler

    constructor (basename: string, name: string, service: Service, includes: Option<OrderedMap<Include>>,
                 options: Option<CompileOptions>)
      ensures this.basename == basename && this.name == name && this.service == service && this.includes == includes
      ensures fresh(writer) && writer.buffer == [] && writer.intends == 0 && writer.Cfg() == ConfigOf(options)
    {
      this.basename := basename;
      this.name := name;
      this.service := service;
      this.includes := includes;
      writer := new BaseCompiler(options);
    }

    /** `flush`: write the sections, then hand back the artifact whose
        content is the writer's whole buffer, joined. */
    method Flush() returns (f: File)
      modifies writer
      ensures writer.buffer == EmitSections(old(writer.buffer), writer.Cfg(), old(writer.intends), ServiceSections(includes, service))
      ensures writer.intends == old(writer.intends)
      ensures f == File(ServiceFileName(name), Concat(writer.buffer))
    {
      ghost var b, n := writer.buffer, writer.intends;
      if includes.Some? {
        writer.WriteInclude(includes.value);
      }
      ghost var c, b1 := writer.Cfg(), writer.buffer;
      writer.WriteCallbackTypeDeclare();
      writer.WriteCommonType();
      assert writer.intends == n;
      writer.WExport();
      writer.WService(service);
      assert writer.buffer == EmitService(EmitExport(EmitCommonType(EmitCallbackDecl(b1, c, n), c, n), c, n), c, n, service);
      ServiceSectionsSteps(b, c, n, includes, service);
      f := File(ThriftBasename(name) + ".d.ts", Concat(writer.buffer));
    }
  }
}
