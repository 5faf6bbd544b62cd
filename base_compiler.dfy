/** The writer and the per-construct emitters of src/BaseCompiler.ts.

    An instance owns an append-only `buffer` of chunks and an indent counter
    `intends`.  Every emitter leaves the buffer the matching function of module
    `Emit` gives for the buffer and the counter at the time of the call, and
    leaves the counter where it found it.

    The source passes continuations (`next: Function`) to `wExport`, `wBlock`
    and `wBrackets`; Dafny methods cannot be passed as values, so each of these
    is split into the part written before the continuation and the part
    written after it, and the caller runs its continuation in between.
 */
module BaseCompiler {
  import opened Text
  import opened ThriftAst
  import opened Options
  import opened Emit

  class BaseCompiler {
    var intends: int
    const intendMode: IntendMode
    const tabSize: int
    var buffer: seq<string>
    const int64AsString: bool

    /** The configuration the emitters run under. */
    function Cfg(): Config
    {
      Config(tabSize, intendMode, int64AsString)
    }

    /** Field initialisers, then each option that is defined. */
    constructor (options: Option<CompileOptions>)
      ensures Cfg() == ConfigOf(options)
      ensures buffer == [] && intends == 0
    {
      intends := 0;
      intendMode := TabMode;
      tabSize := 2;
      buffer := [];
      int64AsString := false;
      if options.Some? {
        var o := options.value;
        if o.tabSize.Some? {
          tabSize := o.tabSize.value;
        }
        if o.spaceAsTab.Some? {
          intendMode := if o.spaceAsTab.value then SpaceMode else TabMode;
        }
        if o.int64AsString.Some? {
          int64AsString := o.int64AsString.value;
        }
      }
    }

    /** `write(...chunks)`: push every chunk, in order. */
    method Write(chunks: seq<string>)
      modifies this`buffer
      ensures buffer == old(buffer) + chunks
    {
      var i := 0;
      while i < |chunks|
        invariant 0 <= i <= |chunks|
        invariant buffer == old(buffer) + chunks[..i]
      {
        buffer := buffer + [chunks[i]];
        assert chunks[..i + 1] == chunks[..i] + [chunks[i]];
        i := i + 1;
      }
      assert chunks[..i] == chunks;
    }

    /** `wIntend`: for every unit of the counter, `tabSize` SPACE chunks in
        SPACE mode or one TAB chunk otherwise. */
    method WIntend()
      modifies this`buffer
      ensures buffer == old(buffer) + Indent(Cfg(), intends)
    {
      var width := Clamp(tabSize);
      var j := 0;
      while j < intends
        invariant 0 <= j <= Clamp(intends)
        invariant intendMode == SpaceMode ==> buffer == old(buffer) + seq(j * width, _ => SPACE)
        invariant intendMode == TabMode ==> buffer == old(buffer) + seq(j, _ => TAB)
      {
        if intendMode == SpaceMode {
          var i := 0;
          while i < tabSize
            invariant 0 <= i <= width
            invariant buffer == old(buffer) + seq(j * width + i, _ => SPACE)
          {
            Write([SPACE]);
            i := i + 1;
          }
          assert j * width + i == (j + 1) * width;
        } else {
          Write([TAB]);
        }
        j := j + 1;
      }
    }

    /** `increaseIntend`: a newline, then one level deeper. */
    method IncreaseIntend()
      modifies this
      ensures buffer == old(buffer) + ["\n"]
      ensures intends == old(intends) + tabSize
    {
      Write(["\n"]);
      intends := intends + tabSize;
    }

    /** `decreaseIntend(newline)`: a newline if asked, then one level up. */
    method DecreaseIntend(newline: bool)
      modifies this
      ensures buffer == if newline then old(buffer) + ["\n"] else old(buffer)
      ensures intends == old(intends) - tabSize
    {
      if newline {
        Write(["\n"]);
      }
      intends := intends - tabSize;
    }

    /** `wExport` up to its continuation, which the caller runs next. */
    method WExport()
      modifies this`buffer
      ensures buffer == EmitExport(old(buffer), Cfg(), intends)
    {
      WIntend();
      Write(["export", SPACE]);
    }

    /** `wBlock(inline, next)` up to `next`. */
    method WBlockOpen(inline: bool)
      modifies this`buffer
      ensures buffer == EmitBlockOpen(old(buffer), Cfg(), intends, inline)
    {
      if !inline {
        WIntend();
      }
      Write(["{"]);
    }

    /** `wBlock(inline, next)` after `next`. */
    method WBlockClose(inline: bool)
      modifies this`buffer
      ensures buffer == EmitBlockClose(old(buffer), Cfg(), intends, inline)
    {
      WIntend();
      Write(["}"]);
      if !inline {
        Write(["\n"]);
      }
    }

    /** `wValueType` on one type. */
    method WValueType(vt: ValueType)
      modifies this`buffer
      ensures buffer == EmitType(old(buffer), vt)
      decreases vt
    {
      match vt
      case Name(s) =>
        Write([TypeName(s)]);
      case ListOf(e) =>
        WValueType(e);
        Write(["[]"]);
      case MapOf(k, v) =>
        Write(["Map<"]);
        WValueType(k);
        Write([","]);
        WValueType(v);
        Write([">"]);
      case SetOf(e) =>
        Write(["Set<"]);
        WValueType(e);
        Write([">"]);
    }

    /** `wValueType` on an array of types: each type, and ` | ` after every
        one but the last. */
    method WAlternation(vts: seq<ValueType>)
      modifies this`buffer
      ensures buffer == EmitAlternation(old(buffer), vts)
    {
      var i := 0;
      while i < |vts|
        invariant 0 <= i <= |vts|
        invariant i == 0 ==> buffer == old(buffer)
        invariant 0 < i ==> buffer == EmitAlternation(old(buffer), vts[..i]) + (if i < |vts| then Bar else [])
      {
        assert vts[..i + 1][..i] == vts[..i];
        WValueType(vts[i]);
        if i != |vts| - 1 {
          Write(Bar);
        }
        i := i + 1;
      }
      assert vts[..i] == vts;
    }

    /** `wField`. */
    method WField(f: Field)
      modifies this`buffer
      ensures buffer == EmitField(old(buffer), Cfg(), intends, f)
    {
      WIntend();
      Write([f.name]);
      if f.option == Some(Optional) {
        Write(["?"]);
      }
      Write([":", SPACE]);
      WValueType(f.ty);
      Write([";", "\n"]);
    }

    /** `fields.forEach(wField)`. */
    method WFields(fields: seq<Field>)
      modifies this`buffer
      ensures buffer == EmitFields(old(buffer), Cfg(), intends, fields)
    {
      var i := 0;
      while i < |fields|
        invariant 0 <= i <= |fields|
        invariant buffer == EmitFields(old(buffer), Cfg(), intends, fields[..i])
      {
        assert fields[..i + 1][..i] == fields[..i];
        WField(fields[i]);
        i := i + 1;
      }
      assert fields[..i] == fields;
    }

    /** The continuation `wClass` hands to `wStructBody`: the constructor whose
        single optional argument has the struct's own field list as its shape. */
    method WConstructor(fields: seq<Field>)
      modifies this
      ensures buffer == EmitConstructor(old(buffer), Cfg(), old(intends), fields)
      ensures intends == old(intends)
    {
      ghost var c, m, b := Cfg(), intends, buffer;
      Write(["\n"]);
      WIntend();
      Write(["constructor"]);
      Write(["("]);
      Write(["arg?", ":", SPACE]);
      ghost var b1 := b + ["\n"] + Indent(c, m) + ["constructor"] + ["("] + ["arg?", ":", SPACE];
      assert buffer == b1;
      WBlockOpen(true);
      IncreaseIntend();
      WFields(fields);
      DecreaseIntend(false);
      assert intends == m;
      WBlockClose(true);
      Write([")"]);
      Write(["\n"]);
    }

    /** `wStructBody(fields, next)`, where `next` is the constructor of
        `wClass` when `withConstructor` holds and absent otherwise. */
    method WStructBody(fields: seq<Field>, withConstructor: bool)
      modifies this
      ensures buffer == EmitStructBody(old(buffer), Cfg(), old(intends), fields, withConstructor)
      ensures intends == old(intends)
    {
      ghost var c, n, b := Cfg(), intends, buffer;
      WBlockOpen(false);
      IncreaseIntend();
      assert buffer == EmitBlockOpen(b, c, n, false) + ["\n"];
      WFields(fields);
      if withConstructor {
        WConstructor(fields);
      }
      DecreaseIntend(false);
      assert intends == n;
      WBlockClose(false);
    }

    /** `wClass`. */
    method WClass(name: string, fields: seq<Field>)
      modifies this
      ensures buffer == EmitClass(old(buffer), Cfg(), old(intends), name, fields)
      ensures intends == old(intends)
    {
      WIntend();
      Write(["class", SPACE, name, SPACE]);
      WStructBody(fields, true);
      Write(["\n"]);
    }

    /** `wException`. */
    method WException(name: string, fields: seq<Field>)
      modifies this
      ensures buffer == EmitException(old(buffer), Cfg(), old(intends), name, fields)
      ensures intends == old(intends)
    {
      WIntend();
      Write(["type", SPACE, name, SPACE, "=", SPACE]);
      WStructBody(fields, false);
      Write(["\n"]);
    }

    /** `writeStructs`. */
    method WriteStructs(structs: OrderedMap<seq<Field>>)
      modifies this
      ensures buffer == EmitStructs(old(buffer), Cfg(), old(intends), structs)
      ensures intends == old(intends)
    {
      var i := 0;
      while i < |structs|
        invariant 0 <= i <= |structs| && intends == old(intends)
        invariant buffer == EmitStructs(old(buffer), Cfg(), intends, structs[..i])
      {
        assert structs[..i + 1][..i] == structs[..i];
        WExport();
        WClass(structs[i].0, structs[i].1);
        i := i + 1;
      }
      assert structs[..i] == structs;
    }

    /** `writeExceptions`. */
    method WriteExceptions(exceptions: OrderedMap<seq<Field>>)
      modifies this
      ensures buffer == EmitExceptions(old(buffer), Cfg(), old(intends), exceptions)
      ensures intends == old(intends)
    {
      var i := 0;
      while i < |exceptions|
        invariant 0 <= i <= |exceptions| && intends == old(intends)
        invariant buffer == EmitExceptions(old(buffer), Cfg(), intends, exceptions[..i])
      {
        assert exceptions[..i + 1][..i] == exceptions[..i];
        WExport();
        WException(exceptions[i].0, exceptions[i].1);
        i := i + 1;
      }
      assert exceptions[..i] == exceptions;
    }

    /** `writeInclude`: one import line per include, in key order. */
    method WriteInclude(includes: OrderedMap<Include>)
      modifies this`buffer
      ensures buffer == EmitIncludes(old(buffer), includes)
    {
      var i := 0;
      while i < |includes|
        invariant 0 <= i <= |includes|
        invariant buffer == EmitIncludes(old(buffer), includes[..i])
      {
        assert includes[..i + 1][..i] == includes[..i];
        var (k, inc) := includes[i];
        Write(["import", SPACE, "*", SPACE, "as", SPACE, k, SPACE, "from", SPACE, "'",
               IncludePath(inc.path), "';\n"]);
        i := i + 1;
      }
      assert includes[..i] == includes;
    }

    /** The item loop of `wEnum`: per item the indent, the name, the
        initialiser its kind calls for, then `,` and a newline. */
    method WEnumItems(items: seq<EnumItem>)
      modifies this`buffer
      ensures buffer == EmitEnumItems(old(buffer), Cfg(), intends, items)
    {
      var i := 0;
      while i < |items|
        invariant 0 <= i <= |items|
        invariant buffer == EmitEnumItems(old(buffer), Cfg(), intends, items[..i])
      {
        assert items[..i + 1][..i] == items[..i];
        var item := items[i];
        WIntend();
        Write([item.name]);
        match item.value {
          case EnumStr(s) => Write([SPACE, "=", SPACE, "'", s, "'"]);
          case EnumNum(k) => Write([SPACE, "=", SPACE, IntToString(k)]);
          case EnumBool(x) => Write([SPACE, "=", SPACE, if x then "true" else "false"]);
        }
        Write([",\n"]);
        i := i + 1;
      }
      assert items[..i] == items;
    }

    /** `wEnum`. */
    method WEnum(name: string, e: Enum)
      modifies this
      ensures buffer == EmitEnum(old(buffer), Cfg(), old(intends), name, e)
      ensures intends == old(intends)
    {
      ghost var c, n, b := Cfg(), intends, buffer;
      WIntend();
      WExport();
      Write(["enum", SPACE, name, SPACE]);
      ghost var b1 := EmitExport(b + Indent(c, n), c, n) + ["enum", SPACE, name, SPACE];
      assert buffer == b1;
      WBlockOpen(false);
      IncreaseIntend();
      ghost var b2 := EmitBlockOpen(b1, c, n, false) + ["\n"];
      assert buffer == b2;
      WEnumItems(e.items);
      DecreaseIntend(false);
      assert intends == n;
      WBlockClose(false);
      Write(["\n"]);
    }

    /** `writeEnum`. */
    method WriteEnum(enums: OrderedMap<Enum>)
      modifies this
      ensures buffer == EmitEnums(old(buffer), Cfg(), old(intends), enums)
      ensures intends == old(intends)
    {
      var i := 0;
      while i < |enums|
        invariant 0 <= i <= |enums| && intends == old(intends)
        invariant buffer == EmitEnums(old(buffer), Cfg(), intends, enums[..i])
      {
        assert enums[..i + 1][..i] == enums[..i];
        WEnum(enums[i].0, enums[i].1);
        i := i + 1;
      }
      assert enums[..i] == enums;
    }

    /** `wValue` (with `wString` and `wNumber`). */
    method WValue(v: Literal)
      modifies this
      ensures buffer == EmitValue(old(buffer), Cfg(), old(intends), v)
      ensures intends == old(intends)
      decreases v
    {
      match v
      case Str(s) =>
        Write(["'", s, "'"]);
      case Num(k) =>
        Write([IntToString(k)]);
      case Bool(_) =>
      case Arr(items) =>
        Write(["["]);
        WItems(items);
        Write(["]"]);
      case Obj(entries) =>
        WBlockOpen(true);
        IncreaseIntend();
        WEntries(entries);
        DecreaseIntend(true);
        WBlockClose(true);
    }

    /** The item loop of `wValue` on an array: each item, `, ` after every
        one but the last. */
    method WItems(items: seq<Literal>)
      modifies this
      ensures buffer == EmitItems(old(buffer), Cfg(), old(intends), items)
      ensures intends == old(intends)
      decreases items
    {
      var i := 0;
      while i < |items|
        invariant 0 <= i <= |items| && intends == old(intends)
        invariant i == 0 ==> buffer == old(buffer)
        invariant 0 < i ==> (buffer == EmitItems(old(buffer), Cfg(), intends, items[..i])
          + (if i < |items| then [",", SPACE] else []))
      {
        assert items[..i + 1][..i] == items[..i];
        WValue(items[i]);
        if i != |items| - 1 {
          Write([",", SPACE]);
        }
        i := i + 1;
      }
      assert items[..i] == items;
    }

    /** The key loop of `wValue` on an object: per key the indent, `key: `,
        the value, then `,` and a newline. */
    method WEntries(entries: seq<Entry>)
      modifies this
      ensures buffer == EmitEntries(old(buffer), Cfg(), old(intends), entries)
      ensures intends == old(intends)
      decreases entries
    {
      var i := 0;
      while i < |entries|
        invariant 0 <= i <= |entries| && intends == old(intends)
        invariant buffer == EmitEntries(old(buffer), Cfg(), intends, entries[..i])
      {
        assert entries[..i + 1][..i] == entries[..i];
        WIntend();
        Write([entries[i].key, ":", SPACE]);
        WValue(entries[i].value);
        Write([",\n"]);
        i := i + 1;
      }
      assert entries[..i] == entries;
    }

    /** `wConst`: an initialiser for a constant declared with a bare type
        name, a type annotation without initialiser otherwise. */
    method WConst(name: string, k: Const)
      modifies this
      ensures buffer == EmitConst(old(buffer), Cfg(), old(intends), name, k)
      ensures intends == old(intends)
    {
      WIntend();
      Write(["export", SPACE, "const", SPACE, name]);
      if k.declared.Name? {
        Write([SPACE, "=", SPACE]);
        WValue(k.value);
      } else {
        Write([":", SPACE]);
        WValueType(k.declared);
      }
      Write([";\n"]);
    }

    /** `writeConst`. */
    method WriteConst(consts: OrderedMap<Const>)
      modifies this
      ensures buffer == EmitConsts(old(buffer), Cfg(), old(intends), consts)
      ensures intends == old(intends)
    {
      var i := 0;
      while i < |consts|
        invariant 0 <= i <= |consts| && intends == old(intends)
        invariant buffer == EmitConsts(old(buffer), Cfg(), intends, consts[..i])
      {
        assert consts[..i + 1][..i] == consts[..i];
        WConst(consts[i].0, consts[i].1);
        i := i + 1;
      }
      assert consts[..i] == consts;
    }

    /** `writeTypeof`: `type K = T;` per typedef. */
    method WriteTypeof(typedefs: OrderedMap<ValueType>)
      modifies this`buffer
      ensures buffer == EmitTypedefs(old(buffer), Cfg(), intends, typedefs)
    {
      var i := 0;
      while i < |typedefs|
        invariant 0 <= i <= |typedefs|
        invariant buffer == EmitTypedefs(old(buffer), Cfg(), intends, typedefs[..i])
      {
        assert typedefs[..i + 1][..i] == typedefs[..i];
        WIntend();
        Write(["type", SPACE, typedefs[i].0, SPACE, "=", SPACE]);
        WValueType(typedefs[i].1);
        Write([";\n"]);
        i := i + 1;
      }
      assert typedefs[..i] == typedefs;
    }

    /** `writeCallbackTypeDeclare`. */
    method WriteCallbackTypeDeclare()
      modifies this`buffer
      ensures buffer == EmitCallbackDecl(old(buffer), Cfg(), intends)
    {
      WIntend();
      Write([CallbackDeclaration]);
    }

    /** `writeCommonType`: the `Int64` declaration the configuration selects. */
    method WriteCommonType()
      modifies this
      ensures buffer == EmitCommonType(old(buffer), Cfg(), old(intends))
      ensures intends == old(intends)
    {
      ghost var c, n, b := Cfg(), intends, buffer;
      if int64AsString {
        WIntend();
        Write(["type", SPACE, "Int64", SPACE, "=", SPACE, "string;", "\n"]);
      } else {
        WIntend();
        Write(["interface Int64 {"]);
        IncreaseIntend();
        WIntend();
        Write(["constructor(o?: number | string): this;", "\n"]);
        WIntend();
        Write(["toString(): string;", "\n"]);
        WIntend();
        Write(["toJson(): string;"]);
        ghost var m := Deeper(c, n);
        assert buffer == b + Indent(c, n) + ["interface Int64 {"] + ["\n"]
          + Indent(c, m) + ["constructor(o?: number | string): this;", "\n"]
          + Indent(c, m) + ["toString(): string;", "\n"]
          + Indent(c, m) + ["toJson(): string;"];
        DecreaseIntend(true);
        assert intends == n;
        WIntend();
        Write(["}\n\n"]);
      }
    }

    /** `wPromise`. */
    method WPromise(returnType: ValueType, throws: seq<Arg>)
      modifies this`buffer
      ensures buffer == EmitPromise(old(buffer), returnType, throws)
    {
      Write(["Promise", "<"]);
      WValueType(returnType);
      if |throws| > 0 {
        Write([",", SPACE]);
        Write([RawThrowTypes(throws)]);
      }
      Write([">"]);
    }

    /** `wMethodArgs`: the arguments with a countdown `left` deciding each
        separator, then the `callback` parameter when one is asked for. */
    method WMethodArgs(args: seq<Arg>, callback: Option<CallbackInfo>)
      modifies this`buffer
      ensures buffer == EmitMethodArgs(old(buffer), args, callback)
    {
      var left := if callback.Some? then |args| + 1 else |args|;
      ghost var total := left;
      var i := 0;
      while i < |args|
        invariant 0 <= i <= |args| && left == total - i
        invariant buffer == EmitArgLoop(old(buffer), args[..i], total)
      {
        assert args[..i + 1][..i] == args[..i];
        Write([args[i].name]);
        Write([":", SPACE]);
        WValueType(args[i].ty);
        left := left - 1;
        if left != 0 {
          Write([",", SPACE]);
        }
        i := i + 1;
      }
      assert args[..i] == args;
      if callback.Some? {
        var cb := callback.value;
        Write(["callback", ":", SPACE, "Callback", "<"]);
        WValueType(cb.returnType);
        Write([",", SPACE]);
        if |cb.exceptions| > 0 {
          var types := ThrowTypes(cb.exceptions);
          types := types + [Name("Error")];
          WAlternation(types);
          Write([">"]);
        } else {
          Write(["Error", ">"]);
        }
      }
    }

    /** `wMethod`: the callback-style signature, then the promise-style one. */
    method WMethod(m: Method)
      modifies this`buffer
      ensures buffer == EmitMethod(old(buffer), Cfg(), intends, m)
    {
      WIntend();
      Write([m.name]);
      Write(["("]);
      WMethodArgs(m.args, Some(CallbackInfo(m.returnType, m.throws)));
      Write([")"]);
      Write([":", SPACE, "void"]);
      Write([";"]);
      Write(["\n"]);
      WIntend();
      Write([m.name]);
      Write(["("]);
      WMethodArgs(m.args, None);
      Write([")"]);
      Write([":", SPACE]);
      WPromise(m.returnType, m.throws);
      Write([";"]);
      Write(["\n"]);
    }

    /** The method loop of `wService`: each method, a newline after every
        one but the last. */
    method WMethods(methods: OrderedMap<Method>)
      modifies this`buffer
      ensures buffer == EmitMethods(old(buffer), Cfg(), intends, methods)
    {
      var i := 0;
      while i < |methods|
        invariant 0 <= i <= |methods|
        invariant i == 0 ==> buffer == old(buffer)
        invariant 0 < i ==> (buffer == EmitMethods(old(buffer), Cfg(), intends, methods[..i])
          + (if i < |methods| then ["\n"] else []))
      {
        assert methods[..i + 1][..i] == methods[..i];
        WMethod(methods[i].1);
        if i != |methods| - 1 {
          Write(["\n"]);
        }
        i := i + 1;
      }
      assert methods[..i] == methods;
    }

    /** `wService`: class `Client` holding every method of the service. */
    method WService(s: Service)
      modifies this
      ensures buffer == EmitService(old(buffer), Cfg(), old(intends), s)
      ensures intends == old(intends)
    {
      ghost var c, n, b := Cfg(), intends, buffer;
      WIntend();
      Write(["class", SPACE, "Client", SPACE]);
      WBlockOpen(false);
      IncreaseIntend();
      ghost var b1 := EmitBlockOpen(b + Indent(c, n) + ["class", SPACE, "Client", SPACE], c, n, false) + ["\n"];
      assert buffer == b1;
      WMethods(s.functions);
      DecreaseIntend(false);
      assert intends == n;
      WBlockClose(false);
    }
  }
}
