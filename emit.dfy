/** What each emitter of src/BaseCompiler.ts leaves in the writer's buffer.

    Every function here takes the buffer `b` before the call and returns the
    buffer after it, given the writer configuration `c`, the indent counter
    `n` at the time of the call and the syntax tree handed to the emitter.
    Each `+ [...]` is one `write` call of the source and each `+ Indent(c, n)`
    one `wIntend`, in the order the source makes them, so the methods of class
    `BaseCompiler.BaseCompiler` are proved to append exactly this.  Module
    `Render` says what the resulting text reads.
 */
module Emit {
  import opened Text
  import opened ThriftAst
  import opened Options

  /** How often a JavaScript `for (i = 0; i < k; i++)` loop runs. */
  function Clamp(k: int): nat
  {
    if k < 0 then 0 else k
  }

  /** `wIntend` at counter `n`: `tabSize` SPACE chunks per counter unit in
      SPACE mode, one TAB chunk per counter unit otherwise. */
  function Indent(c: Config, n: int): seq<string>
  {
    if c.mode == SpaceMode then seq(Clamp(n) * Clamp(c.tabSize), _ => SPACE)
    else seq(Clamp(n), _ => TAB)
  }

  /** The counter one `increaseIntend` deeper. */
  function Deeper(c: Config, n: int): int
  {
    n + c.tabSize
  }

  /** `wBlock(inline, next)` up to `next`. */
  function EmitBlockOpen(b: Buffer, c: Config, n: int, inline: bool): Buffer
  {
    (if inline then b else b + Indent(c, n)) + ["{"]
  }

  /** `wBlock(inline, next)` after `next`, at the counter `next` left. */
  function EmitBlockClose(b: Buffer, c: Config, n: int, inline: bool): Buffer
  {
    var b1 := b + Indent(c, n) + ["}"];
    if inline then b1 else b1 + ["\n"]
  }

  /** `wExport` up to its continuation. */
  function EmitExport(b: Buffer, c: Config, n: int): Buffer
  {
    b + Indent(c, n) + ["export", SPACE]
  }

  // ---------------------------------------------------------------- types

  /** `getThriftTypeName`: the primitive table; `None` for every other name
      (`i8` and `binary` included). */
  function ThriftTypeName(t: string): Option<string>
  {
    match t
    case "int" => Some("number")
    case "bool" => Some("boolean")
    case "double" => Some("number")
    case "i32" => Some("number")
    case "i16" => Some("number")
    case "i64" => Some("Int64")
    case "string" => Some("string")
    case _ => None
  }

  /** `getTypeName`: a primitive's target name, any other name unchanged. */
  function TypeName(s: string): string
  {
    match ThriftTypeName(s)
    case Some(t) => t
    case None => s
  }

  /** `wValueType` on a single type. */
  function EmitType(b: Buffer, vt: ValueType): Buffer
    decreases vt
  {
    match vt
    case Name(s) => b + [TypeName(s)]
    case ListOf(e) => EmitType(b, e) + ["[]"]
    case MapOf(k, v) => EmitType(EmitType(b + ["Map<"], k) + [","], v) + [">"]
    case SetOf(e) => EmitType(b + ["Set<"], e) + [">"]
  }

  /** The separator `wValueType` writes between the members of a type array. */
  const Bar: seq<string> := [SPACE, "|", SPACE]

  /** `wValueType` on an array of types: each member, `Bar` after every one
      but the last. */
  function EmitAlternation(b: Buffer, vts: seq<ValueType>): Buffer
    decreases |vts|
  {
    if |vts| == 0 then b
    else if |vts| == 1 then EmitType(b, vts[0])
    else EmitType(EmitAlternation(b, vts[..|vts| - 1]) + Bar, vts[|vts| - 1])
  }

  // ------------------------------------------------------- struct bodies

  /** `wField`. */
  function EmitField(b: Buffer, c: Config, n: int, f: Field): Buffer
  {
    var b1 := b + Indent(c, n) + [f.name];
    var b2 := if f.option == Some(Optional) then b1 + ["?"] else b1;
    EmitType(b2 + [":", SPACE], f.ty) + [";", "\n"]
  }

  /** `fields.forEach(wField)`. */
  function EmitFields(b: Buffer, c: Config, n: int, fields: seq<Field>): Buffer
    decreases |fields|
  {
    if fields == [] then b
    else EmitField(EmitFields(b, c, n, fields[..|fields| - 1]), c, n, fields[|fields| - 1])
  }

  /** The continuation `wClass` hands to `wStructBody`, run at counter `m`:
      `constructor(arg?: {` the fields one level deeper `})`. */
  function EmitConstructor(b: Buffer, c: Config, m: int, fields: seq<Field>): Buffer
  {
    var b1 := b + ["\n"] + Indent(c, m) + ["constructor"] + ["("] + ["arg?", ":", SPACE];
    var b2 := EmitFields(EmitBlockOpen(b1, c, m, true) + ["\n"], c, Deeper(c, m), fields);
    EmitBlockClose(b2, c, m, true) + [")"] + ["\n"]
  }

  /** `wStructBody(fields, next)`, where `next` is `wClass`'s constructor when
      `withConstructor` holds and absent otherwise. */
  function EmitStructBody(b: Buffer, c: Config, n: int, fields: seq<Field>, withConstructor: bool): Buffer
  {
    var m := Deeper(c, n);
    var b1 := EmitFields(EmitBlockOpen(b, c, n, false) + ["\n"], c, m, fields);
    var b2 := if withConstructor then EmitConstructor(b1, c, m, fields) else b1;
    EmitBlockClose(b2, c, n, false)
  }

  /** `wClass`. */
  function EmitClass(b: Buffer, c: Config, n: int, name: string, fields: seq<Field>): Buffer
  {
    EmitStructBody(b + Indent(c, n) + ["class", SPACE, name, SPACE], c, n, fields, true) + ["\n"]
  }

  /** `wException`. */
  function EmitException(b: Buffer, c: Config, n: int, name: string, fields: seq<Field>): Buffer
  {
    EmitStructBody(b + Indent(c, n) + ["type", SPACE, name, SPACE, "=", SPACE], c, n, fields, false) + ["\n"]
  }

  /** `writeStructs`: every struct as an exported class, in key order. */
  function EmitStructs(b: Buffer, c: Config, n: int, structs: OrderedMap<seq<Field>>): Buffer
    decreases |structs|
  {
    if structs == [] then b
    else
      var (k, fields) := structs[|structs| - 1];
      EmitClass(EmitExport(EmitStructs(b, c, n, structs[..|structs| - 1]), c, n), c, n, k, fields)
  }

  /** `writeExceptions`: every exception as an exported type alias. */
  function EmitExceptions(b: Buffer, c: Config, n: int, exceptions: OrderedMap<seq<Field>>): Buffer
    decreases |exceptions|
  {
    if exceptions == [] then b
    else
      var (k, fields) := exceptions[|exceptions| - 1];
      EmitException(EmitExport(EmitExceptions(b, c, n, exceptions[..|exceptions| - 1]), c, n), c, n, k, fields)
  }

  // ------------------------------------------------------------ includes

  /** The characters JavaScript's `.` does not match. */
  predicate IsLineTerminator(ch: char)
  {
    ch == '\n' || ch == '\r' || ch == '\U{2028}' || ch == '\U{2029}'
  }

  /** The index of the first line terminator of `s`, or `|s|`. */
  function LineEnd(s: string): (k: nat)
    ensures k <= |s|
    ensures forall i :: 0 <= i < k ==> !IsLineTerminator(s[i])
    ensures k < |s| ==> IsLineTerminator(s[k])
  {
    if s == [] then 0 else if IsLineTerminator(s[0]) then 0 else 1 + LineEnd(s[1..])
  }

  /** The index of the last `ch` in `s`, if any. */
  function LastIndexOf(s: string, ch: char): (r: Option<nat>)
    ensures r.None? ==> ch !in s
    ensures r.Some? ==> r.value < |s| && s[r.value] == ch && ch !in s[r.value + 1..]
  {
    if s == [] then None
    else if s[|s| - 1] == ch then Some(|s| - 1)
    else
      var r := LastIndexOf(s[..|s| - 1], ch);
      assert forall i :: 0 <= i < |s| - 1 ==> s[..|s| - 1][i] == s[i];
      r
  }

  /** `p.replace(/.*\//, '')`: the first match starts at the beginning of the
      first line that holds a `/` and runs greedily to the last `/` of that
      line; it is removed. */
  function StripDirPrefix(p: string): string
    decreases |p|
  {
    var k := LineEnd(p);
    match LastIndexOf(p[..k], '/')
    case Some(j) => p[j + 1..]
    case None => if k == |p| then p else p[..k + 1] + StripDirPrefix(p[k + 1..])
  }

  /** `s.replace(/.thrift$/, '')`: the unescaped `.` matches any character but
      a line terminator, so `athrift` loses its last seven characters too. */
  function StripThriftExt(s: string): string
  {
    if |s| >= 7 && s[|s| - 6..] == "thrift" && !IsLineTerminator(s[|s| - 7]) then s[..|s| - 7]
    else s
  }

  /** `getIncludePath` inside `writeInclude`. */
  function IncludePath(path: string): string
  {
    "./" + StripThriftExt(StripDirPrefix(path)) + "_types"
  }

  /** `writeInclude`: one `write` call per include, in key order. */
  function EmitIncludes(b: Buffer, includes: OrderedMap<Include>): Buffer
    decreases |includes|
  {
    if includes == [] then b
    else
      var (k, inc) := includes[|includes| - 1];
      EmitIncludes(b, includes[..|includes| - 1])
        + ["import", SPACE, "*", SPACE, "as", SPACE, k, SPACE, "from", SPACE, "'", IncludePath(inc.path), "';\n"]
  }

  // --------------------------------------------------------------- enums

  /** The initialiser of an enum item, by the kind of its value. */
  function EmitEnumValue(b: Buffer, v: EnumValue): Buffer
  {
    match v
    case EnumStr(s) => b + [SPACE, "=", SPACE, "'", s, "'"]
    case EnumNum(k) => b + [SPACE, "=", SPACE, IntToString(k)]
    case EnumBool(x) => b + [SPACE, "=", SPACE, if x then "true" else "false"]
  }

  /** The items of `wEnum`, at counter `m`. */
  function EmitEnumItems(b: Buffer, c: Config, m: int, items: seq<EnumItem>): Buffer
    decreases |items|
  {
    if items == [] then b
    else
      var item := items[|items| - 1];
      EmitEnumValue(EmitEnumItems(b, c, m, items[..|items| - 1]) + Indent(c, m) + [item.name], item.value)
        + [",\n"]
  }

  /** `wEnum`: the indent is written twice, once by `wEnum` and once by
      `wExport`. */
  function EmitEnum(b: Buffer, c: Config, n: int, name: string, e: Enum): Buffer
  {
    var b1 := EmitExport(b + Indent(c, n), c, n) + ["enum", SPACE, name, SPACE];
    var b2 := EmitEnumItems(EmitBlockOpen(b1, c, n, false) + ["\n"], c, Deeper(c, n), e.items);
    EmitBlockClose(b2, c, n, false) + ["\n"]
  }

  /** `writeEnum`. */
  function EmitEnums(b: Buffer, c: Config, n: int, enums: OrderedMap<Enum>): Buffer
    decreases |enums|
  {
    if enums == [] then b
    else
      var (k, e) := enums[|enums| - 1];
      EmitEnum(EmitEnums(b, c, n, enums[..|enums| - 1]), c, n, k, e)
  }

  // ---------------------------------------------------- constants, typedefs

  /** `wValue` (with `wString` and `wNumber`): strings quoted, numbers in
      decimal, arrays `[a, b]`, objects as an inline block with one
      `key: value,` line each; a boolean matches no branch and writes nothing. */
  function EmitValue(b: Buffer, c: Config, n: int, v: Literal): Buffer
    decreases v
  {
    match v
    case Str(s) => b + ["'", s, "'"]
    case Num(k) => b + [IntToString(k)]
    case Bool(_) => b
    case Arr(items) => EmitItems(b + ["["], c, n, items) + ["]"]
    case Obj(entries) =>
      var inner := EmitEntries(EmitBlockOpen(b, c, n, true) + ["\n"], c, Deeper(c, n), entries);
      EmitBlockClose(inner + ["\n"], c, n, true)
  }

  /** The items of an array literal, `, ` after every one but the last. */
  function EmitItems(b: Buffer, c: Config, n: int, items: seq<Literal>): Buffer
    decreases items
  {
    if |items| == 0 then b
    else if |items| == 1 then EmitValue(b, c, n, items[0])
    else EmitValue(EmitItems(b, c, n, items[..|items| - 1]) + [",", SPACE], c, n, items[|items| - 1])
  }

  /** The `key: value,` lines of an object literal, at counter `m`. */
  function EmitEntries(b: Buffer, c: Config, m: int, entries: seq<Entry>): Buffer
    decreases entries
  {
    if entries == [] then b
    else
      var e := entries[|entries| - 1];
      EmitValue(EmitEntries(b, c, m, entries[..|entries| - 1]) + Indent(c, m) + [e.key, ":", SPACE], c, m, e.value)
        + [",\n"]
  }

  /** `wConst`: an initialiser for a constant declared with a bare type
      name, a type annotation and no initialiser otherwise. */
  function EmitConst(b: Buffer, c: Config, n: int, name: string, k: Const): Buffer
  {
    var b1 := b + Indent(c, n) + ["export", SPACE, "const", SPACE, name];
    var b2 := if k.declared.Name? then EmitValue(b1 + [SPACE, "=", SPACE], c, n, k.value)
              else EmitType(b1 + [":", SPACE], k.declared);
    b2 + [";\n"]
  }

  /** `writeConst`. */
  function EmitConsts(b: Buffer, c: Config, n: int, consts: OrderedMap<Const>): Buffer
    decreases |consts|
  {
    if consts == [] then b
    else
      var (name, k) := consts[|consts| - 1];
      EmitConst(EmitConsts(b, c, n, consts[..|consts| - 1]), c, n, name, k)
  }

  /** One typedef of `writeTypeof` (no `export`). */
  function EmitTypedef(b: Buffer, c: Config, n: int, name: string, t: ValueType): Buffer
  {
    EmitType(b + Indent(c, n) + ["type", SPACE, name, SPACE, "=", SPACE], t) + [";\n"]
  }

  /** `writeTypeof`. */
  function EmitTypedefs(b: Buffer, c: Config, n: int, typedefs: OrderedMap<ValueType>): Buffer
    decreases |typedefs|
  {
    if typedefs == [] then b
    else
      var (name, t) := typedefs[|typedefs| - 1];
      EmitTypedef(EmitTypedefs(b, c, n, typedefs[..|typedefs| - 1]), c, n, name, t)
  }

  // --------------------------------------------------------- common types

  const CallbackDeclaration: string := "type Callback<T, E> = (err: E, resp: T) => void;\n\n"

  /** `writeCallbackTypeDeclare`. */
  function EmitCallbackDecl(b: Buffer, c: Config, n: int): Buffer
  {
    b + Indent(c, n) + [CallbackDeclaration]
  }

  /** `writeCommonType`: the `Int64` alias or the `Int64` interface. */
  function EmitCommonType(b: Buffer, c: Config, n: int): Buffer
  {
    if c.int64AsString then
      b + Indent(c, n) + ["type", SPACE, "Int64", SPACE, "=", SPACE, "string;", "\n"]
    else
      var m := Deeper(c, n);
      b + Indent(c, n) + ["interface Int64 {"] + ["\n"]
        + Indent(c, m) + ["constructor(o?: number | string): this;", "\n"]
        + Indent(c, m) + ["toString(): string;", "\n"]
        + Indent(c, m) + ["toJson(): string;"] + ["\n"]
        + Indent(c, n) + ["}\n\n"]
  }

  // ------------------------------------------------------------- services

  /** `String(vt)` as `Array.prototype.join` computes it: a type name as it
      stands (no primitive mapping), a container type as `[object Object]`. */
  function RawTypeString(vt: ValueType): string
  {
    if vt.Name? then vt.name else "[object Object]"
  }

  /** `throws.map(e => e.type)`. */
  function ThrowTypes(throws: seq<Arg>): (r: seq<ValueType>)
    ensures |r| == |throws| && forall i :: 0 <= i < |throws| ==> r[i] == throws[i].ty
  {
    seq(|throws|, i requires 0 <= i < |throws| => throws[i].ty)
  }

  /** `throws.map(e => e.type).join(' | ')`. */
  function RawThrowTypes(throws: seq<Arg>): string
  {
    Join(seq(|throws|, i requires 0 <= i < |throws| => RawTypeString(throws[i].ty)), " | ")
  }

  /** `wPromise`. */
  function EmitPromise(b: Buffer, returnType: ValueType, throws: seq<Arg>): Buffer
  {
    var b1 := EmitType(b + ["Promise", "<"], returnType);
    var b2 := if |throws| > 0 then b1 + [",", SPACE] + [RawThrowTypes(throws)] else b1;
    b2 + [">"]
  }

  /** The argument loop of `wMethodArgs` with its countdown started at `left`:
      after each argument the countdown drops by one and `, ` follows unless
      it reached 0. */
  function EmitArgLoop(b: Buffer, args: seq<Arg>, left: int): Buffer
    decreases |args|
  {
    if args == [] then b
    else
      var a := args[|args| - 1];
      var b1 := EmitType(EmitArgLoop(b, args[..|args| - 1], left) + [a.name] + [":", SPACE], a.ty);
      if left - |args| != 0 then b1 + [",", SPACE] else b1
  }

  /** What `wMethodArgs(args, callback)` asks for a callback parameter. */
  datatype CallbackInfo = CallbackInfo(returnType: ValueType, exceptions: seq<Arg>)

  /** The `callback` parameter of `wMethodArgs`. */
  function EmitCallbackParam(b: Buffer, cb: CallbackInfo): Buffer
  {
    var b1 := EmitType(b + ["callback", ":", SPACE, "Callback", "<"], cb.returnType) + [",", SPACE];
    if |cb.exceptions| > 0 then EmitAlternation(b1, ThrowTypes(cb.exceptions) + [Name("Error")]) + [">"]
    else b1 + ["Error", ">"]
  }

  /** `wMethodArgs`. */
  function EmitMethodArgs(b: Buffer, args: seq<Arg>, callback: Option<CallbackInfo>): Buffer
  {
    var b1 := EmitArgLoop(b, args, if callback.Some? then |args| + 1 else |args|);
    match callback
    case Some(cb) => EmitCallbackParam(b1, cb)
    case None => b1
  }

  /** `wMethod`: the callback-style signature, then the promise-style one. */
  function EmitMethod(b: Buffer, c: Config, n: int, m: Method): Buffer
  {
    var b1 := EmitMethodArgs(b + Indent(c, n) + [m.name] + ["("], m.args, Some(CallbackInfo(m.returnType, m.throws)))
      + [")"] + [":", SPACE, "void"] + [";"] + ["\n"];
    var b2 := EmitMethodArgs(b1 + Indent(c, n) + [m.name] + ["("], m.args, None) + [")"] + [":", SPACE];
    EmitPromise(b2, m.returnType, m.throws) + [";"] + ["\n"]
  }

  /** The methods of `wService`, a newline after every one but the last. */
  function EmitMethods(b: Buffer, c: Config, m: int, methods: OrderedMap<Method>): Buffer
    decreases |methods|
  {
    if |methods| == 0 then b
    else if |methods| == 1 then EmitMethod(b, c, m, methods[0].1)
    else EmitMethod(EmitMethods(b, c, m, methods[..|methods| - 1]) + ["\n"], c, m, methods[|methods| - 1].1)
  }

  /** `wService`: class `Client` holding every method of the service. */
  function EmitService(b: Buffer, c: Config, n: int, s: Service): Buffer
  {
    var b1 := EmitBlockOpen(b + Indent(c, n) + ["class", SPACE, "Client", SPACE], c, n, false) + ["\n"];
    EmitBlockClose(EmitMethods(b1, c, Deeper(c, n), s.functions), c, n, false)
  }
}
