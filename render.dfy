/** What the emitted declarations read as text.

    The functions here render the declarations directly as strings, the way
    a reader of the generated `.d.ts` sees them.  Each lemma proves that the
    matching emitter of module `Emit`, joined with `Concat`, appends exactly
    that text to what the buffer held.
 */
module Render {
  import opened Text
  import opened ThriftAst
  import opened Options
  import opened Emit
  import opened NodePath

  // ---------------------------------------------------------- indentation

  /** How many indent chunks `wIntend` writes at counter `n`. */
  function IndentWidth(c: Config, n: int): nat
  {
    if c.mode == SpaceMode then Clamp(n) * Clamp(c.tabSize) else Clamp(n)
  }

  /** The text of `wIntend`: both indent units are one space character. */
  function IndentText(c: Config, n: int): string
  {
    Spaces(IndentWidth(c, n))
  }

  lemma {:induction false} ConcatSpaces(k: nat)
    ensures Concat(seq(k, _ => SPACE)) == Spaces(k)
  {
    if k > 0 {
      assert seq(k, _ => SPACE)[..k - 1] == seq(k - 1, _ => SPACE);
      ConcatSpaces(k - 1);
      assert Spaces(k) == Spaces(k - 1) + " ";
    }
  }

  /** `wIntend` writes `tabSize` spaces per counter unit in SPACE mode and one
      space per counter unit otherwise, nothing for a counter at or below 0. */
  lemma IndentIsSpaces(b: Buffer, c: Config, n: int)
    ensures Concat(b + Indent(c, n)) == Concat(b) + IndentText(c, n)
    ensures |IndentText(c, n)| == if c.mode == SpaceMode then Clamp(n) * Clamp(c.tabSize) else Clamp(n)
    ensures n <= 0 ==> IndentText(c, n) == ""
  {
    ConcatAppend(b, Indent(c, n));
    var k := IndentWidth(c, n);
    assert Indent(c, n) == seq(k, _ => SPACE);
    ConcatSpaces(k);
  }

  // ---------------------------------------------------------------- types

  /** `getTypeName`: the Thrift primitives map to TypeScript types, every
      other name is kept; a mapped name maps to itself. */
  lemma TypeNameTable(s: string)
    ensures s == "int" || s == "double" || s == "i32" || s == "i16" ==> TypeName(s) == "number"
    ensures s == "bool" ==> TypeName(s) == "boolean"
    ensures s == "i64" ==> TypeName(s) == "Int64"
    ensures s == "string" ==> TypeName(s) == "string"
    ensures s !in ["int", "double", "i32", "i16", "bool", "i64", "string"] ==> TypeName(s) == s
    ensures TypeName(TypeName(s)) == TypeName(s)
  {
  }

  /** The TypeScript text of a Thrift type. */
  function TsType(vt: ValueType): string
  {
    match vt
    case Name(s) => TypeName(s)
    case ListOf(e) => TsType(e) + "[]"
    case MapOf(k, v) => "Map<" + TsType(k) + "," + TsType(v) + ">"
    case SetOf(e) => "Set<" + TsType(e) + ">"
  }

  /** `wValueType` writes the TypeScript text of the type: a list as its
      element type with `[]`, a map as `Map<K,V>` with no space after the
      comma, a set as `Set<T>`. */
  lemma {:induction false} TypeText(b: Buffer, vt: ValueType)
    ensures Concat(EmitType(b, vt)) == Concat(b) + TsType(vt)
    decreases vt
  {
    var p := Concat(b);
    match vt
    case Name(s) =>
    case ListOf(e) =>
      TypeText(b, e);
      Assoc(p, TsType(e), "[]");
    case MapOf(k, v) =>
      TypeText(b + ["Map<"], k);
      TypeText(EmitType(b + ["Map<"], k) + [","], v);
      calc {
        Concat(EmitType(b, vt));
        p + "Map<" + TsType(k) + "," + TsType(v) + ">";
        { Assoc(p, "Map<", TsType(k)); }
        p + ("Map<" + TsType(k)) + "," + TsType(v) + ">";
        { Assoc(p, "Map<" + TsType(k), ","); }
        p + ("Map<" + TsType(k) + ",") + TsType(v) + ">";
        { Assoc(p, "Map<" + TsType(k) + ",", TsType(v)); }
        p + ("Map<" + TsType(k) + "," + TsType(v)) + ">";
        { Assoc(p, "Map<" + TsType(k) + "," + TsType(v), ">"); }
        p + TsType(vt);
      }
    case SetOf(e) =>
      TypeText(b + ["Set<"], e);
      calc {
        Concat(EmitType(b, vt));
        p + "Set<" + TsType(e) + ">";
        { Assoc(p, "Set<", TsType(e)); }
        p + ("Set<" + TsType(e)) + ">";
        { Assoc(p, "Set<" + TsType(e), ">"); }
        p + TsType(vt);
      }
  }

  /** The TypeScript text of every type of `vts`. */
  function TsTypes(vts: seq<ValueType>): (r: seq<string>)
    ensures |r| == |vts| && forall i :: 0 <= i < |vts| ==> r[i] == TsType(vts[i])
  {
    if vts == [] then [] else TsTypes(vts[..|vts| - 1]) + [TsType(vts[|vts| - 1])]
  }

  /** `wValueType` on an array of types writes their texts joined by ` | `. */
  lemma {:induction false} AlternationText(b: Buffer, vts: seq<ValueType>)
    ensures Concat(EmitAlternation(b, vts)) == Concat(b) + Join(TsTypes(vts), " | ")
    decreases |vts|
  {
    var p := Concat(b);
    if |vts| == 1 {
      TypeText(b, vts[0]);
    } else if |vts| > 1 {
      var init, last := vts[..|vts| - 1], vts[|vts| - 1];
      assert vts == init + [last];
      AlternationText(b, init);
      var q := Join(TsTypes(init), " | ");
      ConcatPush3(EmitAlternation(b, init), SPACE, "|", SPACE);
      TypeText(EmitAlternation(b, init) + Bar, last);
      calc {
        Concat(EmitAlternation(b, vts));
        p + q + SPACE + "|" + SPACE + TsType(last);
        { Assoc(p + q, SPACE, "|");
          Assoc(p + q, SPACE + "|", SPACE);
          assert SPACE + "|" + SPACE == " | "; }
        p + q + " | " + TsType(last);
        { Assoc(p, q, " | "); }
        p + (q + " | ") + TsType(last);
        { Assoc(p, q + " | ", TsType(last)); }
        p + Join(TsTypes(vts), " | ");
      }
    }
  }

  // --------------------------------------------------------------- fields

  /** The declaration line of a field at counter `n`. */
  function FieldText(c: Config, n: int, f: Field): string
  {
    IndentText(c, n) + f.name + (if f.option == Some(Optional) then "?" else "") + ":" + SPACE + TsType(f.ty) + ";" + "\n"
  }

  /** `wField` writes the indent, the name, `?` exactly when the field is
      optional, `: `, the field's type and `;` with a newline, and nothing
      else. */
  lemma FieldLine(b: Buffer, c: Config, n: int, f: Field)
    ensures Concat(EmitField(b, c, n, f)) == Concat(b) + FieldText(c, n, f)
  {
    var q := if f.option == Some(Optional) then "?" else "";
    var b1 := b + Indent(c, n) + [f.name];
    var b2 := if f.option == Some(Optional) then b1 + ["?"] else b1;
    IndentIsSpaces(b, c, n);
    assert Concat(b2) == Concat(b) + IndentText(c, n) + f.name + q;
    ConcatPush2(b2, ":", SPACE);
    TypeText(b2 + [":", SPACE], f.ty);
    ConcatPush2(EmitType(b2 + [":", SPACE], f.ty), ";", "\n");
    Regroup8(Concat(b), IndentText(c, n), f.name, q, ":", SPACE, TsType(f.ty), ";", "\n");
  }

  /** The lines of a field list, in order. */
  function FieldsText(c: Config, n: int, fields: seq<Field>): string
  {
    if fields == [] then "" else FieldsText(c, n, fields[..|fields| - 1]) + FieldText(c, n, fields[|fields| - 1])
  }

  /** `fields.forEach(wField)` writes one declaration line per field, in order. */
  lemma {:induction false} FieldsLines(b: Buffer, c: Config, n: int, fields: seq<Field>)
    ensures Concat(EmitFields(b, c, n, fields)) == Concat(b) + FieldsText(c, n, fields)
    decreases |fields|
  {
    if fields != [] {
      var init, last := fields[..|fields| - 1], fields[|fields| - 1];
      FieldsLines(b, c, n, init);
      FieldLine(EmitFields(b, c, n, init), c, n, last);
      Assoc(Concat(b), FieldsText(c, n, init), FieldText(c, n, last));
    }
  }

  /** The opening of the constructor `wClass` declares, up to its brace. */
  function ConstructorHeadText(c: Config, m: int): string
  {
    "\n" + IndentText(c, m) + "constructor" + "(" + "arg?" + ":" + SPACE + "{" + "\n"
  }

  lemma ConstructorHead(b: Buffer, c: Config, m: int)
    ensures Concat(b + ["\n"] + Indent(c, m) + ["constructor"] + ["("] + ["arg?", ":", SPACE] + ["{"] + ["\n"])
      == Concat(b) + ConstructorHeadText(c, m)
  {
    var b0 := b + ["\n"];
    IndentIsSpaces(b0, c, m);
    ConcatPush3(b0 + Indent(c, m) + ["constructor"] + ["("], "arg?", ":", SPACE);
    Regroup9(Concat(b), "\n", IndentText(c, m), "constructor", "(", "arg?", ":", SPACE, "{", "\n");
  }

  /** The constructor `wClass` declares, at counter `m`: its one optional
      argument lists the same fields as the class, one level deeper. */
  function ConstructorText(c: Config, m: int, fields: seq<Field>): string
  {
    ConstructorHeadText(c, m) + FieldsText(c, Deeper(c, m), fields) + IndentText(c, m) + "}" + ")" + "\n"
  }

  lemma ConstructorLines(b: Buffer, c: Config, m: int, fields: seq<Field>)
    ensures Concat(EmitConstructor(b, c, m, fields)) == Concat(b) + ConstructorText(c, m, fields)
  {
    var b1 := b + ["\n"] + Indent(c, m) + ["constructor"] + ["("] + ["arg?", ":", SPACE] + ["{"] + ["\n"];
    ConstructorHead(b, c, m);
    var b2 := EmitFields(b1, c, Deeper(c, m), fields);
    FieldsLines(b1, c, Deeper(c, m), fields);
    IndentIsSpaces(b2, c, m);
    ConcatPush(b2 + Indent(c, m), "}");
    ConcatPush(b2 + Indent(c, m) + ["}"], ")");
    ConcatPush(b2 + Indent(c, m) + ["}"] + [")"], "\n");
    assert EmitConstructor(b, c, m, fields) == b2 + Indent(c, m) + ["}"] + [")"] + ["\n"];
    Regroup6(Concat(b), ConstructorHeadText(c, m), FieldsText(c, Deeper(c, m), fields), IndentText(c, m), "}", ")", "\n");
  }

  /** `wStructBody` at counter `n`: the field lines and, for a class, the
      constructor, between braces. */
  function StructBodyText(c: Config, n: int, fields: seq<Field>, withConstructor: bool): string
  {
    IndentText(c, n) + "{" + "\n" + FieldsText(c, Deeper(c, n), fields)
      + (if withConstructor then ConstructorText(c, Deeper(c, n), fields) else "")
      + IndentText(c, n) + "}" + "\n"
  }

  lemma StructBodyLines(b: Buffer, c: Config, n: int, fields: seq<Field>, withConstructor: bool)
    ensures Concat(EmitStructBody(b, c, n, fields, withConstructor))
      == Concat(b) + StructBodyText(c, n, fields, withConstructor)
  {
    var m := Deeper(c, n);
    var b0 := b + Indent(c, n) + ["{"] + ["\n"];
    IndentIsSpaces(b, c, n);
    ConcatPush2(b + Indent(c, n), "{", "\n");
    var b1 := EmitFields(b0, c, m, fields);
    FieldsLines(b0, c, m, fields);
    var b2 := if withConstructor then EmitConstructor(b1, c, m, fields) else b1;
    var k := if withConstructor then ConstructorText(c, m, fields) else "";
    if withConstructor {
      ConstructorLines(b1, c, m, fields);
    }
    assert Concat(b2) == Concat(b1) + k;
    IndentIsSpaces(b2, c, n);
    ConcatPush2(b2 + Indent(c, n), "}", "\n");
    assert EmitStructBody(b, c, n, fields, withConstructor) == b2 + Indent(c, n) + ["}"] + ["\n"];
    Regroup8(Concat(b), IndentText(c, n), "{", "\n", FieldsText(c, m, fields), k, IndentText(c, n), "}", "\n");
  }

  /** `wClass`: `class Name` and the struct body with its constructor. */
  function ClassText(c: Config, n: int, name: string, fields: seq<Field>): string
  {
    IndentText(c, n) + "class" + SPACE + name + SPACE + StructBodyText(c, n, fields, true) + "\n"
  }

  lemma ClassLines(b: Buffer, c: Config, n: int, name: string, fields: seq<Field>)
    ensures Concat(EmitClass(b, c, n, name, fields)) == Concat(b) + ClassText(c, n, name, fields)
  {
    var b1 := b + Indent(c, n) + ["class", SPACE, name, SPACE];
    IndentIsSpaces(b, c, n);
    ConcatPush4(b + Indent(c, n), "class", SPACE, name, SPACE);
    StructBodyLines(b1, c, n, fields, true);
    Regroup7(Concat(b), IndentText(c, n), "class", SPACE, name, SPACE, StructBodyText(c, n, fields, true), "\n");
  }

  /** `wException`: a type alias of the struct body, without constructor. */
  function ExceptionText(c: Config, n: int, name: string, fields: seq<Field>): string
  {
    IndentText(c, n) + "type" + SPACE + name + SPACE + "=" + SPACE + StructBodyText(c, n, fields, false) + "\n"
  }

  lemma ExceptionLines(b: Buffer, c: Config, n: int, name: string, fields: seq<Field>)
    ensures Concat(EmitException(b, c, n, name, fields)) == Concat(b) + ExceptionText(c, n, name, fields)
  {
    var b1 := b + Indent(c, n) + ["type", SPACE, name, SPACE, "=", SPACE];
    IndentIsSpaces(b, c, n);
    ConcatPush6(b + Indent(c, n), "type", SPACE, name, SPACE, "=", SPACE);
    StructBodyLines(b1, c, n, fields, false);
    Regroup9(Concat(b), IndentText(c, n), "type", SPACE, name, SPACE, "=", SPACE,
      StructBodyText(c, n, fields, false), "\n");
  }

  /** What `wExport` writes before its continuation. */
  function ExportText(c: Config, n: int): string
  {
    IndentText(c, n) + "export" + SPACE
  }

  lemma ExportLine(b: Buffer, c: Config, n: int)
    ensures Concat(EmitExport(b, c, n)) == Concat(b) + ExportText(c, n)
  {
    IndentIsSpaces(b, c, n);
    ConcatPush2(b + Indent(c, n), "export", SPACE);
    Regroup3(Concat(b), IndentText(c, n), "export", SPACE);
  }

  /** Every struct as an exported class, in key order. */
  function StructsText(c: Config, n: int, structs: OrderedMap<seq<Field>>): string
  {
    if structs == [] then ""
    else
      var (k, fields) := structs[|structs| - 1];
      StructsText(c, n, structs[..|structs| - 1]) + ExportText(c, n) + ClassText(c, n, k, fields)
  }

  /** `writeStructs` declares every struct as an exported class, in key order. */
  lemma {:induction false} StructsLines(b: Buffer, c: Config, n: int, structs: OrderedMap<seq<Field>>)
    ensures Concat(EmitStructs(b, c, n, structs)) == Concat(b) + StructsText(c, n, structs)
    decreases |structs|
  {
    if structs != [] {
      var init := structs[..|structs| - 1];
      var (k, fields) := structs[|structs| - 1];
      StructsLines(b, c, n, init);
      ExportLine(EmitStructs(b, c, n, init), c, n);
      ClassLines(EmitExport(EmitStructs(b, c, n, init), c, n), c, n, k, fields);
      Regroup3(Concat(b), StructsText(c, n, init), ExportText(c, n), ClassText(c, n, k, fields));
    }
  }

  /** Every exception as an exported type alias, in key order. */
  function ExceptionsText(c: Config, n: int, exceptions: OrderedMap<seq<Field>>): string
  {
    if exceptions == [] then ""
    else
      var (k, fields) := exceptions[|exceptions| - 1];
      ExceptionsText(c, n, exceptions[..|exceptions| - 1]) + ExportText(c, n) + ExceptionText(c, n, k, fields)
  }

  /** `writeExceptions` declares every exception as an exported type alias. */
  lemma {:induction false} ExceptionsLines(b: Buffer, c: Config, n: int, exceptions: OrderedMap<seq<Field>>)
    ensures Concat(EmitExceptions(b, c, n, exceptions)) == Concat(b) + ExceptionsText(c, n, exceptions)
    decreases |exceptions|
  {
    if exceptions != [] {
      var init := exceptions[..|exceptions| - 1];
      var (k, fields) := exceptions[|exceptions| - 1];
      ExceptionsLines(b, c, n, init);
      ExportLine(EmitExceptions(b, c, n, init), c, n);
      ExceptionLines(EmitExport(EmitExceptions(b, c, n, init), c, n), c, n, k, fields);
      Regroup3(Concat(b), ExceptionsText(c, n, init), ExportText(c, n), ExceptionText(c, n, k, fields));
    }
  }

  // ---------------------------------------------------------------- enums

  /** The initialiser of an enum item: ` = 'text'`, ` = 7` or ` = true`. */
  function EnumValueText(v: EnumValue): string
  {
    match v
    case EnumStr(s) => SPACE + "=" + SPACE + "'" + s + "'"
    case EnumNum(k) => SPACE + "=" + SPACE + IntToString(k)
    case EnumBool(x) => SPACE + "=" + SPACE + (if x then "true" else "false")
  }

  lemma EnumValueLine(b: Buffer, v: EnumValue)
    ensures Concat(EmitEnumValue(b, v)) == Concat(b) + EnumValueText(v)
  {
    match v
    case EnumStr(s) =>
      ConcatPush6(b, SPACE, "=", SPACE, "'", s, "'");
      Regroup6(Concat(b), SPACE, "=", SPACE, "'", s, "'");
    case EnumNum(k) =>
      ConcatPush4(b, SPACE, "=", SPACE, IntToString(k));
      Regroup4(Concat(b), SPACE, "=", SPACE, IntToString(k));
    case EnumBool(x) =>
      ConcatPush4(b, SPACE, "=", SPACE, if x then "true" else "false");
      Regroup4(Concat(b), SPACE, "=", SPACE, if x then "true" else "false");
  }

  /** One item line of an enum body, at counter `m`. */
  function EnumItemText(c: Config, m: int, item: EnumItem): string
  {
    IndentText(c, m) + item.name + EnumValueText(item.value) + ",\n"
  }

  lemma EnumItemLine(b: Buffer, c: Config, m: int, item: EnumItem)
    ensures Concat(EmitEnumValue(b + Indent(c, m) + [item.name], item.value) + [",\n"])
      == Concat(b) + EnumItemText(c, m, item)
  {
    IndentIsSpaces(b, c, m);
    EnumValueLine(b + Indent(c, m) + [item.name], item.value);
    Regroup4(Concat(b), IndentText(c, m), item.name, EnumValueText(item.value), ",\n");
  }

  function EnumItemsText(c: Config, m: int, items: seq<EnumItem>): string
  {
    if items == [] then "" else EnumItemsText(c, m, items[..|items| - 1]) + EnumItemText(c, m, items[|items| - 1])
  }

  /** The body of `wEnum` holds one line per item, in order. */
  lemma {:induction false} EnumItemsLines(b: Buffer, c: Config, m: int, items: seq<EnumItem>)
    ensures Concat(EmitEnumItems(b, c, m, items)) == Concat(b) + EnumItemsText(c, m, items)
    decreases |items|
  {
    if items != [] {
      var init := items[..|items| - 1];
      EnumItemsLines(b, c, m, init);
      EnumItemLine(EmitEnumItems(b, c, m, init), c, m, items[|items| - 1]);
      Assoc(Concat(b), EnumItemsText(c, m, init), EnumItemText(c, m, items[|items| - 1]));
    }
  }

  /** The opening of `wEnum`, up to its brace: the indent comes twice, once
      from `wEnum` and once from `wExport`. */
  function EnumHeadText(c: Config, n: int, name: string): string
  {
    IndentText(c, n) + ExportText(c, n) + "enum" + SPACE + name + SPACE + IndentText(c, n) + "{" + "\n"
  }

  lemma EnumHead(b: Buffer, c: Config, n: int, name: string)
    ensures Concat(EmitBlockOpen(EmitExport(b + Indent(c, n), c, n) + ["enum", SPACE, name, SPACE], c, n, false) + ["\n"])
      == Concat(b) + EnumHeadText(c, n, name)
  {
    var b0 := b + Indent(c, n);
    IndentIsSpaces(b, c, n);
    ExportLine(b0, c, n);
    var b1 := EmitExport(b0, c, n) + ["enum", SPACE, name, SPACE];
    ConcatPush4(EmitExport(b0, c, n), "enum", SPACE, name, SPACE);
    IndentIsSpaces(b1, c, n);
    ConcatPush2(b1 + Indent(c, n), "{", "\n");
    assert EmitBlockOpen(b1, c, n, false) + ["\n"] == b1 + Indent(c, n) + ["{"] + ["\n"];
    Regroup9(Concat(b), IndentText(c, n), ExportText(c, n), "enum", SPACE, name, SPACE, IndentText(c, n), "{", "\n");
  }

  /** `wEnum`: an exported TypeScript enum with one line per item. */
  function EnumText(c: Config, n: int, name: string, e: Enum): string
  {
    EnumHeadText(c, n, name) + EnumItemsText(c, Deeper(c, n), e.items) + IndentText(c, n) + "}" + "\n" + "\n"
  }

  lemma EnumLines(b: Buffer, c: Config, n: int, name: string, e: Enum)
    ensures Concat(EmitEnum(b, c, n, name, e)) == Concat(b) + EnumText(c, n, name, e)
  {
    var b1 := EmitBlockOpen(EmitExport(b + Indent(c, n), c, n) + ["enum", SPACE, name, SPACE], c, n, false) + ["\n"];
    EnumHead(b, c, n, name);
    var b2 := EmitEnumItems(b1, c, Deeper(c, n), e.items);
    EnumItemsLines(b1, c, Deeper(c, n), e.items);
    IndentIsSpaces(b2, c, n);
    ConcatPush(b2 + Indent(c, n), "}");
    ConcatPush(b2 + Indent(c, n) + ["}"], "\n");
    ConcatPush(b2 + Indent(c, n) + ["}"] + ["\n"], "\n");
    assert EmitEnum(b, c, n, name, e) == b2 + Indent(c, n) + ["}"] + ["\n"] + ["\n"];
    Regroup6(Concat(b), EnumHeadText(c, n, name), EnumItemsText(c, Deeper(c, n), e.items), IndentText(c, n), "}", "\n", "\n");
  }

  function EnumsText(c: Config, n: int, enums: OrderedMap<Enum>): string
  {
    if enums == [] then ""
    else
      var (k, e) := enums[|enums| - 1];
      EnumsText(c, n, enums[..|enums| - 1]) + EnumText(c, n, k, e)
  }

  /** `writeEnum` declares every enum, in key order. */
  lemma {:induction false} EnumsLines(b: Buffer, c: Config, n: int, enums: OrderedMap<Enum>)
    ensures Concat(EmitEnums(b, c, n, enums)) == Concat(b) + EnumsText(c, n, enums)
    decreases |enums|
  {
    if enums != [] {
      var init := enums[..|enums| - 1];
      var (k, e) := enums[|enums| - 1];
      EnumsLines(b, c, n, init);
      EnumLines(EmitEnums(b, c, n, init), c, n, k, e);
      Assoc(Concat(b), EnumsText(c, n, init), EnumText(c, n, k, e));
    }
  }

  // ------------------------------------------------------------- literals

  /** The TypeScript text of a constant's value at counter `n`. */
  function ValueText(c: Config, n: int, v: Literal): string
    decreases v
  {
    match v
    case Str(s) => "'" + s + "'"
    case Num(k) => IntToString(k)
    case Bool(_) => ""
    case Arr(items) => "[" + Join(ItemTexts(c, n, items), ", ") + "]"
    case Obj(entries) => "{" + "\n" + EntriesText(c, Deeper(c, n), entries) + "\n" + IndentText(c, n) + "}"
  }

  function ItemTexts(c: Config, n: int, items: seq<Literal>): (r: seq<string>)
    ensures |r| == |items|
    decreases items
  {
    if items == [] then [] else ItemTexts(c, n, items[..|items| - 1]) + [ValueText(c, n, items[|items| - 1])]
  }

  /** One `key: value,` line of an object literal, at counter `m`. */
  function EntryText(c: Config, m: int, e: Entry): string
    decreases e
  {
    IndentText(c, m) + e.key + ":" + SPACE + ValueText(c, m, e.value) + ",\n"
  }

  function EntriesText(c: Config, m: int, entries: seq<Entry>): string
    decreases entries
  {
    if entries == [] then "" else EntriesText(c, m, entries[..|entries| - 1]) + EntryText(c, m, entries[|entries| - 1])
  }

  /** `wValue` writes the value's text. */
  lemma {:induction false} ValueLine(b: Buffer, c: Config, n: int, v: Literal)
    ensures Concat(EmitValue(b, c, n, v)) == Concat(b) + ValueText(c, n, v)
    decreases v
  {
    match v
    case Str(s) =>
      ConcatPush3(b, "'", s, "'");
      Regroup3(Concat(b), "'", s, "'");
    case Num(k) =>
    case Bool(_) =>
    case Arr(items) =>
      ItemsLine(b + ["["], c, n, items);
      Regroup3(Concat(b), "[", Join(ItemTexts(c, n, items), ", "), "]");
    case Obj(entries) =>
      var b0 := b + ["{"] + ["\n"];
      var inner := EmitEntries(b0, c, Deeper(c, n), entries);
      EntriesLines(b0, c, Deeper(c, n), entries);
      IndentIsSpaces(inner + ["\n"], c, n);
      assert EmitValue(b, c, n, v) == inner + ["\n"] + Indent(c, n) + ["}"];
      Regroup6(Concat(b), "{", "\n", EntriesText(c, Deeper(c, n), entries), "\n", IndentText(c, n), "}");
  }

  /** The items of an array literal joined by `, `. */
  lemma {:induction false} ItemsLine(b: Buffer, c: Config, n: int, items: seq<Literal>)
    ensures Concat(EmitItems(b, c, n, items)) == Concat(b) + Join(ItemTexts(c, n, items), ", ")
    decreases items
  {
    if |items| == 1 {
      ValueLine(b, c, n, items[0]);
    } else if |items| > 1 {
      var init, last := items[..|items| - 1], items[|items| - 1];
      var prev := EmitItems(b, c, n, init);
      var j := Join(ItemTexts(c, n, init), ", ");
      ItemsLine(b, c, n, init);
      ConcatPush2(prev, ",", SPACE);
      ValueLine(prev + [",", SPACE], c, n, last);
      JoinSnoc(ItemTexts(c, n, init), ValueText(c, n, last), ", ");
      Assoc(Concat(b) + j, ",", SPACE);
      Regroup3(Concat(b), j, ", ", ValueText(c, n, last));
    }
  }

  lemma {:induction false} EntryLine(b: Buffer, c: Config, m: int, e: Entry)
    ensures Concat(EmitValue(b + Indent(c, m) + [e.key, ":", SPACE], c, m, e.value) + [",\n"])
      == Concat(b) + EntryText(c, m, e)
    decreases e
  {
    IndentIsSpaces(b, c, m);
    ConcatPush3(b + Indent(c, m), e.key, ":", SPACE);
    ValueLine(b + Indent(c, m) + [e.key, ":", SPACE], c, m, e.value);
    Regroup6(Concat(b), IndentText(c, m), e.key, ":", SPACE, ValueText(c, m, e.value), ",\n");
  }

  /** The lines of an object literal, one per entry, in order. */
  lemma {:induction false} EntriesLines(b: Buffer, c: Config, m: int, entries: seq<Entry>)
    ensures Concat(EmitEntries(b, c, m, entries)) == Concat(b) + EntriesText(c, m, entries)
    decreases entries
  {
    if entries != [] {
      var init, last := entries[..|entries| - 1], entries[|entries| - 1];
      EntriesLines(b, c, m, init);
      EntryLine(EmitEntries(b, c, m, init), c, m, last);
      Assoc(Concat(b), EntriesText(c, m, init), EntryText(c, m, last));
    }
  }

  // ------------------------------------------------------------ constants

  /** After the name: ` = value` for a constant declared with a bare type
      name, `: Type` and no value otherwise. */
  function ConstTailText(c: Config, n: int, k: Const): string
  {
    if k.declared.Name? then SPACE + "=" + SPACE + ValueText(c, n, k.value)
    else ":" + SPACE + TsType(k.declared)
  }

  function ConstText(c: Config, n: int, name: string, k: Const): string
  {
    IndentText(c, n) + "export" + SPACE + "const" + SPACE + name + ConstTailText(c, n, k) + ";\n"
  }

  /** `wConst` exports a `const` with a value or with a type annotation. */
  lemma ConstLine(b: Buffer, c: Config, n: int, name: string, k: Const)
    ensures Concat(EmitConst(b, c, n, name, k)) == Concat(b) + ConstText(c, n, name, k)
  {
    var b1 := b + Indent(c, n) + ["export", SPACE, "const", SPACE, name];
    IndentIsSpaces(b, c, n);
    ConcatPush5(b + Indent(c, n), "export", SPACE, "const", SPACE, name);
    if k.declared.Name? {
      ConcatPush3(b1, SPACE, "=", SPACE);
      ValueLine(b1 + [SPACE, "=", SPACE], c, n, k.value);
      Regroup4(Concat(b1), SPACE, "=", SPACE, ValueText(c, n, k.value));
    } else {
      ConcatPush2(b1, ":", SPACE);
      TypeText(b1 + [":", SPACE], k.declared);
      Regroup3(Concat(b1), ":", SPACE, TsType(k.declared));
    }
    Regroup8(Concat(b), IndentText(c, n), "export", SPACE, "const", SPACE, name, ConstTailText(c, n, k), ";\n");
  }

  function ConstsText(c: Config, n: int, consts: OrderedMap<Const>): string
  {
    if consts == [] then ""
    else
      var (name, k) := consts[|consts| - 1];
      ConstsText(c, n, consts[..|consts| - 1]) + ConstText(c, n, name, k)
  }

  /** `writeConst` declares every constant, in key order. */
  lemma {:induction false} ConstsLines(b: Buffer, c: Config, n: int, consts: OrderedMap<Const>)
    ensures Concat(EmitConsts(b, c, n, consts)) == Concat(b) + ConstsText(c, n, consts)
    decreases |consts|
  {
    if consts != [] {
      var init := consts[..|consts| - 1];
      var (name, k) := consts[|consts| - 1];
      ConstsLines(b, c, n, init);
      ConstLine(EmitConsts(b, c, n, init), c, n, name, k);
      Assoc(Concat(b), ConstsText(c, n, init), ConstText(c, n, name, k));
    }
  }

  // ------------------------------------------------------------- typedefs

  function TypedefText(c: Config, n: int, name: string, t: ValueType): string
  {
    IndentText(c, n) + "type" + SPACE + name + SPACE + "=" + SPACE + TsType(t) + ";\n"
  }

  /** One typedef of `writeTypeof`: a type alias, not exported. */
  lemma TypedefLine(b: Buffer, c: Config, n: int, name: string, t: ValueType)
    ensures Concat(EmitTypedef(b, c, n, name, t)) == Concat(b) + TypedefText(c, n, name, t)
  {
    var b1 := b + Indent(c, n) + ["type", SPACE, name, SPACE, "=", SPACE];
    IndentIsSpaces(b, c, n);
    ConcatPush6(b + Indent(c, n), "type", SPACE, name, SPACE, "=", SPACE);
    TypeText(b1, t);
    Regroup9(Concat(b), IndentText(c, n), "type", SPACE, name, SPACE, "=", SPACE, TsType(t), ";\n");
  }

  function TypedefsText(c: Config, n: int, typedefs: OrderedMap<ValueType>): string
  {
    if typedefs == [] then ""
    else
      var (name, t) := typedefs[|typedefs| - 1];
      TypedefsText(c, n, typedefs[..|typedefs| - 1]) + TypedefText(c, n, name, t)
  }

  /** `writeTypeof` declares every typedef, in key order. */
  lemma {:induction false} TypedefsLines(b: Buffer, c: Config, n: int, typedefs: OrderedMap<ValueType>)
    ensures Concat(EmitTypedefs(b, c, n, typedefs)) == Concat(b) + TypedefsText(c, n, typedefs)
    decreases |typedefs|
  {
    if typedefs != [] {
      var init := typedefs[..|typedefs| - 1];
      var (name, t) := typedefs[|typedefs| - 1];
      TypedefsLines(b, c, n, init);
      TypedefLine(EmitTypedefs(b, c, n, init), c, n, name, t);
      Assoc(Concat(b), TypedefsText(c, n, init), TypedefText(c, n, name, t));
    }
  }

  /** `typedef list<T> TList` becomes `type TList = T[];` at the top level. */
  lemma TypedefListExample(c: Config)
    ensures TypedefText(c, 0, "TList", ListOf(Name("T"))) == "type TList = T[];\n"
  {
    IndentIsSpaces([], c, 0);
    assert TypeName("T") == "T";
  }

  // ------------------------------------------------------------- includes

  /** The import `writeInclude` writes for include `k`. */
  function ImportText(k: string, inc: Include): string
  {
    "import" + SPACE + "*" + SPACE + "as" + SPACE + k + SPACE + "from" + SPACE + "'" + IncludePath(inc.path) + "';\n"
  }

  function IncludesText(includes: OrderedMap<Include>): string
  {
    if includes == [] then ""
    else
      var (k, inc) := includes[|includes| - 1];
      IncludesText(includes[..|includes| - 1]) + ImportText(k, inc)
  }

  /** `writeInclude` imports every include as a namespace, in key order. */
  lemma {:induction false} IncludesLines(b: Buffer, includes: OrderedMap<Include>)
    ensures Concat(EmitIncludes(b, includes)) == Concat(b) + IncludesText(includes)
    decreases |includes|
  {
    if includes != [] {
      var init := includes[..|includes| - 1];
      var (k, inc) := includes[|includes| - 1];
      var prev := EmitIncludes(b, init);
      IncludesLines(b, init);
      ConcatPush13(prev, "import", SPACE, "*", SPACE, "as", SPACE, k, SPACE, "from", SPACE, "'", IncludePath(inc.path), "';\n");
      Regroup13(Concat(prev), "import", SPACE, "*", SPACE, "as", SPACE, k, SPACE, "from", SPACE, "'", IncludePath(inc.path), "';\n");
      Assoc(Concat(b), IncludesText(init), ImportText(k, inc));
    }
  }

  // --------------------------------------------------------- common types

  lemma CallbackDeclLine(b: Buffer, c: Config, n: int)
    ensures Concat(EmitCallbackDecl(b, c, n)) == Concat(b) + IndentText(c, n) + CallbackDeclaration
  {
    IndentIsSpaces(b, c, n);
  }

  /** `writeCommonType`: `Int64` is a string alias when `int64AsString` is
      set and an interface with a constructor and two methods otherwise. */
  function Int64Text(c: Config, n: int): string
  {
    if c.int64AsString then
      IndentText(c, n) + "type" + SPACE + "Int64" + SPACE + "=" + SPACE + "string;" + "\n"
    else
      IndentText(c, n) + "interface Int64 {" + "\n"
        + IndentText(c, Deeper(c, n)) + "constructor(o?: number | string): this;" + "\n"
        + IndentText(c, Deeper(c, n)) + "toString(): string;" + "\n"
        + IndentText(c, Deeper(c, n)) + "toJson(): string;" + "\n"
        + IndentText(c, n) + "}\n\n"
  }

  lemma CommonTypeLines(b: Buffer, c: Config, n: int)
    ensures Concat(EmitCommonType(b, c, n)) == Concat(b) + Int64Text(c, n)
  {
    IndentIsSpaces(b, c, n);
    if c.int64AsString {
      ConcatPush8(b + Indent(c, n), "type", SPACE, "Int64", SPACE, "=", SPACE, "string;", "\n");
      Regroup9(Concat(b), IndentText(c, n), "type", SPACE, "Int64", SPACE, "=", SPACE, "string;", "\n");
    } else {
      var m := Deeper(c, n);
      var b1 := b + Indent(c, n) + ["interface Int64 {"] + ["\n"];
      var b2 := b1 + Indent(c, m) + ["constructor(o?: number | string): this;", "\n"];
      var b3 := b2 + Indent(c, m) + ["toString(): string;", "\n"];
      var b4 := b3 + Indent(c, m) + ["toJson(): string;"] + ["\n"];
      IndentIsSpaces(b1, c, m);
      ConcatPush2(b1 + Indent(c, m), "constructor(o?: number | string): this;", "\n");
      IndentIsSpaces(b2, c, m);
      ConcatPush2(b2 + Indent(c, m), "toString(): string;", "\n");
      IndentIsSpaces(b3, c, m);
      IndentIsSpaces(b4, c, n);
      assert EmitCommonType(b, c, n) == b4 + Indent(c, n) + ["}\n\n"];
      Regroup14(Concat(b), IndentText(c, n), "interface Int64 {", "\n",
        IndentText(c, m), "constructor(o?: number | string): this;", "\n",
        IndentText(c, m), "toString(): string;", "\n",
        IndentText(c, m), "toJson(): string;", "\n",
        IndentText(c, n), "}\n\n");
    }
  }

  // ---------------------------------------------------------- import paths

  predicate NoLineTerminator(s: string)
  {
    forall i :: 0 <= i < |s| ==> !IsLineTerminator(s[i])
  }

  /** On one line, the directory part of a path is everything up to its
      last `/`. */
  lemma StripDirOfPath(dir: string, base: string)
    requires NoLineTerminator(dir) && NoLineTerminator(base) && '/' !in base
    ensures StripDirPrefix(dir + "/" + base) == base
  {
    var p := dir + "/" + base;
    assert NoLineTerminator(p) by {
      forall i | 0 <= i < |p|
        ensures !IsLineTerminator(p[i])
      {
        if i < |dir| { assert p[i] == dir[i]; }
        else if i > |dir| { assert p[i] == base[i - |dir| - 1]; }
      }
    }
    assert LineEnd(p) == |p|;
    assert p[..|p|] == p;
    LastSlash(dir, base);
    assert p[|dir| + 1..] == base;
  }

  /** A bare file name on one line keeps every character. */
  lemma StripDirOfName(base: string)
    requires NoLineTerminator(base) && '/' !in base
    ensures StripDirPrefix(base) == base
  {
    assert LineEnd(base) == |base|;
    assert base[..|base|] == base;
  }

  /** The `.thrift` extension is removed. */
  lemma StripThriftOfName(name: string)
    ensures StripThriftExt(name + ".thrift") == name
  {
    var s := name + ".thrift";
    assert s[|s| - 6..] == "thrift";
    assert s[|s| - 7] == '.';
    assert s[..|s| - 7] == name;
  }

  /** The unescaped `.` of `/.thrift$/` matches any character but a line
      terminator: a name ending in `xthrift` loses those seven characters. */
  lemma StripThriftAnyChar(name: string, x: char)
    requires !IsLineTerminator(x)
    ensures StripThriftExt(name + [x] + "thrift") == name
  {
    var s := name + [x] + "thrift";
    assert s[|s| - 6..] == "thrift";
    assert s[|s| - 7] == x;
    assert s[..|s| - 7] == name;
  }

  /** An include `dir/name.thrift` is imported from `./name_types`: the
      directory is dropped and the extension replaced.  The six spellings of
      `test.thrift` the unit tests use (bare, `./`, `/test/`, `./test/`,
      `../`, `../test/`) are all instances. */
  lemma IncludePathOfFile(dir: string, name: string)
    requires NoLineTerminator(dir) && NoLineTerminator(name) && '/' !in name
    ensures IncludePath(dir + "/" + name + ".thrift") == "./" + name + "_types"
    ensures IncludePath(name + ".thrift") == "./" + name + "_types"
  {
    var base := name + ".thrift";
    assert NoLineTerminator(base) by {
      forall i | 0 <= i < |base|
        ensures !IsLineTerminator(base[i])
      {
        if i < |name| { assert base[i] == name[i]; }
      }
    }
    assert '/' !in base by {
      forall i | 0 <= i < |base|
        ensures base[i] != '/'
      {
        if i < |name| { assert base[i] == name[i]; }
      }
    }
    StripDirOfPath(dir, base);
    assert dir + "/" + name + ".thrift" == dir + "/" + base;
    StripDirOfName(base);
    StripThriftOfName(name);
  }

  // ------------------------------------------------------------- services

  /** One parameter `name: Type`. */
  function ArgText(a: Arg): string
  {
    a.name + ":" + SPACE + TsType(a.ty)
  }

  function ArgTexts(args: seq<Arg>): (r: seq<string>)
    ensures |r| == |args| && forall i :: 0 <= i < |args| ==> r[i] == ArgText(args[i])
  {
    if args == [] then [] else ArgTexts(args[..|args| - 1]) + [ArgText(args[|args| - 1])]
  }

  lemma ArgLine(b: Buffer, a: Arg)
    ensures Concat(EmitType(b + [a.name] + [":", SPACE], a.ty)) == Concat(b) + ArgText(a)
  {
    ConcatPush2(b + [a.name], ":", SPACE);
    TypeText(b + [a.name] + [":", SPACE], a.ty);
    Regroup4(Concat(b), a.name, ":", SPACE, TsType(a.ty));
  }

  /** The countdown of `wMethodArgs`: started at `left`, at least the number
      of arguments, it puts `, ` between the arguments and once more after
      the last one exactly when `left` counted a parameter still to come. */
  lemma {:induction false} ArgLoopLine(b: Buffer, args: seq<Arg>, left: int)
    requires |args| <= left
    ensures Concat(EmitArgLoop(b, args, left))
      == Concat(b) + Join(ArgTexts(args), ", ") + (if args != [] && left != |args| then ", " else "")
    decreases |args|
  {
    if args != [] {
      var init, a := args[..|args| - 1], args[|args| - 1];
      var p, j := Concat(b), Join(ArgTexts(init), ", ");
      var prev := EmitArgLoop(b, init, left);
      ArgLoopLine(b, init, left);
      ArgLine(prev, a);
      var b1 := EmitType(prev + [a.name] + [":", SPACE], a.ty);
      assert ArgTexts(args) == ArgTexts(init) + [ArgText(a)];
      JoinSnoc(ArgTexts(init), ArgText(a), ", ");
      if init == [] {
        assert Concat(b1) == p + Join(ArgTexts(args), ", ");
      } else {
        assert Concat(prev) == p + j + ", ";
        Regroup3(p, j, ", ", ArgText(a));
        assert Concat(b1) == p + Join(ArgTexts(args), ", ");
      }
      if left - |args| != 0 {
        ConcatPush2(b1, ",", SPACE);
        Assoc(Concat(b1), ",", SPACE);
      }
    }
  }

  /** The `callback` parameter: `Callback<R, E>` where `E` lists the
      declared exceptions and then `Error`, or is `Error` alone. */
  function CallbackErrorText(exceptions: seq<Arg>): string
  {
    if |exceptions| > 0 then Join(TsTypes(ThrowTypes(exceptions) + [Name("Error")]), " | ") + ">"
    else "Error" + ">"
  }

  function CallbackText(cb: CallbackInfo): string
  {
    "callback" + ":" + SPACE + "Callback" + "<" + TsType(cb.returnType) + "," + SPACE + CallbackErrorText(cb.exceptions)
  }

  lemma CallbackLine(b: Buffer, cb: CallbackInfo)
    ensures Concat(EmitCallbackParam(b, cb)) == Concat(b) + CallbackText(cb)
  {
    var b0 := b + ["callback", ":", SPACE, "Callback", "<"];
    ConcatPush5(b, "callback", ":", SPACE, "Callback", "<");
    TypeText(b0, cb.returnType);
    var b1 := EmitType(b0, cb.returnType) + [",", SPACE];
    ConcatPush2(EmitType(b0, cb.returnType), ",", SPACE);
    if |cb.exceptions| > 0 {
      AlternationText(b1, ThrowTypes(cb.exceptions) + [Name("Error")]);
      Assoc(Concat(b1), Join(TsTypes(ThrowTypes(cb.exceptions) + [Name("Error")]), " | "), ">");
    } else {
      ConcatPush2(b1, "Error", ">");
      Assoc(Concat(b1), "Error", ">");
    }
    Regroup9(Concat(b), "callback", ":", SPACE, "Callback", "<", TsType(cb.returnType), ",", SPACE,
      CallbackErrorText(cb.exceptions));
  }

  /** `Error` is always the last alternative of the callback's error type. */
  lemma CallbackErrorLast(exceptions: seq<Arg>)
    ensures EndsWith(CallbackErrorText(exceptions), "Error>")
  {
    assert "Error" + ">" == "Error>";
    if |exceptions| > 0 {
      var init := TsTypes(ThrowTypes(exceptions));
      assert TypeName("Error") == "Error";
      assert TsTypes(ThrowTypes(exceptions) + [Name("Error")]) == init + ["Error"];
      JoinSnoc(init, "Error", " | ");
      var j := Join(init, " | ") + " | ";
      Assoc(j, "Error", ">");
      EndsWithConcat(j, "Error>");
    } else {
      EndsWithConcat("", "Error>");
    }
  }

  /** The parameters of `wMethodArgs`: the arguments, then the callback when
      one is asked for. */
  function ParamTexts(args: seq<Arg>, callback: Option<CallbackInfo>): (r: seq<string>)
    ensures |r| == |args| + (if callback.Some? then 1 else 0)
  {
    ArgTexts(args) + (if callback.Some? then [CallbackText(callback.value)] else [])
  }

  /** `wMethodArgs` writes its parameters joined by `, `, with no separator
      before the first or after the last. */
  lemma MethodArgsLine(b: Buffer, args: seq<Arg>, callback: Option<CallbackInfo>)
    ensures Concat(EmitMethodArgs(b, args, callback)) == Concat(b) + Join(ParamTexts(args, callback), ", ")
  {
    var left := if callback.Some? then |args| + 1 else |args|;
    ArgLoopLine(b, args, left);
    var b1 := EmitArgLoop(b, args, left);
    var j := Join(ArgTexts(args), ", ");
    match callback
    case None =>
      assert ParamTexts(args, callback) == ArgTexts(args);
    case Some(cb) =>
      CallbackLine(b1, cb);
      JoinSnoc(ArgTexts(args), CallbackText(cb), ", ");
      if args != [] {
        Regroup3(Concat(b), j, ", ", CallbackText(cb));
      }
  }

  /** `wPromise`: `Promise<R>`, or `Promise<R, E>` with the declared
      exception types as the parser gave them, joined by ` | `. */
  function PromiseText(returnType: ValueType, throws: seq<Arg>): string
  {
    "Promise" + "<" + TsType(returnType) + (if |throws| > 0 then "," + SPACE + RawThrowTypes(throws) else "") + ">"
  }

  lemma PromiseLine(b: Buffer, returnType: ValueType, throws: seq<Arg>)
    ensures Concat(EmitPromise(b, returnType, throws)) == Concat(b) + PromiseText(returnType, throws)
  {
    ConcatPush2(b, "Promise", "<");
    TypeText(b + ["Promise", "<"], returnType);
    var b1 := EmitType(b + ["Promise", "<"], returnType);
    var t := if |throws| > 0 then "," + SPACE + RawThrowTypes(throws) else "";
    if |throws| > 0 {
      ConcatPush2(b1, ",", SPACE);
      Regroup3(Concat(b1), ",", SPACE, RawThrowTypes(throws));
    }
    Regroup5(Concat(b), "Promise", "<", TsType(returnType), t, ">");
  }

  /** The callback-style signature of `wMethod`: `name(args, callback): void;`. */
  function CallbackSignatureText(c: Config, n: int, m: Method): string
  {
    IndentText(c, n) + m.name + "(" + Join(ParamTexts(m.args, Some(CallbackInfo(m.returnType, m.throws))), ", ")
      + ")" + ":" + SPACE + "void" + ";" + "\n"
  }

  /** The promise-style signature of `wMethod`: `name(args): Promise<R>;`. */
  function PromiseSignatureText(c: Config, n: int, m: Method): string
  {
    IndentText(c, n) + m.name + "(" + Join(ParamTexts(m.args, None), ", ")
      + ")" + ":" + SPACE + PromiseText(m.returnType, m.throws) + ";" + "\n"
  }

  lemma CallbackSignatureLine(b: Buffer, c: Config, n: int, m: Method)
    ensures Concat(EmitMethodArgs(b + Indent(c, n) + [m.name] + ["("], m.args, Some(CallbackInfo(m.returnType, m.throws)))
      + [")"] + [":", SPACE, "void"] + [";"] + ["\n"]) == Concat(b) + CallbackSignatureText(c, n, m)
  {
    var cb := Some(CallbackInfo(m.returnType, m.throws));
    var b0 := b + Indent(c, n) + [m.name] + ["("];
    IndentIsSpaces(b, c, n);
    MethodArgsLine(b0, m.args, cb);
    var b1 := EmitMethodArgs(b0, m.args, cb) + [")"];
    ConcatPush3(b1, ":", SPACE, "void");
    Regroup10(Concat(b), IndentText(c, n), m.name, "(", Join(ParamTexts(m.args, cb), ", "),
      ")", ":", SPACE, "void", ";", "\n");
  }

  lemma PromiseSignatureLine(b: Buffer, c: Config, n: int, m: Method)
    ensures Concat(EmitPromise(EmitMethodArgs(b + Indent(c, n) + [m.name] + ["("], m.args, None) + [")"] + [":", SPACE],
      m.returnType, m.throws) + [";"] + ["\n"]) == Concat(b) + PromiseSignatureText(c, n, m)
  {
    var b0 := b + Indent(c, n) + [m.name] + ["("];
    IndentIsSpaces(b, c, n);
    MethodArgsLine(b0, m.args, None);
    var b1 := EmitMethodArgs(b0, m.args, None) + [")"];
    ConcatPush2(b1, ":", SPACE);
    PromiseLine(b1 + [":", SPACE], m.returnType, m.throws);
    Regroup10(Concat(b), IndentText(c, n), m.name, "(", Join(ParamTexts(m.args, None), ", "),
      ")", ":", SPACE, PromiseText(m.returnType, m.throws), ";", "\n");
  }

  /** `wMethod` declares each method twice, callback style first. */
  function MethodText(c: Config, n: int, m: Method): string
  {
    CallbackSignatureText(c, n, m) + PromiseSignatureText(c, n, m)
  }

  lemma MethodLines(b: Buffer, c: Config, n: int, m: Method)
    ensures Concat(EmitMethod(b, c, n, m)) == Concat(b) + MethodText(c, n, m)
  {
    var b1 := EmitMethodArgs(b + Indent(c, n) + [m.name] + ["("], m.args, Some(CallbackInfo(m.returnType, m.throws)))
      + [")"] + [":", SPACE, "void"] + [";"] + ["\n"];
    CallbackSignatureLine(b, c, n, m);
    PromiseSignatureLine(b1, c, n, m);
    Assoc(Concat(b), CallbackSignatureText(c, n, m), PromiseSignatureText(c, n, m));
  }

  /** The declarations of every method, in key order. */
  function MethodTexts(c: Config, n: int, methods: OrderedMap<Method>): (r: seq<string>)
    ensures |r| == |methods|
  {
    if methods == [] then [] else MethodTexts(c, n, methods[..|methods| - 1]) + [MethodText(c, n, methods[|methods| - 1].1)]
  }

  /** The `i`-th declaration is that of the `i`-th method. */
  lemma {:induction false} MethodTextsAt(c: Config, n: int, methods: OrderedMap<Method>, i: nat)
    requires i < |methods|
    ensures MethodTexts(c, n, methods)[i] == MethodText(c, n, methods[i].1)
    decreases |methods|
  {
    if i < |methods| - 1 {
      MethodTextsAt(c, n, methods[..|methods| - 1], i);
    }
  }

  /** The methods of a service, in key order, a blank line between two. */
  lemma {:induction false} MethodsLines(b: Buffer, c: Config, n: int, methods: OrderedMap<Method>)
    ensures Concat(EmitMethods(b, c, n, methods)) == Concat(b) + Join(MethodTexts(c, n, methods), "\n")
    decreases |methods|
  {
    if |methods| == 1 {
      MethodLines(b, c, n, methods[0].1);
    } else if |methods| > 1 {
      var init, last := methods[..|methods| - 1], methods[|methods| - 1].1;
      var prev := EmitMethods(b, c, n, init);
      MethodsLines(b, c, n, init);
      MethodLines(prev + ["\n"], c, n, last);
      JoinSnoc(MethodTexts(c, n, init), MethodText(c, n, last), "\n");
      Regroup3(Concat(b), Join(MethodTexts(c, n, init), "\n"), "\n", MethodText(c, n, last));
    }
  }

  function ServiceHeadText(c: Config, n: int): string
  {
    IndentText(c, n) + "class" + SPACE + "Client" + SPACE + IndentText(c, n) + "{" + "\n"
  }

  /** `wService`: a class `Client` whose body declares every method. */
  function ServiceText(c: Config, n: int, s: Service): string
  {
    ServiceHeadText(c, n) + Join(MethodTexts(c, Deeper(c, n), s.functions), "\n") + IndentText(c, n) + "}" + "\n"
  }

  lemma ServiceHead(b: Buffer, c: Config, n: int)
    ensures Concat(EmitBlockOpen(b + Indent(c, n) + ["class", SPACE, "Client", SPACE], c, n, false) + ["\n"])
      == Concat(b) + ServiceHeadText(c, n)
  {
    var b0 := b + Indent(c, n) + ["class", SPACE, "Client", SPACE];
    IndentIsSpaces(b, c, n);
    ConcatPush4(b + Indent(c, n), "class", SPACE, "Client", SPACE);
    IndentIsSpaces(b0, c, n);
    ConcatPush2(b0 + Indent(c, n), "{", "\n");
    assert EmitBlockOpen(b0, c, n, false) + ["\n"] == b0 + Indent(c, n) + ["{"] + ["\n"];
    Regroup8(Concat(b), IndentText(c, n), "class", SPACE, "Client", SPACE, IndentText(c, n), "{", "\n");
  }

  lemma ServiceLines(b: Buffer, c: Config, n: int, s: Service)
    ensures Concat(EmitService(b, c, n, s)) == Concat(b) + ServiceText(c, n, s)
  {
    var b1 := EmitBlockOpen(b + Indent(c, n) + ["class", SPACE, "Client", SPACE], c, n, false) + ["\n"];
    ServiceHead(b, c, n);
    var b2 := EmitMethods(b1, c, Deeper(c, n), s.functions);
    MethodsLines(b1, c, Deeper(c, n), s.functions);
    IndentIsSpaces(b2, c, n);
    ConcatPush(b2 + Indent(c, n), "}");
    ConcatPush(b2 + Indent(c, n) + ["}"], "\n");
    assert EmitService(b, c, n, s) == b2 + Indent(c, n) + ["}"] + ["\n"];
    Regroup5(Concat(b), ServiceHeadText(c, n), Join(MethodTexts(c, Deeper(c, n), s.functions), "\n"),
      IndentText(c, n), "}", "\n");
  }
}
