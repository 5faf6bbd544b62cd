/** The syntax tree the Thrift parser hands to the compiler
    (src/thrift-parser.ts).  The parser itself is outside this model: a compile
    starts from an already parsed tree.

    A JavaScript object used as a dictionary is an `OrderedMap`: its entries in
    `Object.keys` order, which is the order the emitter walks them in.
 */
module ThriftAst {

  type OrderedMap<V> = seq<(string, V)>

  function Keys<V>(m: OrderedMap<V>): (ks: seq<string>)
    ensures |ks| == |m| && forall i :: 0 <= i < |m| ==> ks[i] == m[i].0
  {
    seq(|m|, i requires 0 <= i < |m| => m[i].0)
  }

  /** `Object.assign({}, m, {[k]: v})`: an existing key keeps its place and
      takes the new value; a new key goes last. */
  function Assign<V>(m: OrderedMap<V>, k: string, v: V): (r: OrderedMap<V>)
    ensures k in Keys(m) ==> |r| == |m| && forall i :: 0 <= i < |m| ==>
      r[i] == (if m[i].0 == k then (k, v) else m[i])
    ensures k !in Keys(m) ==> r == m + [(k, v)]
  {
    if k in Keys(m) then seq(|m|, i requires 0 <= i < |m| => if m[i].0 == k then (k, v) else m[i])
    else m + [(k, v)]
  }

  /** `ValueType = string | SetType | ListType | MapType`: a bare string names a
      primitive or a declared type; the others are the container types. */
  datatype ValueType =
    | Name(name: string)
    | SetOf(elem: ValueType)
    | ListOf(elem: ValueType)
    | MapOf(key: ValueType, value: ValueType)

  datatype FieldOption = Required | Optional

  /** A struct, union or exception member.  The parser's `id` is not read by
      the emitter and is left out. */
  datatype Field = Field(name: string, option: Option<FieldOption>, ty: ValueType)

  /** `ArgOrExecption`: a method argument or a declared exception. */
  datatype Arg = Arg(name: string, ty: ValueType)

  /** A service method: return type, arguments, `throws` list. */
  datatype Method = Method(name: string, returnType: ValueType, args: seq<Arg>, throws: seq<Arg>)

  datatype Service = Service(functions: OrderedMap<Method>)

  datatype Include = Include(path: string)

  /** A constant's value.  The source inspects `typeof` at emission time;
      here the kind is a tag.  `Num` holds integers only. */
  datatype Literal =
    | Str(s: string)
    | Num(n: int)
    | Bool(b: bool)
    | Arr(items: seq<Literal>)
    | Obj(entries: seq<Entry>)

  datatype Entry = Entry(key: string, value: Literal)

  /** A constant: declared type and value.  A bare type name is the
      source's `StaticConst`; a container type is a list, set or map constant. */
  datatype Const = Const(declared: ValueType, value: Literal)

  /** An enum item's value is a string, a number or a boolean. */
  datatype EnumValue = EnumStr(s: string) | EnumNum(n: int) | EnumBool(b: bool)

  datatype EnumItem = EnumItem(name: string, value: EnumValue)

  datatype Enum = Enum(items: seq<EnumItem>)

  /** `JsonAST`: every section (`typedef`, `include`, `const`, `enum`,
      `struct`, `union`, `exception`, `service`) is optional.  The `namespace`
      section is not read by the emitter and is left out. */
  datatype Schema = Schema(
    typedefs: Option<OrderedMap<ValueType>>,
    includes: Option<OrderedMap<Include>>,
    consts: Option<OrderedMap<Const>>,
    enums: Option<OrderedMap<Enum>>,
    structs: Option<OrderedMap<seq<Field>>>,
    unions: Option<OrderedMap<seq<Field>>>,
    exceptions: Option<OrderedMap<seq<Field>>>,
    services: Option<OrderedMap<Service>>)

  datatype Option<+T> = None | Some(value: T) {
    function GetOr(default: T): T
    {
      match this
      case Some(v) => v
      case None => default
    }
  }
}
