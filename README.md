# thrift-ts declaration emitter, modelled in Dafny

thrift-ts turns a parsed Thrift schema into TypeScript. Its core is a writer
(`BaseCompiler`) that appends string chunks to a buffer, and one emitter per
Thrift construct. Each construct is handled by an emitter:

- typedefs become type aliases;
- constants become exported `const`s;
- enums become TypeScript enums;
- structs become classes with an optional-argument constructor;
- exceptions become type aliases;
- includes become namespace imports;
- services become a `Client` class that declares every method twice, once callback style and once promise style.

Two compilers drive the writer. `ServiceCompiler` writes one artifact per
service. `Compile` writes the `_types` artifact of a schema and, in
definition mode, asks one service compiler per service for its artifact.
The command line front end contributes two string helpers:

- the common base path of the input files;
- the folder-to-glob rewrite.

The model has three layers:

- **Chunk specifications (modules `Emit`, `Sections`).** Each emitter is a pure function from the old buffer to the new one, built in the order the source calls `write`. A whole artifact is a list of `Section`s written in turn.
- **The writer and the compilers as classes (modules `BaseCompiler`, `ServiceCompiler`, `Compile`).** They have the source's fields and `modifies` frames. Every method is proved to leave exactly the chunk-specification buffer, and the indent counter as it found it.
- **What the chunks read as text (module `Render`, and the text lemmas of `ServiceCompiler` and `Compile`).** Independent renderers (`TsType`, `FieldText`, `EnumText`, `MethodText`, `ServiceText`, `TypesText`, ...) give the TypeScript text. One lemma per emitter proves that joining the buffer yields the old text followed by that declaration.

Other modules:

- `Text`: the buffer, `Concat` (the `buffer.join("")` of `flush`) and string helpers.
- `ThriftAst`: the parsed schema; JavaScript objects are ordered maps.
- `Options`: the compile options and the configuration the writer's constructor derives from them.
- `NodePath`: `path.basename(p, ".thrift")`.
- `Cli`: `getBasePath` and `getFolderPath`.

## Model

| member | source | states |
|---|---|---|
| Options.ConfigOf | src/BaseCompiler.ts:28-50 | With no options, the configuration is tab size 2, TAB mode and Int64 as a wrapper type. Otherwise each defined option overrides its default, and `spaceAsTab` selects SPACE or TAB mode. |
| Options.DefinitionOf | src/compile.ts:21 | Definition mode is on exactly when the `definition` option is defined and true. An undefined flag is falsy. |
| ThriftAst.Assign | src/compile.ts:24-28 | `Object.assign({}, m, {[k]: v})`: an existing key keeps its place and takes the new value, and a new key goes last. |
| Text.IntToString | src/BaseCompiler.ts:279-281 | `String(n)` of an integer starts with `-` exactly when `n` is negative. The rest is a numeral without leading zeros whose decimal value is the magnitude of `n`. |
| Text.NatToString | src/BaseCompiler.ts:279-281 | The digits of a non-negative number are a numeral without leading zeros, and their decimal value is the number. |
| Text.NumeralRoundTrip | src/BaseCompiler.ts:279-281 | Every numeral without leading zeros is the one written for its value, so each number has exactly one numeral. |
| Emit.ThrowTypes | src/BaseCompiler.ts:397 | `expections.map(e => e.type)`: the same length, each item the declared type. |
| NodePath.TrimTrailingSlashes | src/compile.ts:23 | Removes exactly the trailing `/` characters: the result is a prefix that does not end in `/`, and everything after it is `/`. The result is empty exactly when the path is all slashes. |
| NodePath.LastComponent | src/compile.ts:23 | The result is the suffix of the path after its last `/`, or the whole path when there is no `/`. It holds no `/`. |
| NodePath.ThriftBasename | src/compile.ts:23 | `path.basename(p, ".thrift")` in all its cases. A path equal to `.thrift` gives `""`. A path of seven or more characters, all of them `/`, is returned unchanged. Otherwise take the last component after trailing slashes are trimmed. If it ends in `.thrift` and is longer, the result is the component without that ending, with no `/`. If the path has seven or more characters and the component is a shorter ending of `.thrift`, the result is the component followed by the path's trailing slashes. In every other case the result is the component itself. |
| NodePath.PartialExtKeepsSlash | src/compile.ts:23 | When the last component is a shorter ending of `.thrift` and the path has seven or more characters, the trailing slash stays: `x/thrift/` has base name `thrift/`. |
| NodePath.BasenameOfPlainName | src/ServiceCompiler.ts:26 | A service key without `/` and without the `.thrift` ending is its own base name, so service `MyTestService` goes to `MyTestService.d.ts`. |
| NodePath.LastSlash | src/compile.ts:23 | In `dir/base`, where `base` has no `/`, the last `/` is the one before `base`. |
| NodePath.BasenameOfFile | src/compile.ts:23 | `dir/name.thrift` has base name `name`. |
| NodePath.ComponentOfFile | src/compile.ts:23 | The last component of `dir/name.thrift` is `name.thrift`. |
| NodePath.BasenameOfComponent | src/compile.ts:23 | Take a path that does not end in `/` and whose last component ends in `.thrift` without being only `.thrift`. Its base name is that component without the ending. |
| BaseCompiler.BaseCompiler.constructor | src/BaseCompiler.ts:28-50 | An empty buffer, counter 0, and the configuration of the options. |
| BaseCompiler.BaseCompiler.Write | src/BaseCompiler.ts:52-56 | The chunks are appended in order. |
| BaseCompiler.BaseCompiler.WIntend | src/BaseCompiler.ts:112-122 | Per counter unit, appends `tabSize` SPACE chunks in SPACE mode and one TAB chunk otherwise. Nothing is appended for a counter of 0 or below. |
| Render.IndentIsSpaces | src/BaseCompiler.ts:112-122 | The indent reads as spaces: `intends * tabSize` in SPACE mode, `intends` in TAB mode (TAB is one space), and nothing at counter 0 or below. |
| BaseCompiler.BaseCompiler.IncreaseIntend | src/BaseCompiler.ts:129-132 | Appends a newline, and the counter grows by `tabSize`. |
| BaseCompiler.BaseCompiler.DecreaseIntend | src/BaseCompiler.ts:134-139 | Appends a newline only when asked, and the counter shrinks by `tabSize`. |
| BaseCompiler.BaseCompiler.WExport | src/BaseCompiler.ts:57-61 | Appends `export ` before the continuation. |
| Render.ExportLine | src/BaseCompiler.ts:57-61 | The buffer text gains exactly the export prefix. |
| BaseCompiler.BaseCompiler.WBlockOpen | src/BaseCompiler.ts:63-70 | The opening half of `wBlock`: the brace, opening a block or an inline block. |
| BaseCompiler.BaseCompiler.WBlockClose | src/BaseCompiler.ts:63-70 | The closing half of `wBlock`: the indent and the closing brace, followed by a newline unless the block is inline. |
| Render.TypeNameTable | src/BaseCompiler.ts:72-93 | int, double, i32 and i16 map to `number`; bool maps to `boolean`; i64 maps to `Int64`; string maps to `string`. Every other name is kept, and the mapping is idempotent. |
| BaseCompiler.BaseCompiler.WValueType | src/BaseCompiler.ts:147-176 | The buffer is extended by the chunks of the type, written recursively. |
| Render.TypeText | src/BaseCompiler.ts:147-176 | A type reads as its TypeScript text: a mapped name, `T[]`, `Map<K,V>` or `Set<T>`. |
| BaseCompiler.BaseCompiler.WAlternation | src/BaseCompiler.ts:148-156 | Writes each type of an array, with ` \| ` after every type but the last. |
| Render.AlternationText | src/BaseCompiler.ts:148-156 | An array of types reads as their texts joined by ` \| `. |
| Render.TsTypes | src/BaseCompiler.ts:148-156 | One text per type, in order. |
| BaseCompiler.BaseCompiler.WField | src/BaseCompiler.ts:95-103 | Appends the chunks of one field declaration. |
| Render.FieldLine | src/BaseCompiler.ts:95-103 | A field reads as the indent, the name, `?` exactly when the field is optional, `: `, the type and `;` with a newline. |
| BaseCompiler.BaseCompiler.WFields | src/BaseCompiler.ts:178-185 | Writes every field, in order. |
| Render.FieldsLines | src/BaseCompiler.ts:178-185 | One declaration line per field, in order. |
| Render.ConstructorHead | src/BaseCompiler.ts:191-196 | The constructor opens as a newline, the indent, `constructor(arg?: {` and a newline. |
| BaseCompiler.BaseCompiler.WConstructor | src/BaseCompiler.ts:190-203 | Appends the constructor `wClass` hands to `wStructBody`, and the counter is restored. |
| Render.ConstructorLines | src/BaseCompiler.ts:190-203 | The constructor takes one optional object argument that holds the struct's fields, one level deeper. |
| BaseCompiler.BaseCompiler.WStructBody | src/BaseCompiler.ts:178-185 | Appends the block of field lines, followed by the constructor for a class, and the counter is restored. |
| Render.StructBodyLines | src/BaseCompiler.ts:178-185 | The body is a brace block holding the field lines, followed by the constructor for a class. |
| BaseCompiler.BaseCompiler.WClass | src/BaseCompiler.ts:187-205 | Appends `class Name` and the body with its constructor, and the counter is restored. |
| Render.ClassLines | src/BaseCompiler.ts:187-205 | A struct reads as `class Name {...}`, with its fields and its constructor. |
| BaseCompiler.BaseCompiler.WException | src/BaseCompiler.ts:207-212 | Appends `type Name = ` and the struct body without a constructor. |
| Render.ExceptionLines | src/BaseCompiler.ts:207-212 | An exception reads as a type alias of its field block. |
| BaseCompiler.BaseCompiler.WriteStructs | src/BaseCompiler.ts:214-219 | Writes every struct as an exported class, in key order, and the counter is restored. |
| Render.StructsLines | src/BaseCompiler.ts:214-219 | The text is one exported class per struct, in key order. |
| BaseCompiler.BaseCompiler.WriteExceptions | src/BaseCompiler.ts:221-226 | Writes every exception as an exported type alias, in key order. |
| Render.ExceptionsLines | src/BaseCompiler.ts:221-226 | The text is one exported type alias per exception, in key order. |
| BaseCompiler.BaseCompiler.WriteInclude | src/BaseCompiler.ts:228-237 | Writes one import line per include key, in key order. |
| Render.IncludesLines | src/BaseCompiler.ts:228-237 | Each include reads as `import * as k from './path';` on its own line, in key order. |
| Render.StripDirOfPath | src/BaseCompiler.ts:230 | On a single line, `/.*\//` removes everything up to and including the last `/`. |
| Render.StripDirOfName | src/BaseCompiler.ts:230 | A bare name on one line is unchanged. |
| Render.StripThriftOfName | src/BaseCompiler.ts:230 | `/.thrift$/` removes the `.thrift` ending. |
| Render.StripThriftAnyChar | src/BaseCompiler.ts:230 | The unescaped dot matches any character but a line terminator, so `namexthrift` also loses seven characters. |
| Render.IncludePathOfFile | src/BaseCompiler.ts:229-231 | Both `dir/name.thrift` and `name.thrift` import from `./name_types`. Every test path is an instance, so each gives `./test_types` (test/BaseCompiler.test.ts:24-31). |
| BaseCompiler.BaseCompiler.WEnumItems | src/BaseCompiler.ts:250-261 | Per item, appends the indent, the name, the initialiser and `,` with a newline. |
| Render.EnumValueLine | src/BaseCompiler.ts:253-259 | The initialiser reads as ` = 'text'` for a string, ` = n` for a number, and ` = true` or ` = false` for a boolean. |
| Render.EnumItemLine | src/BaseCompiler.ts:251-260 | One item reads as one line. |
| Render.EnumItemsLines | src/BaseCompiler.ts:250-261 | One line per item, in order. |
| Render.EnumHead | src/BaseCompiler.ts:245-249 | The opening is the indent, `export enum Name {` and a newline. The indent is written twice, once before `wExport` and once inside it. |
| BaseCompiler.BaseCompiler.WEnum | src/BaseCompiler.ts:239-266 | Appends an exported enum, and the counter is restored. |
| Render.EnumLines | src/BaseCompiler.ts:239-266 | An enum reads as `export enum Name { ... }`, with one line per item. |
| BaseCompiler.BaseCompiler.WriteEnum | src/BaseCompiler.ts:268-273 | Writes every enum, in key order, and the counter is restored. |
| Render.EnumsLines | src/BaseCompiler.ts:268-273 | The text is one enum per key, in key order. |
| BaseCompiler.BaseCompiler.WValue | src/BaseCompiler.ts:275-310 | Appends a constant's value. A string is quoted, a number is `String(n)`, an array is bracketed, an object is an inline block one level deeper, and a boolean writes nothing. The counter is restored. |
| Render.ValueLine | src/BaseCompiler.ts:275-310 | The value reads as its TypeScript literal text. |
| BaseCompiler.BaseCompiler.WItems | src/BaseCompiler.ts:291-296 | Writes each item, with `, ` after every item but the last. |
| Render.ItemsLine | src/BaseCompiler.ts:291-296 | The items read as their texts joined by `, `. |
| Render.ItemTexts | src/BaseCompiler.ts:291-296 | One text per item. |
| BaseCompiler.BaseCompiler.WEntries | src/BaseCompiler.ts:301-306 | Per key, appends the indent, `key: `, the value and `,` with a newline. |
| Render.EntryLine | src/BaseCompiler.ts:302-305 | One entry reads as one `key: value,` line. |
| Render.EntriesLines | src/BaseCompiler.ts:301-306 | One line per entry, in key order. |
| BaseCompiler.BaseCompiler.WConst | src/BaseCompiler.ts:313-324 | Appends an exported `const`. A bare-typed constant gets ` = value`; a list, map or set constant gets only `: Type`, and its value is not written. |
| Render.ConstLine | src/BaseCompiler.ts:313-324 | A constant reads as `export const name` followed by one of those two tails and `;`. |
| BaseCompiler.BaseCompiler.WriteConst | src/BaseCompiler.ts:326-331 | Writes every constant, in key order. |
| Render.ConstsLines | src/BaseCompiler.ts:326-331 | The text is one declaration per constant, in key order. |
| BaseCompiler.BaseCompiler.WriteTypeof | src/BaseCompiler.ts:333-341 | Writes `type K = T;` per typedef, in key order, with no export. |
| Render.TypedefLine | src/BaseCompiler.ts:333-341 | A typedef reads as `type K = T;` and a newline. |
| Render.TypedefsLines | src/BaseCompiler.ts:333-341 | The text is one alias per typedef, in key order. |
| Render.TypedefListExample | test/BaseCompiler.test.ts:58-63 | `typedef list<T> TList` at the top level reads `type TList = T[];` and a newline. |
| BaseCompiler.BaseCompiler.WriteCallbackTypeDeclare | src/BaseCompiler.ts:343-346 | Appends the indent and the `Callback` type declaration. |
| Render.CallbackDeclLine | src/BaseCompiler.ts:343-346 | The text gains the indent and `type Callback<T, E> = (err: E, resp: T) => void;` followed by a blank line. |
| BaseCompiler.BaseCompiler.WriteCommonType | src/BaseCompiler.ts:348-366 | Appends the `Int64` declaration the configuration selects, and the counter is restored. |
| Render.CommonTypeLines | src/BaseCompiler.ts:348-366 | Exactly one of the two forms appears. With `int64AsString`, it is `type Int64 = string;`; otherwise it is an interface with `constructor`, `toString` and `toJson`. |
| BaseCompiler.BaseCompiler.WPromise | src/BaseCompiler.ts:368-376 | Appends `Promise<R>` when nothing is thrown, and `Promise<R, E>` otherwise. |
| Render.PromiseLine | src/BaseCompiler.ts:368-376 | The promise type reads as `Promise<R>`, or as `Promise<R, E>` where `E` joins the thrown types by ` \| `. |
| BaseCompiler.BaseCompiler.WMethodArgs | src/BaseCompiler.ts:378-405 | Writes the arguments, with the countdown `left` deciding each separator, then the callback parameter when one is given. |
| Render.ArgTexts | src/BaseCompiler.ts:383-390 | One `name: Type` text per argument. |
| Render.ArgLine | src/BaseCompiler.ts:384-386 | One argument reads as `name: Type`. |
| Render.ArgLoopLine | src/BaseCompiler.ts:382-390 | When the countdown starts at the number of arguments, no separator follows the last argument. When it starts one higher, one does. |
| Render.CallbackLine | src/BaseCompiler.ts:392-404 | The callback parameter reads as `callback: Callback<R, E>`, where `E` is the thrown types then `Error`, or just `Error`. |
| Render.CallbackErrorLast | src/BaseCompiler.ts:396-403 | `Error` is always the last error alternative. |
| Render.ParamTexts | src/BaseCompiler.ts:378-405 | The parameters are the arguments, followed by the callback when one is given. |
| Render.MethodArgsLine | src/BaseCompiler.ts:378-405 | The parameter list reads as the parameters joined by `, `, with no separator after the last. |
| Render.CallbackSignatureLine | src/BaseCompiler.ts:408-418 | The first signature reads as `name(args, callback): void;`. |
| Render.PromiseSignatureLine | src/BaseCompiler.ts:420-427 | The second signature reads as `name(args): Promise<R>;`. |
| BaseCompiler.BaseCompiler.WMethod | src/BaseCompiler.ts:407-428 | Appends the callback-style signature, then the promise-style one. |
| Render.MethodLines | src/BaseCompiler.ts:407-428 | A method reads as exactly two lines, the callback signature first. |
| BaseCompiler.BaseCompiler.WMethods | src/BaseCompiler.ts:435-440 | Writes each method in key order, with a newline between two methods and none after the last. |
| Render.MethodTexts | src/BaseCompiler.ts:435-440 | One declaration per method. |
| Render.MethodTextsAt | src/BaseCompiler.ts:435-440 | The `i`-th declaration is that of the `i`-th method. |
| Render.MethodsLines | src/BaseCompiler.ts:435-440 | The methods read as their declarations joined by a blank line. |
| Render.ServiceHead | src/BaseCompiler.ts:431-433 | The service opens as the indent, `class Client {` and a newline. |
| BaseCompiler.BaseCompiler.WService | src/BaseCompiler.ts:430-443 | Appends class `Client` holding every method, and the counter is restored. |
| Render.ServiceLines | src/BaseCompiler.ts:430-443 | A service reads as `class Client { ... }` with every method declaration. |
| Sections.EmitSectionsSnoc | src/compile.ts:43-64 | Writing one more section extends the buffer by that section's chunks. |
| Sections.EmitSectionsAppend | src/compile.ts:43-64 | Writing two lists of sections in turn is writing their concatenation. |
| ServiceCompiler.ServiceCompiler.constructor | src/ServiceCompiler.ts:7-15 | Keeps the basename, the name, the service and the includes, with a fresh writer under the options. |
| ServiceCompiler.ServiceCompiler.Flush | src/ServiceCompiler.ts:17-29 | The buffer gains the service sections: the includes only when defined, then the callback declaration, the common type, the export and the `Client` class. The artifact is named `<basename of name>.d.ts` and its content is the joined buffer. |
| ServiceCompiler.ClientSectionsSteps | src/ServiceCompiler.ts:21-23 | The four fixed sections are the four emitter calls, in the source's order. |
| ServiceCompiler.ServiceSectionsSteps | src/ServiceCompiler.ts:18-23 | The service sections are the emitter calls of `flush`, in order, and the includes only when defined. |
| ServiceCompiler.ServiceFileLines | src/ServiceCompiler.ts:17-29 | A service artifact reads as: the imports, the `Callback` declaration, the `Int64` declaration, `export ` and the `Client` class. |
| ServiceCompiler.ServiceFileOrder | src/ServiceCompiler.ts:18-23 | Without includes, the artifact starts with the `Callback` declaration, and it always ends with the `Client` class. |
| Compile.ImportsStep | src/compile.ts:44-46 | Includes are written only when the schema has them. |
| Compile.ConstsStep | src/compile.ts:47-49 | Constants are written only when present. |
| Compile.TypedefsStep | src/compile.ts:50-52 | Typedefs are written only when present. |
| Compile.EnumsStep | src/compile.ts:53-55 | Enums are written only when present. |
| Compile.StructsStep | src/compile.ts:56-58 | Structs are written only when present. |
| Compile.UnionsStep | src/compile.ts:59-61 | Unions are written only when present. |
| Compile.ExceptionsStep | src/compile.ts:62-64 | Exceptions are written only when present. |
| Compile.DeclarationSteps | src/compile.ts:43-52 | The first sections are the common type, then includes, constants and typedefs, each only when present. |
| Compile.TypeDeclSteps | src/compile.ts:53-64 | The later sections are enums, structs, unions and exceptions, each only when present. |
| Compile.TypesSectionsSteps | src/compile.ts:43-64 | The types sections are the emitter calls of `flush` in its fixed order. |
| Compile.TypesFileLines | src/compile.ts:43-64 | The types artifact reads as the `Int64` declaration, followed by imports, constants, typedefs, enums, structs, unions and exceptions. |
| Compile.SelfInclude | src/compile.ts:23-28 | The service includes hold the schema itself under its base name. It replaces an include of the same name in place, and every other include is kept, in order. |
| Compile.NewServiceCompilers | src/compile.ts:30-38 | One service compiler per service key, in key order. Each gets the base name, its key and service, and the given includes, and each has a fresh, empty writer of its own under the options. |
| Compile.SchemaServiceCompilers | src/compile.ts:21-39 | No service compilers unless the schema has services and definition mode is on. Otherwise one per service key, in key order, with the base name of the file and the self-including includes, each with a fresh, empty writer. |
| Compile.Compile.constructor | src/compile.ts:10-40 | Service compilers are created only when the schema has services and definition mode is on: one per service key, in key order. Each gets the base name and the self-including includes, and each writer is fresh and distinct. |
| Compile.Compile.WriteDeclarations | src/compile.ts:43-52 | The types buffer gains the common type, includes, constants and typedefs sections, and the counter is restored. |
| Compile.Compile.WriteTypeDecls | src/compile.ts:53-64 | The types buffer gains the enums, structs, unions and exceptions sections, and the counter is restored. |
| Compile.Compile.WriteTypes | src/compile.ts:43-64 | The types buffer gains every types section, in the fixed order of `flush`, and the counter is restored. |
| Compile.Compile.FlushServices | src/compile.ts:66-71 | Each service compiler is flushed in order, and one artifact is produced per compiler. Each service buffer gains its service sections, and each service writer's indentation counter is left as it was. |
| Compile.Compile.Flush | src/compile.ts:42-81 | The types buffer gains the types sections. The result lists the service artifacts in order, then the types artifact: `\|services\| + 1` files. The last is named `<basename>_types.d.ts` in definition mode and `<basename>.ts` otherwise. The indentation counters of the types writer and of every service writer are left as they were. |
| Compile.CompileFile | src/compile.ts:84-93 | Compiling one schema yields one artifact per service (only in definition mode), then the types artifact. Each artifact's content is its sections written from an empty buffer at counter 0. |
| Compile.ServiceArtifactText | src/compile.ts:66-71 | A service artifact of a compile reads as the service file text. |
| Compile.TypesArtifactText | src/compile.ts:73-78 | The types artifact of a compile reads as the types text. |
| Cli.GetBasePath | src/cli.ts:66-87 | Fewer than two paths give `""`. Otherwise the result is a prefix of every path, and it is either the whole first path or some other path ends or differs at the next character. |
| Cli.BasePathIsLongest | src/cli.ts:66-87 | Every common prefix of the paths is a prefix of the base path, so it is the longest one. |
| Cli.GetFolderPath | src/cli.ts:94-103 | A path matching `/.thrift$/` is kept. Any other path gets `**/*.thrift` appended after a trailing `/`, or `/**/*.thrift` appended otherwise. The result always extends the input and matches. |
| Cli.GetFolderPathIdempotent | src/cli.ts:94-103 | Rewriting twice is rewriting once. |
| Cli.AnyCharBeforeThrift | src/cli.ts:95 | The unescaped dot makes `dirxthrift` count as a file and keeps it. |
| Cli.FolderGlob | src/cli.ts:96-101 | A folder with or without its trailing `/` gets the same glob. |

## Left out

- Parsing. `thriftPraser` and the schema grammar are not part of this model. The schema arrives already parsed (`ThriftAst.Schema`).
- File-system I/O, argument parsing, glob expansion and prettier formatting in `src/cli.ts`. Only `getBasePath` and `getFolderPath` are modelled.
- `writeUnions` is called by `flush` (src/compile.ts:60) but is defined nowhere, so as written `this.writeUnions` is undefined and flushing any schema with unions throws a `TypeError` there. The model replaces that crash with a parameter (`UnionWriter`) of `Compile.Compile.Flush` and `Compile.CompileFile` that supplies the chunks a union writer would append.
- `definition` is read by `Compile` but never assigned in the source. It is modelled as the `definition` compile option, with undefined counted as false.
- The second argument of `wService(this.service, this.basename)` is ignored, as the one-parameter `wService` ignores it.
- `wNewline` and `wReturn` are not called by any modelled emitter, and are left out.
- `path.basename` is library code. `NodePath` models its POSIX behaviour with the extension `.thrift` only, the one extension the compilers pass. Within that, every case is modelled, including trailing slashes kept after a component that is a shorter ending of `.thrift`.
- JavaScript object key order: ordered maps keep insertion order. The engine's reordering of integer-like keys ahead of the others is not modelled.
- Numbers are integers. `String(n)` of fractional or exponent-form floating-point values is not modelled.
- Compile.Compile.Flush: writes the types buffer after flushing the service compilers, where the source writes it first. The writers are distinct objects (`Compile.Compile.Valid`), so the buffers and artifacts are the same.
- The text-level results concern `Concat` of the buffer. Prettier is not modelled, so the expected outputs under `test/mock/dist` match only up to formatting.
- The model follows the source as written, including these choices:
  - TAB indentation is the default (src/BaseCompiler.ts:30), and TAB is a single space (src/types.ts:2).
  - The callback parameter is always named `callback` (src/BaseCompiler.ts:393).
  - The promise type carries the thrown types (src/BaseCompiler.ts:368-376).
  - A service artifact is named after the service key (src/ServiceCompiler.ts:26).
  - Services are emitted only in definition mode, never inline in the types artifact (src/compile.ts:21, src/compile.ts:42-64).
  - Structs are always classes (src/BaseCompiler.ts:214-219).
- Strings are sequences of Unicode scalar values, not of UTF-16 code units. `getBasePath` indexes code units (src/cli.ts:71-79), so for paths that share only the high surrogate of a character outside the Basic Multilingual Plane, the source keeps that lone surrogate in the base path and `Cli.GetBasePath` stops before the character.
