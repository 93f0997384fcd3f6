# lavish, modelled in Dafny

lavish is a schema compiler for RPC interfaces. Its input is a schema
file: namespaces that hold structs, functions and notifications. Each
function is served by one side, client or server, and may nest the calls
allowed while it runs. A rules file chooses a target language and the
schemas to build. The compiler parses schemas into a syntax tree and checks
them for redefinitions and for nested calls that do not alternate sides.
It then writes a Rust module per schema: the protocol's message enums, the
translation tables, and a client and a router for each side. The
`lavish-rpc` runtime carries those messages as MessagePack-RPC arrays. It
numbers requests, remembers the ones in flight and frames every message
behind a length prefix.

The repository holds two generations of the compiler. The older one is
`lavish/`. The newer one is `src/`, which also keeps an earlier string-slice
parser (`src/parser.rs`) and its syntax tree (`src/ast.rs`). The model keeps
the generations apart: each source file has its own module, named after it.

| part | modules |
|---|---|
| spans | `LavishSpan` (lavish/src/parser/span.rs), `NewSpan` (src/parser/span.rs) |
| grammars | `NomChars` (the parts of nom both schema grammars use), `LavishParser` with `LavishParserFacts` (lavish/src/parser/mod.rs), `NewParser` with `NewParserFacts` (src/parser/mod.rs), `LegacyParser` with `LegacyRoundTrip` (src/parser.rs) |
| diagnostics | `LavishErrors` (lavish/src/parser/errors.rs), `NewErrors` (src/parser/errors.rs), `LegacyConvert` (`convert_error` of src/parser.rs) |
| syntax trees | `LavishAst` (lavish/src/ast.rs), `NewAst` (src/ast/nodes.rs), `LegacyAst` (src/ast.rs), `Anchored` (src/ast/anchored.rs) |
| checkers | `Dupes` (the redefinition rule both checkers share), `LavishNoRedef`, `LegacyNoRedef`, `Convos` |
| older Rust generator | `LavishOutput` (the indenting `Scope` writer), `IndexMaps`, `IrNames`, `IrAtoms`, `LavishIr`, `LavishGen`, `LavishRust`, `LavishCodegen`, `LegacyCodegen` |
| newer Rust generator | `Layout`, `RustLang`, `RustPaths`, `RustTypes`, `NewIr`, `NewGen`, `RustProtocol`, `RustRouter`, `RustClient`, `RustHandler`, `RustPair`, `RustSymbols` |
| runtime | `RpcMessage` (lavish-rpc/src/message.rs), `RpcSystem` (lavish-rpc/src/system.rs), `RpcFraming` (lavish-rpc/src/system/codec.rs) |
| shared | `Common` (Option, Result and string helpers) |

How the Rust code is modelled:

- A grammar rule is a function from the source text and an offset to one
  of nom's three outcomes. The outcome is done (with the new offset and the
  value read), a recoverable error, or a failure raised by `cut`. Both of
  the last two carry nom's stack of error entries.
- Code that changes state step by step is imperative Dafny. This covers
  the `Scope` writer, the checkers' visitors, the IR's map-filling loops,
  `convert_error`, the request queue and the codecs. Each such method is
  proved against a function of its inputs or of its old state.
- The newer generator's emitters write through a `Scope` with the same
  contract as the older one. Each write is a command of
  `LavishOutput.Cmd`, and `LavishOutput.RenderOut` gives the text a list of
  commands produces. The older generator's `Scope` class is proved to
  produce that same text.
- Some items are shared word for word between files, such as the naming
  rules of both IRs or the `_Fn`/`_Impl`/`_Enum` builders. These are
  modelled once, in the module the table above names.

Members without an `ensures` clause are the definitions the contracts are
stated over, for example a grammar rule, a builder or a rendering. The
table below lists every member whose contract states something about the
source.

## Model

| member | source | states |
|---|---|---|
| Anchored.NewStack | src/ast/anchored.rs:40-42 | a new stack holds no frames |
| Anchored.Push | src/ast/anchored.rs:44-48 | pushing gives a stack one frame taller, the old frames below and the new one on top |
| Anchored.Anchor | src/ast/anchored.rs:50-55 | an anchored value keeps the stack and the value it was given |
| Anchored.Names | src/ast/anchored.rs:57-60 | one name per frame, bottom first, each the frame's own name |
| Anchored.NamesPush | src/ast/anchored.rs:44-60 | pushing a frame appends exactly its name to the names |
| Anchored.FunNames | src/ast/anchored.rs:135-139 | a function's names are the stack's names followed by its own name |
| Anchored.MethodSplits | src/ast/anchored.rs:135-143 | with no dot in any name, the dotted method name splits back into the frames' names and the function's name |
| Anchored.MethodAtTop | src/ast/anchored.rs:141-143 | a function at the top level is called by its own name |
| Anchored.AnchorAll | src/ast/anchored.rs:99-103 | each function of the body reaches the callback, in order, anchored at the body's stack |
| Anchored.ChildBodies | src/ast/anchored.rs:105-109 | each child namespace's body is anchored at the stack plus that namespace's frame |
| Anchored.UnderPush | src/ast/anchored.rs:44-48 | a stack under a frame pushed on a stack is under that stack, and under namespaces only when the frame is a namespace |
| Anchored.InterfaceStaysInNamespaces | src/ast/anchored.rs:119-123 | the interface walk visits only functions reached through namespace frames, never through a function body |
| Anchored.InterfaceListStaysInNamespaces | src/ast/anchored.rs:105-123 | the same for a list of namespaces |
| Anchored.SchemaStaysUnder | src/ast/anchored.rs:111-117 | every function the schema walk visits sits under the starting stack |
| Anchored.SchemaFunListStaysUnder | src/ast/anchored.rs:111-133 | the same for a list of functions |
| Anchored.SchemaNamespaceListStaysUnder | src/ast/anchored.rs:105-117 | the same for a list of namespaces |
| Anchored.FunOfSchemaUnderFunction | src/ast/anchored.rs:126-133 | everything visited inside a function's body sits under that function's frame, before the function itself |
| Anchored.InterfaceInSchema | src/ast/anchored.rs:111-123 | the schema walk visits every function the interface walk visits |
| Anchored.LocalFunsInSchema | src/ast/anchored.rs:99-117 | a body's own functions are among those the schema walk visits |
| Anchored.InterfaceListInSchema | src/ast/anchored.rs:105-123 | the same inclusion over a list of namespaces |
| Anchored.FilterFuns | src/ast/anchored.rs:76-89 | exactly the functions the predicate accepts reach the callback, and never more of them than there were |
| Anchored.FilterFunsAppend | src/ast/anchored.rs:76-89 | the callback sees the accepted functions in their original order: filtering a concatenation is filtering each part and concatenating the results |
| Anchored.FilterFunSide | src/ast/anchored.rs:91-96 | exactly the functions of the given side reach the callback |
| Anchored.FilterSidesPartition | src/ast/anchored.rs:91-96 | the client and server filters split the functions between them |
| Anchored.FilterComplement | src/ast/anchored.rs:76-89 | filters by a predicate and by its negation split the functions between them |
| Common.Lines | lavish/src/parser/errors.rs:112 | `lines()` yields no line holding a newline, and no line at all exactly for empty input |
| Common.LinesJoin | lavish/src/parser/errors.rs:112 | without carriage returns, the lines joined by newlines give back the input, less one final newline |
| Common.ReplaceByEmptyShrinks | src/parser/errors.rs:82 | removing a pattern with `replace` never lengthens the text |
| Common.NatToStringParses | lavish/src/parser/errors.rs:228-233 | the decimal text of a line or column number reads back as that number |
| Common.Lower | lavish/src/parser/span.rs:216-220 | lower-casing keeps the length and lowers each character in place |
| Common.FirstMismatch | lavish/src/parser/span.rs:199-200 | the index found is the first aligned pair that differs; none means every aligned pair agrees |
| Common.Reversed | lavish/src/parser/errors.rs:282-283 | the reversed list has the same length, and its k-th entry is the k-th from the end |
| Common.ReversedTwice | lavish/src/parser/errors.rs:282-283 | reversing twice gives the list back |
| Dupes.LastSeen | lavish/src/checker/noredef.rs:22-26 | after the loop, every name in the map points at an item carrying that name |
| Dupes.LastSeenCovers | lavish/src/checker/noredef.rs:22-26 | every item's name is in the map after the loop |
| Dupes.LastSeenIsLatest | lavish/src/checker/noredef.rs:22-26 | the map holds each name's latest item: no later item carries the name |
| Dupes.LastSeenKeys | lavish/src/checker/noredef.rs:22-26 | the map has exactly one key per distinct name |
| Dupes.Redefinitions | lavish/src/checker/noredef.rs:25-41 | each reported redefinition pairs an item with an earlier item of the same name |
| Dupes.RedefinitionCount | lavish/src/checker/noredef.rs:25-27 | the number of errors is the number of items less the number of distinct names |
| Dupes.DistinctHasNoRedefinition | lavish/src/checker/noredef.rs:25-27 | distinct names give no error |
| Dupes.RepeatIsRedefinition | lavish/src/checker/noredef.rs:25-27 | two items with one name give at least one error |
| Dupes.NoRedefinitionsIffDistinct | lavish/src/checker/noredef.rs:25-27 | no error is reported exactly when all names differ |
| IndexMaps.Keys | src/codegen/rust/ir.rs:25-27 | the keys, in entry order |
| IndexMaps.Values | src/codegen/rust/ir.rs:62-69 | the values, in entry order, as `values()` yields them |
| IndexMaps.Position | src/codegen/rust/ir.rs:29-32 | a key found stands at that entry; none means the key is absent |
| IndexMaps.PositionUnique | src/codegen/rust/ir.rs:29-32 | with distinct keys, a key stands at one entry only |
| IndexMaps.InsertSpec | src/codegen/rust/ir.rs:29-32 | inserting keeps keys distinct, maps the key to the new value, leaves other keys alone, and appends only a new key |
| IndexMaps.InsertAllStep | src/codegen/rust/ir.rs:29-32 | one more turn of an insertion loop inserts one more pair |
| IndexMaps.InsertAllSpec | src/codegen/rust/ir.rs:29-43 | after a loop of inserts each key holds its last value, and keys stand in first-insertion order |
| IndexMaps.InsertAllValues | src/codegen/rust/ir.rs:29-43 | every value in the filled map came from an inserted pair |
| Convos.ChildErrorsMeaning | src/checker/convos.rs:49-74 | a direct child is reported exactly when it is not on the side opposite its parent's, and the report names the opposite side |
| Convos.FunctionClean | src/checker/convos.rs:47-79 | a function reports nothing exactly when its children, and theirs, alternate sides |
| Convos.BodyClean | src/checker/convos.rs:36-45 | a body reports nothing exactly when everything in it alternates |
| Convos.NamespaceListClean | src/checker/convos.rs:36-40 | a list of namespaces reports nothing exactly when each alternates |
| Convos.NamespaceClean | src/checker/convos.rs:30-34 | a namespace reports nothing exactly when its body alternates |
| Convos.FunctionListClean | src/checker/convos.rs:41-43 | a list of functions reports nothing exactly when each alternates |
| Convos.SchemaClean | src/checker/convos.rs:22-28 | the schema passes exactly when every root namespace alternates |
| Convos.RootFunctionsUnchecked | src/checker/convos.rs:22-28 | functions at the schema root are never visited: changing them changes no report |
| Convos.NoBodyNoError | src/checker/convos.rs:49 | a function without a body reports nothing, whatever its side |
| Convos.Visitor.constructor | src/checker/convos.rs:86 | the visitor starts with no errors |
| Convos.Visitor.VisitSchema | src/checker/convos.rs:22-28 | visiting the schema adds exactly the schema's reports |
| Convos.Visitor.VisitNamespaces | src/checker/convos.rs:24-26 | visiting namespaces in turn adds their reports in order |
| Convos.Visitor.VisitNamespace | src/checker/convos.rs:30-34 | visiting a namespace adds its body's reports |
| Convos.Visitor.VisitBody | src/checker/convos.rs:36-45 | a body adds its namespaces' reports, then its functions' |
| Convos.Visitor.VisitFunctions | src/checker/convos.rs:41-43 | visiting functions in turn adds their reports in order |
| Convos.Visitor.VisitFunction | src/checker/convos.rs:47-79 | a function adds one report per misplaced child, then its body's reports |
| Convos.Check | src/checker/convos.rs:85-95 | Ok exactly when every root namespace alternates; otherwise an error whose count is the positive number of reports |
| IrAtoms.OfKind | src/codegen/rust/ir.rs:136-139 | an atom's functions are exactly the protocol's functions of its kind, in order |
| IrAtoms.OfKindAppend | src/codegen/rust/ir.rs:136-139 | filtering by kind keeps the functions' relative order |
| IrAtoms.KindsPartition | src/codegen/rust/ir.rs:136-139 | every function lands in the atoms of exactly one kind |
| IrAtoms.AtomRoot | src/codegen/rust/ir.rs:143-145 | the root path is one "super::" per level of depth |
| IrAtoms.MethodArms | src/codegen/rust/ir.rs:160-170 | one `method` arm per function of the atom's kind, in order |
| IrAtoms.MethodPanicsIffEmpty | src/codegen/rust/ir.rs:154-157 | `method` is the panic line exactly when no function has the atom's kind |
| IrAtoms.DeserializeArms | src/codegen/rust/ir.rs:188-202 | three commands per function: its quoted rpc name, then the `Ok` building its variant |
| IrAtoms.Dispatch | src/codegen/rust/ir.rs:186-214 | a method name selects the first arm whose literal it is, or the `_` error arm when none is |
| IrAtoms.QuotedInjective | src/codegen/rust/ir.rs:328-333 | distinct names quote to distinct literals |
| IrAtoms.DispatchRoundTrip | src/codegen/rust/ir.rs:149-214 | with distinct rpc names, the name `method` gives a variant makes `deserialize` pick that variant back |
| IrAtoms.EnumVariants | src/codegen/rust/ir.rs:226-233 | one enum variant per function of the atom's kind, in order |
| IrAtoms.AtomLayout | src/codegen/rust/ir.rs:220-244 | an atom is the derive, allow and untagged lines, the enum, then the impl, in that order |
| IrAtoms.ProtocolAtoms | src/codegen/rust/ir.rs:409-428 | the protocol has three atoms, each one level deeper than the protocol |
| IrAtoms.ProtocolLayout | src/codegen/rust/ir.rs:405-434 | `pub mod protocol` holds the Params, Results and NotificationParams atoms in that order, each a line one level in |
| IrAtoms.ProtocolCovers | src/codegen/rust/ir.rs:409-428 | requests appear in Params and Results, notifications only in NotificationParams |
| IrNames.ChildPrefix | src/codegen/rust/ir.rs:18-23 | a name under a child namespace's prefix is under its parent's prefix too |
| IrNames.Tokens | src/codegen/rust/ir.rs:446-454 | the full name splits on '.' into at least one dot-free token |
| IrNames.RpcNameIsFullName | src/codegen/rust/ir.rs:446-458 | the rpc name, the tokens joined by '.', is the full name |
| IrNames.ReplaceJoin | src/codegen/rust/ir.rs:460-462 | replacing the separator of a join is joining with the replacement |
| IrNames.QualifiedIsPath | src/codegen/rust/ir.rs:480-482 | the qualified name is the rpc name with every "." read as "::" |
| IrNames.VariantOfTokens | src/codegen/rust/ir.rs:460-462 | the variant is the tokens joined by "__" and lower-cased, and holds no dot |
| IrNames.ReplaceKeepsOut | src/codegen/rust/ir.rs:460-462 | replacing adds no character that neither the text nor the replacement holds |
| IrNames.VariantSingleLine | src/codegen/rust/ir.rs:460-462 | a variant fits on one line when the rpc name does |
| IrNames.QualifiedType | src/codegen/rust/ir.rs:103-105 | the qualified type is the qualified name, "::" and the kind |
| IrNames.ShortType | src/codegen/rust/ir.rs:107-113 | the short type is "()" exactly when the struct has no fields, and the qualified type otherwise |
| IrNames.StructNamesDiffer | src/codegen/rust/ir.rs:91-105 | a function's params and results structs have different types and different variants |
| LavishAst.DefaultComment | lavish/src/ast.rs:265-269 | the default comment has no lines |
| LavishAst.TypeText | lavish/src/ast.rs:207-211 | a type's text is exactly the source text under its span |
| LavishAst.AddItem | lavish/src/ast.rs:154-166 | the item goes at the end of exactly the list of its kind; the other lists and the header are untouched |
| LavishAst.NewNamespaceDecl | lavish/src/ast.rs:134-152 | the header is kept and each list holds exactly the items of its kind, in order |
| LavishAst.PartitionCounts | lavish/src/ast.rs:134-166 | every item is kept in exactly one list: the list sizes add up to the number of items |
| LavishAst.PartitionKeepsItem | lavish/src/ast.rs:154-166 | an item is found in the list of its own kind |
| LavishAst.FunctionsOfAppend | lavish/src/ast.rs:147-149 | adding items in turn keeps the relative order of the functions |
| LavishAst.Resolve | lavish/src/ast.rs:68-88 | the path next to the rules wins when it exists, then the vendored path; the error, naming the schema and suggesting a fetch, comes exactly when neither exists |
| LegacyAst.NewModule | src/ast.rs:15-19 | a module keeps its namespaces as given, in order |
| LegacyAst.DefaultComment | src/ast.rs:75-79 | the default comment has no lines |
| LegacyAst.AddItem | src/ast.rs:102-114 | the item goes at the end of exactly the list of its kind; one more item in all |
| LegacyAst.NewNamespaceDecl | src/ast.rs:82-100 | the header is kept and each list holds exactly the items of its kind, in order |
| LegacyAst.PartitionKeepsItem | src/ast.rs:102-114 | an item is found in the list of its own kind |
| LegacyAst.StructsOfAppend | src/ast.rs:96-98 | adding items in turn keeps the relative order of the structs |
| LegacyAst.FunctionsOfAppend | src/ast.rs:96-98 | and of the functions |
| LegacyAst.NamespacesOfAppend | src/ast.rs:96-98 | and of the namespaces |
| NewAst.NewRustTarget | src/ast/nodes.rs:59-71 | the wrapper starts as `mod` and the last wrapper item decides it |
| NewAst.Resolve | src/ast/nodes.rs:99-119 | the path next to the rules wins when it exists, then the vendored path; the error comes exactly when neither exists |
| NewAst.IdentifierText | src/ast/nodes.rs:153-157 | an identifier's text is exactly the source text under its span |
| NewAst.TypeText | src/ast/nodes.rs:284-288 | a type's text is exactly the source text under its span |
| NewAst.Other | src/ast/nodes.rs:253-260 | the other side is never the side itself |
| NewAst.OtherInvolution | src/ast/nodes.rs:253-260 | taking the other side twice gives the side back |
| NewAst.SideName | src/ast/nodes.rs:244-251 | a side displays as a six-letter word |
| NewAst.SideNameInjective | src/ast/nodes.rs:244-251 | two sides display alike exactly when they are the same side |
| NewAst.VariantHashByName | src/ast/nodes.rs:356-360 | an enum variant's hash depends only on its name's text |
| NewAst.DefaultComment | src/ast/nodes.rs:367-371 | the default comment has no lines |
| NewAst.AddItem | src/ast/nodes.rs:200-215 | the item goes at the end of exactly the list of its kind, nothing else changes |
| NewAst.NewNamespaceBody | src/ast/nodes.rs:187-198 | each of the four lists holds exactly the items of its kind, in order |
| NewAst.PartitionCounts | src/ast/nodes.rs:187-215 | every item is kept in exactly one list: the four sizes add up to the number of items |
| NewAst.PartitionKeepsItem | src/ast/nodes.rs:200-215 | an item is found in the list of its own kind |
| NewAst.EnumsOfAppend | src/ast/nodes.rs:195-197 | adding items in turn keeps the relative order of the enums |
| LavishCodegen.FromIo | lavish/src/codegen/mod.rs:17-23 | an I/O error becomes a message that starts with "i/o error: " and continues with the I/O error's text |
| LavishCodegen.FromStr | lavish/src/codegen/mod.rs:25-29 | a static string becomes the message unchanged |
| LavishCodegen.DisplayRoundTrip | lavish/src/codegen/mod.rs:31-35 | the displayed text is "codegen error: " and the message, and the message can be read back from it, exactly for displayed texts |
| LavishCodegen.FirstError | lavish/src/codegen/mod.rs:43-45 | the reported failure is the earliest failing member in iteration order, and every member before it succeeded; none means all succeeded |
| LavishCodegen.Codegen | lavish/src/codegen/mod.rs:37-49 | a non-Rust target is refused before anything is emitted; otherwise members are emitted in order, up to and including the first failure, whose error is returned |
| LavishCodegen.FirstErrorAt | lavish/src/codegen/mod.rs:43-45 | a member that fails after only successes is the one reported |
| LavishCodegen.FirstErrorNone | lavish/src/codegen/mod.rs:43-48 | when every member succeeds no failure is reported |
| LavishCodegen.CodegenSucceeds | lavish/src/codegen/mod.rs:37-49 | for a Rust target codegen succeeds exactly when every member emits, and otherwise fails with the earliest member's error |
| LegacyCodegen.NsPrefix | src/codegen/rust.rs:15 | a namespace's prefix extends its parent's prefix and ends with a dot |
| LegacyCodegen.Own | src/codegen/rust.rs:17-22 | one entry per own function, in order, named by the prefix and the function's name |
| LegacyCodegen.VisitNs | src/codegen/rust.rs:10-27 | the collection grows by exactly the namespace's functions followed by those of its children, depth first |
| LegacyCodegen.VisitedCount | src/codegen/rust.rs:10-27 | the walk collects one entry per function declared anywhere in the tree |
| LegacyCodegen.NestedCount | src/codegen/rust.rs:24-26 | the children's walks together collect one entry per function declared under them |
| LegacyCodegen.VisitedNames | src/codegen/rust.rs:15-21 | every collected full name starts with the dotted path of the namespaces that hold it and ends with "." and the function's name |
| LegacyCodegen.OwnName | src/codegen/rust.rs:18-20 | a full name starts with its prefix and ends with "." and the function's name |
| LegacyCodegen.NestedNames | src/codegen/rust.rs:24-26 | every name a child collects lies under the parent's prefix |
| LegacyCodegen.ReportLines | src/codegen/rust.rs:66-68 | one report line per collected function, "Found " and its full name, in order |
| LegacyCodegen.Codegen | src/codegen/rust.rs:29-71 | the output file holds exactly the fixed `Message` header and the report lists every function of every module, in walk order |
| LavishErrors.NewSource | lavish/src/parser/errors.rs:111-114 | a source keeps its name and input, and its line table holds no newline and is empty exactly for empty input |
| LavishErrors.FromString | lavish/src/parser/errors.rs:104-109 | an in-memory source is named "<memory>" and keeps its input |
| LavishErrors.SourceLinesJoin | lavish/src/parser/errors.rs:111-114 | without carriage returns, the line table joined by newlines gives the input back but for one final newline |
| LavishErrors.FromRes | lavish/src/parser/errors.rs:121-138 | a parser's result is output exactly when it is done, never incomplete, and errors keep their entries |
| LavishErrors.ParseOfRes | lavish/src/parser/errors.rs:121-138 | `parse` succeeds exactly when the parser is done, with its value; otherwise it is a source error carrying the parser's entries |
| LavishErrors.ParseRules | lavish/src/parser/errors.rs:146-148 | rules parse exactly when the rules grammar accepts the source, to its value; otherwise a source error with the grammar's entries |
| LavishErrors.ParseSchema | lavish/src/parser/errors.rs:140-144 | the same for the schema grammar |
| LavishErrors.UnknownText | lavish/src/parser/errors.rs:65-73 | an unknown error's text ends with the source's name |
| LavishErrors.BuilderDefaults | lavish/src/parser/errors.rs:167-198 | an untouched builder gives a blue caret, no prefix and an empty message; each setter changes its own field only |
| LavishErrors.InfoAndErr | lavish/src/parser/errors.rs:268-278 | information and error diagnostics differ only in the caret's colour, blue or red, and carry the message with no prefix |
| LavishErrors.TildesMark | lavish/src/parser/errors.rs:245-253 | the tildes never run past the line's end, and with the caret they cover exactly the span when it fits |
| LavishErrors.CaretAt | lavish/src/parser/errors.rs:238-255 | the caret stands after the prefix and `column` spaces, followed only by tildes |
| LavishErrors.Render | lavish/src/parser/errors.rs:221-257 | a diagnostic renders exactly when its line exists and its column is at most that line's length; otherwise the source panics (line index, tilde count underflow) |
| LavishErrors.CaretPointsAtOffset | lavish/src/parser/span.rs:55-76 | the located line and column hold the very character the span starts at |
| LavishErrors.WidthCons | lavish/src/parser/span.rs:55-76 | the width of a line table is its first line, a newline and the width of the rest |
| LavishErrors.LinesAt | lavish/src/parser/span.rs:55-76 | character `c` of line `l` stands in the input right after the earlier lines and their newlines |
| LavishErrors.FoundChar | lavish/src/parser/errors.rs:290-297 | the found character is the one at the entry's offset, or '\0' at the end of the input |
| LavishErrors.PrintErrors | lavish/src/parser/errors.rs:281-312 | the output is a newline followed by each entry's diagnostic, last entry first, or a panic when one cannot be rendered |
| LavishErrors.BlocksPanicSticks | lavish/src/parser/errors.rs:286-310 | once an entry panics no later entry undoes it |
| LavishErrors.BlocksPrefix | lavish/src/parser/errors.rs:286-310 | the output for the first entries is a prefix of the output for them all |
| LavishErrors.OutermostFirst | lavish/src/parser/errors.rs:281-285 | the outermost context, nom's last entry, is printed first, right after the opening newline |
| LavishErrors.EmptySourcePanics | lavish/src/parser/errors.rs:235 | printing any entry of an empty source panics, since it has no line to show |
| LavishErrors.EmptyRulesPanics | lavish/src/parser/errors.rs:146-148 | an empty rules file is refused, and printing that refusal panics |
| LavishErrors.CharAtEndFoundNul | lavish/src/parser/errors.rs:290-297 | an expected character at the end of the input reports '\0' as found |
| LavishErrors.UnexpectedShowsBoth | lavish/src/parser/errors.rs:51-59 | an unexpected-source error shows what was expected and, after ", got ", what came |
| NewErrors.NameAsWritten | src/parser/errors.rs:82 | as written, removing every "./" never lengthens the name |
| NewErrors.ParentPathMangled | src/parser/errors.rs:82 | as written, "../a" is named ".a" |
| NewErrors.SourceNameStrips | src/parser/errors.rs:82 | corrected: only leading "./" are stripped; the name is a suffix of the path that no longer starts with "./", and any other path keeps its name |
| NewErrors.ParentPathKept | src/parser/errors.rs:82 | corrected: "../a" keeps its name |
| NewErrors.NewSource | src/parser/errors.rs:70-86 | a source keeps the input read, its line table holds no newline and is empty exactly for empty input, and its name is the path with only a leading "./" removed (the corrected naming: as written every "./" goes) |
| NewErrors.ParseKinds | src/parser/errors.rs:89-103 | `parse` succeeds exactly on output, with its value; an error or a failure becomes a source error with nom's entries; only a request for more input is an unknown error |
| NewErrors.DiagnosticBuilder.constructor | src/parser/errors.rs:113-120 | a new builder has no field set |
| NewErrors.DiagnosticBuilder.SetPos | src/parser/errors.rs:113-120 | sets the position and leaves the other fields as they were |
| NewErrors.DiagnosticBuilder.SetCaretColor | src/parser/errors.rs:113-120 | sets the caret colour and leaves the other fields as they were |
| NewErrors.DiagnosticBuilder.SetPrefix | src/parser/errors.rs:113-120 | sets the prefix and leaves the other fields as they were |
| NewErrors.DiagnosticBuilder.SetMessage | src/parser/errors.rs:113-120 | sets the message and leaves the other fields as they were |
| NewErrors.DiagnosticBuilder.Build | src/parser/errors.rs:124-133 | every field as set, or else as in the default diagnostic (no position, blue caret, empty prefix and message) |
| NewErrors.Diag | src/parser/errors.rs:203-208 | a fresh builder that builds the position and the message with a blue caret and no prefix |
| NewErrors.DiagInfo | src/parser/errors.rs:210-214 | the same with a blue caret |
| NewErrors.DiagErr | src/parser/errors.rs:216-220 | the same with a red caret |
| NewErrors.Render | src/parser/errors.rs:155-194 | a diagnostic without a position always renders; with one it renders exactly when its line exists, and otherwise the source panics |
| NewErrors.MarkWidth | src/parser/errors.rs:172-186 | the caret line is the prefix, `column` spaces, the caret and `len - 1` tildes, never clamped to the line's end |
| NewErrors.NoPositionShowsMessageOnly | src/parser/errors.rs:188-190 | without a position, neither the prefix nor the caret colour shows: diagnostics with the same message render alike |
| NewErrors.EntryMessage | src/parser/errors.rs:232-238 | with the span logging corrected (`NewSpan.DebugPreview`), an entry's message panics exactly when it is an expected character at the end of the input |
| NewErrors.EntryLogPanicsAsWritten | src/parser/span.rs:25-32 | as written, the logging in `span.chars()` panics on an expected character near the end: entry (0, 'x') over "ab" has a message on the corrected logging, yet its span is too short for the preview |
| NewErrors.EntryDiagnostic | src/parser/errors.rs:228-250 | every entry's diagnostic is placed at the entry's span, with a blue caret exactly for a context |
| NewErrors.WriteEntry | src/parser/errors.rs:228-250 | with the span logging corrected, one turn of the loop writes exactly the entry's block |
| NewErrors.PrintErrors | src/parser/errors.rs:223-254 | with the span logging corrected, the output is a newline and each entry's block, last entry first, or a panic when one cannot be written |
| NewErrors.BlocksPanicSticks | src/parser/errors.rs:227-251 | once an entry panics no later entry undoes it |
| NewErrors.CharAtEndPanics | src/parser/errors.rs:232-238 | an expected character at the end of the input makes printing panic, whatever comes after |
| NewErrors.Display | src/parser/errors.rs:21-29 | an unknown error shows "unknown error"; a source error's text starts with a newline |
| NewErrors.UnknownText | src/parser/errors.rs:47-55 | an unknown error's text ends with the source's name |
| LavishGen.FunsOf | lavish/src/codegen/rust/mod.rs:33-40 | exactly the functions whose notification flag matches the kind, none added |
| LavishGen.FunsOfAtoms | lavish/src/codegen/rust/mod.rs:33-40 | selecting functions by kind and then reading their atoms is reading the atoms and then selecting by kind |
| LavishGen.FieldLines | lavish/src/codegen/rust/mod.rs:166-170 | one "pub name: type," line per field, in order |
| LavishGen.UseRootClimbs | lavish/src/codegen/rust/mod.rs:124-125 | the `use` of a function module at depth `d` climbs `d + 2` levels and lands on `__` |
| LavishGen.ParamsSide | lavish/src/codegen/rust/mod.rs:175-183 | the params struct downgrades from `NotificationParams` exactly for a notification, from `Params` otherwise |
| LavishGen.ResultsCmds | lavish/src/codegen/rust/mod.rs:185-195 | a results struct is written exactly for a request |
| LavishGen.WrittenIsFuns | lavish/src/codegen/rust/mod.rs:105-203 | the walk writes one module per function, in exactly the order `Namespace::funs` lists them, which the enums and atoms use |
| LavishGen.WrittenChildrenIsFuns | lavish/src/codegen/rust/mod.rs:106-108 | the same for the child namespaces written so far |
| LavishGen.WrittenLocalIsFuns | lavish/src/codegen/rust/mod.rs:199-201 | the same for the local functions written so far |
| LavishGen.WrittenFunIsFuns | lavish/src/codegen/rust/mod.rs:121-196 | the same for one function and its body |
| LavishGen.EnumLines | lavish/src/codegen/rust/mod.rs:263-276 | one "variant(qualified::Kind)," line per function, in order |
| LavishGen.ParamsDef | lavish/src/codegen/rust/mod.rs:341-345 | a client method takes a `p` argument exactly when the function has parameters, typed by its params struct |
| LavishGen.MethodArms | lavish/src/codegen/rust/mod.rs:387-395 | one arm per function of the kind, in order |
| LavishGen.WriteMethodMatch | lavish/src/codegen/rust/mod.rs:386-400 | the counting loop writes exactly the arms and, when it counted none, the catch-all |
| LavishGen.UnimplementedIffEmpty | lavish/src/codegen/rust/mod.rs:397-399 | the catch-all arm is written exactly when the atom has no function, and then it is the only arm |
| LavishGen.DeserializeArms | lavish/src/codegen/rust/mod.rs:415-428 | three lines per function: its quoted rpc name, and the constructor of its variant from its struct |
| LavishGen.DispatchRoundTrip | lavish/src/codegen/rust/mod.rs:383-428 | with distinct rpc names, the name `method` writes for a function selects that same function's arm in `deserialize` |
| LavishGen.HandlerFields | lavish/src/codegen/rust/mod.rs:473-480 | the handler holds the state, then one slot per request named by its variant |
| LavishGen.HandlerInits | lavish/src/codegen/rust/mod.rs:485-496 | `Handler::new` sets the state, then every request's slot to none |
| LavishGen.FieldNameOf | lavish/src/codegen/rust/mod.rs:476-491 | the field name of a "name: ..." line is the name |
| LavishGen.HandlerInitsCoverFields | lavish/src/codegen/rust/mod.rs:473-496 | `Handler::new` initialises exactly the slots the struct declares, in the same order |
| LavishGen.SlotArms | lavish/src/codegen/rust/mod.rs:570-576 | each request's params are routed to the slot of the same name |
| LavishGen.OutputPath | lavish/src/codegen/rust/mod.rs:253 | a member is written to its own directory's `mod.rs` under the workspace directory |
| LavishGen.FileStartsWithPrelude | lavish/src/codegen/rust/mod.rs:256-257 | every generated file starts with the prelude, whatever the schema holds |
| LavishGen.MemberNames | lavish/src/codegen/rust/mod.rs:230-232 | the member names in the map's iteration order |
| LavishGen.ModLines | lavish/src/codegen/rust/mod.rs:230-232 | one "pub mod name;" line per member |
| LavishGen.WorkspaceModText | lavish/src/codegen/rust/mod.rs:218-236 | the workspace's `mod.rs` is the prelude and then one module line per member, in iteration order |
| LavishGen.WorkspaceCovers | lavish/src/codegen/rust/mod.rs:218-236 | every member gets its module line |
| LavishIr.DeclBody | lavish/src/codegen/rust/ir.rs:61-64 | a declaration read as a body keeps its functions, structs and namespaces |
| LavishIr.FunEntries | lavish/src/codegen/rust/ir.rs:48-51 | the function loop inserts one pair per function, its name and its IR, in order |
| LavishIr.StruEntries | lavish/src/codegen/rust/ir.rs:53-57 | the struct loop inserts one pair per struct, named under the prefix |
| LavishIr.ChildEntries | lavish/src/codegen/rust/ir.rs:59-62 | the namespace loop inserts one pair per child, built under the prefix |
| LavishIr.DeclAgrees | lavish/src/codegen/rust/ir.rs:59-62 | a child is built as its items, read as a body, would be |
| LavishIr.FunsSizeAt | lavish/src/codegen/rust/ir.rs:48-51 | a function is no larger than the list holding it |
| LavishIr.DeclsSizeAt | lavish/src/codegen/rust/ir.rs:59-62 | a child declaration is no larger than the list holding it |
| LavishIr.BuildNamespace | lavish/src/codegen/rust/ir.rs:35-69 | the three loops build exactly the namespace the specification function describes |
| LavishIr.FillFuns | lavish/src/codegen/rust/ir.rs:48-51 | the function map is the insertion of every function pair, in order |
| LavishIr.FillStrus | lavish/src/codegen/rust/ir.rs:53-57 | the struct map is the insertion of every struct pair, in order |
| LavishIr.FillChildren | lavish/src/codegen/rust/ir.rs:59-62 | the child map is the insertion of every child pair, in order |
| LavishIr.BuildFun | lavish/src/codegen/rust/ir.rs:647-655 | `Fun::new` builds the function the specification function describes |
| LavishIr.NamespaceMaps | lavish/src/codegen/rust/ir.rs:35-69 | each map has distinct keys in order of first declaration, and a name declared twice holds its last declaration |
| LavishIr.FunFuns | lavish/src/codegen/rust/ir.rs:711-718 | a function's list starts with the function itself |
| LavishIr.InChildFuns | lavish/src/codegen/rust/ir.rs:70-78 | a function among the children's lists comes from one of the children |
| LavishIr.InLocalFuns | lavish/src/codegen/rust/ir.rs:70-78 | a function among the local lists comes from one local function |
| LavishIr.ChildOrigin | lavish/src/codegen/rust/ir.rs:59-62 | every child in the map was built from one of the declared namespaces |
| LavishIr.FunOrigin | lavish/src/codegen/rust/ir.rs:48-51 | every function in the map was built from one of the declared functions |
| LavishIr.NsFunPrefixed | lavish/src/codegen/rust/ir.rs:35-69 | every function under a namespace, however deep, has an rpc name extending the namespace's prefix |
| LavishIr.FunFunPrefixed | lavish/src/codegen/rust/ir.rs:647-655 | every function in a function's body extends the function's prefix |
| LavishIr.NsFunsPrefixed | lavish/src/codegen/rust/ir.rs:70-78 | all rpc names listed under a namespace extend its prefix |
| LavishIr.KindOf | lavish/src/codegen/rust/ir.rs:693-705 | a function is a notification exactly when it carries the notification modifier |
| LavishIr.AtomFuns | lavish/src/codegen/rust/ir.rs:410-422 | one atom entry per function, with its kind and tokens, in order |
| LavishIr.DeriveDebug | lavish/src/codegen/rust/ir.rs:150-153 | `debug` appends "Debug" to the items |
| LavishIr.DeriveSerialize | lavish/src/codegen/rust/ir.rs:155-158 | `serialize` appends the serde Serialize path |
| LavishIr.DeriveDeserialize | lavish/src/codegen/rust/ir.rs:160-163 | `deserialize` appends the serde Deserialize path |
| LavishIr.DeriveOrder | lavish/src/codegen/rust/ir.rs:166-174 | `derive().debug().serialize()` renders the items in push order, comma-separated |
| LavishIr.AtomKinds | lavish/src/codegen/rust/ir.rs:693-705 | a function lands in the notification atom exactly when it carries the notification modifier, in the request atoms exactly otherwise |
| LavishNoRedef.Texts | lavish/src/checker/noredef.rs:22-25 | the names' texts, one per item, in order |
| LavishNoRedef.TextsPrefix | lavish/src/checker/noredef.rs:23-25 | the texts of the first items are the first texts |
| LavishNoRedef.NamespaceIds | lavish/src/checker/noredef.rs:64 | the namespaces' names, in order |
| LavishNoRedef.StructIds | lavish/src/checker/noredef.rs:65 | the structs' names, in order |
| LavishNoRedef.FunctionIds | lavish/src/checker/noredef.rs:66 | the functions' names, in order |
| LavishNoRedef.FieldIds | lavish/src/checker/noredef.rs:67 | the fields' names, in order |
| LavishNoRedef.DupeReportsCount | lavish/src/checker/noredef.rs:18-43 | one report per item whose name appeared earlier in the list |
| LavishNoRedef.DupeReportsCountNames | lavish/src/checker/noredef.rs:18-43 | a list adds as many errors as its length minus its number of distinct names |
| LavishNoRedef.DupeReportsClean | lavish/src/checker/noredef.rs:18-43 | a list adds no error exactly when its names are distinct |
| LavishNoRedef.DupeReportsPointBack | lavish/src/checker/noredef.rs:25-40 | the "first definition" a report points to is the latest earlier item of that name |
| LavishNoRedef.NamespaceReportsSplit | lavish/src/checker/noredef.rs:78-93 | a namespace's visit prints its child-name check, the children, its struct check, the structs, its function check and the functions, in that order |
| LavishNoRedef.StructListClean | lavish/src/checker/noredef.rs:85-87 | the structs print nothing exactly when each has distinct field names |
| LavishNoRedef.FunctionClean | lavish/src/checker/noredef.rs:104-115 | a function prints nothing exactly when its params and its results each have distinct names |
| LavishNoRedef.FunctionListClean | lavish/src/checker/noredef.rs:89-91 | the functions print nothing exactly when each function does |
| LavishNoRedef.NamespaceClean | lavish/src/checker/noredef.rs:78-93 | a namespace's visit prints nothing exactly when all names in it are distinct, list by list and level by level |
| LavishNoRedef.NamespaceListClean | lavish/src/checker/noredef.rs:81-83 | the child namespaces print nothing exactly when each is well named |
| LavishNoRedef.AllWellNamedEvery | lavish/src/checker/noredef.rs:81-83 | a list of namespaces is well named exactly when each one is |
| LavishNoRedef.SchemaClean | lavish/src/checker/noredef.rs:69-76 | the schema prints nothing exactly when it is well named |
| LavishNoRedef.CheckStep | lavish/src/checker/noredef.rs:23-41 | one turn of the loop records the item's name and adds a report exactly when the name was already recorded |
| LavishNoRedef.Visitor.constructor | lavish/src/checker/noredef.rs:121 | a new visitor has counted and printed nothing |
| LavishNoRedef.Visitor.CheckDupes | lavish/src/checker/noredef.rs:18-43 | the loop adds exactly the list's redefinition reports, and the count follows the reports |
| LavishNoRedef.Visitor.VisitNamespace | lavish/src/checker/noredef.rs:78-93 | the visit adds exactly the namespace's reports |
| LavishNoRedef.Visitor.VisitNamespaces | lavish/src/checker/noredef.rs:81-83 | the loop adds exactly the children's reports |
| LavishNoRedef.Visitor.VisitStructs | lavish/src/checker/noredef.rs:85-87 | the loop adds exactly the structs' reports |
| LavishNoRedef.Visitor.VisitFunctions | lavish/src/checker/noredef.rs:89-91 | the loop adds exactly the functions' reports |
| LavishNoRedef.Visitor.VisitFunction | lavish/src/checker/noredef.rs:104-115 | the visit adds exactly the function's reports |
| LavishNoRedef.Visitor.VisitSchema | lavish/src/checker/noredef.rs:69-76 | the visit adds exactly the schema's reports |
| LavishNoRedef.Check | lavish/src/checker/noredef.rs:120-130 | the check passes exactly when the schema is well named, and otherwise reports a positive count equal to the number of redefinitions |
| LavishOutput.OutAppend | lavish/src/codegen/rust/output.rs:260-290 | writing `a` then `b` is writing `a + b`: the output does not depend on how the text is split into writes |
| LavishOutput.OutToken | lavish/src/codegen/rust/output.rs:271-286 | a piece without newlines is written as is, indented first when the line has no indentation yet; an empty piece changes nothing |
| LavishOutput.IndentLines | lavish/src/codegen/rust/output.rs:260-290 | each line indented on its own, in order |
| LavishOutput.OutNewline | lavish/src/codegen/rust/output.rs:264-269 | a newline always starts a fresh line that needs indenting |
| LavishOutput.OutLineThenRest | lavish/src/codegen/rust/output.rs:260-290 | a line and a newline from the start of a line are the indented line, the newline and the rest |
| LavishOutput.JoinIndentedCons | lavish/src/codegen/rust/output.rs:260-290 | indenting lines and joining them can be done one line at a time |
| LavishOutput.OutIndentsLines | lavish/src/codegen/rust/output.rs:260-290 | from the start of a line, the output is the input with every non-empty line indented and blank lines left empty |
| LavishOutput.Sink.constructor | lavish/src/codegen/rust/output.rs:19-22 | a new sink holds no text |
| LavishOutput.RenderAppend | lavish/src/codegen/rust/output.rs:49-178 | running one list of commands after another continues from the first's state |
| LavishOutput.LineEnds | lavish/src/codegen/rust/output.rs:69-74 | `line` writes its text and a newline and always leaves the scope at the start of a line |
| LavishOutput.BlockLayout | lavish/src/codegen/rust/output.rs:111-122 | a block's body starts on a fresh line one level deeper, and the block closes with "}" at the scope's own indentation |
| LavishOutput.PiecesAgree | lavish/src/codegen/rust/output.rs:260-290 | the loop over the split pieces writes what the whole text specifies |
| LavishOutput.NewlineThenPiece | lavish/src/codegen/rust/output.rs:264-286 | a newline then a piece: the piece lands indented on a fresh line, and an empty piece leaves the line needing indentation |
| LavishOutput.Scope.constructor | lavish/src/codegen/rust/output.rs:50-56 | a new scope writes to the sink at column 0, at the start of a line |
| LavishOutput.Scope.Child | lavish/src/codegen/rust/output.rs:133-139 | a child scope shares the sink, is four columns deeper and starts at the start of a line |
| LavishOutput.Scope.WriteStr | lavish/src/codegen/rust/output.rs:260-290 | the sink grows by exactly the indented text and the state becomes the one the text ends in |
| LavishOutput.Scope.Lf | lavish/src/codegen/rust/output.rs:65-67 | a newline is written and the scope is at the start of a line |
| LavishOutput.Scope.Line | lavish/src/codegen/rust/output.rs:69-74 | the text and a newline are written, and the scope is at the start of a line |
| LavishOutput.Scope.Exec | lavish/src/codegen/rust/output.rs:103-109 | running the commands writes exactly their rendering and leaves the state it ends in |
| LavishOutput.Scope.InScope | lavish/src/codegen/rust/output.rs:103-109 | the body is written one level deeper from a fresh line, and this scope's state is unchanged |
| LavishOutput.Scope.InBlock | lavish/src/codegen/rust/output.rs:111-122 | " {", the body one level deeper, then "}" at this scope's indentation, ending at the start of a line |
| LavishOutput.Scope.DefStruct | lavish/src/codegen/rust/output.rs:92-101 | the derive line, the struct header, the fields one level deeper and the closing brace |
| LavishOutput.Scope.Comment | lavish/src/codegen/rust/output.rs:84-90 | no comment writes nothing; a comment writes one "/// " line per comment line |
| LavishOutput.Scope.InBrackets | lavish/src/codegen/rust/output.rs:159-169 | the opening bracket, the body in this same scope, the closing bracket |
| LavishOutput.Scope.InList | lavish/src/codegen/rust/output.rs:141-150 | the list's text, written through this scope |
| LavishOutput.Pair | lavish/src/codegen/rust/output.rs:188-195 | a bracket kind's two characters differ |
| LavishOutput.BracketsDistinct | lavish/src/codegen/rust/output.rs:188-203 | the eight bracket characters are distinct, so a character identifies its kind and side |
| LavishOutput.ListTextShape | lavish/src/codegen/rust/output.rs:228-257 | a non-empty list is its items joined by ", " between the brackets; an empty one prints nothing exactly when asked to omit it, and both brackets otherwise |
| LavishOutput.OpenedAppend | lavish/src/codegen/rust/output.rs:228-240 | each item adds the opening bracket (first item) or ", " (later ones), then its own text |
| LavishOutput.OutThen | lavish/src/codegen/rust/output.rs:260-290 | three writes in a row are one write of their concatenation |
| LavishOutput.OneWrite | lavish/src/codegen/rust/output.rs:228-240 | after one more write the sink holds what one write of the whole text would give |
| LavishOutput.TwoWrites | lavish/src/codegen/rust/output.rs:228-240 | the same for two more writes |
| LavishOutput.CommaList.constructor | lavish/src/codegen/rust/output.rs:215-222 | a new list is empty and not omitted, and remembers where its text starts |
| LavishOutput.CommaList.OmitEmpty | lavish/src/codegen/rust/output.rs:224-226 | sets the omit flag and nothing else |
| LavishOutput.CommaList.Item | lavish/src/codegen/rust/output.rs:228-241 | the item is appended, and the sink holds the list so far |
| LavishOutput.CommaList.Drop | lavish/src/codegen/rust/output.rs:243-257 | after the drop the sink holds exactly the list's text |
| LavishOutput.Fmt | lavish/src/codegen/rust/output.rs:124-131 | a fresh top-level scope writes exactly the body's rendering |
| LavishOutput.FreshLine | lavish/src/codegen/rust/output.rs:69-74 | a whole line from the start of a line is indented unless blank |
| LavishOutput.LineStep | lavish/src/codegen/rust/output.rs:69-74 | a whole line appended at the start of a line is the indentation, the text and a newline |
| LavishOutput.InnerLines | lavish/src/codegen/rust/output.rs:307-314 | the innermost block writes its lines eight columns deep, a blank line left empty |
| LavishOutput.NestedScopes | lavish/src/codegen/rust/output.rs:301-316 | nested scopes indent by four columns each and return to the parent's column |
| LavishOutput.MiddleBlock | lavish/src/codegen/rust/output.rs:303-316 | the middle block opens, writes the inner block and closes at four columns |
| LavishOutput.TestScope | lavish/src/codegen/rust/output.rs:295-332 | the writer's test produces exactly the expected text |
| LavishParser.Id | lavish/src/parser/mod.rs:152-159 | never commits; refuses exactly where no identifier character stands; otherwise reads the maximal run of identifier characters, its text the source under its span |
| LavishParser.StringLit | lavish/src/parser/mod.rs:162-182 | never commits; a literal is a quote, at least one character and a quote, its value the text between, its location the empty span before the opening quote |
| LavishParser.CommentLines | lavish/src/parser/mod.rs:430-433 | reads zero or more comment lines and stays within the input |
| LavishParser.OptComment | lavish/src/parser/mod.rs:435-440 | no comment exactly when nothing was read |
| LavishParser.TargetP | lavish/src/parser/mod.rs:47-58 | a target reads the keyword and more, within the input |
| LavishParser.TargetName | lavish/src/parser/mod.rs:52-56 | the three target names never commit and, when one matches, read past it |
| LavishParser.From | lavish/src/parser/mod.rs:101-109 | a `from` reads the keyword and more, within the input |
| LavishParser.OptFrom | lavish/src/parser/mod.rs:94 | an optional `from` is never a plain error: it reads one, reads nothing, or commits |
| LavishParser.BuildP | lavish/src/parser/mod.rs:87-98 | a build directive reads the keyword and more, within the input |
| LavishParser.NamedFrom | lavish/src/parser/mod.rs:94 | a name and an optional `from` read at least the name |
| LavishParser.Builds | lavish/src/parser/mod.rs:82-84 | any number of builds is never a plain error |
| LavishParser.RulesP | lavish/src/parser/mod.rs:35-45 | accepted rules consume the whole input; a refusal is a single entry: the missing `target` at the first non-space, or text left over at its start |
| LavishParser.ImportP | lavish/src/parser/mod.rs:117-127 | an import reads the keyword and more, within the input |
| LavishParser.Imports | lavish/src/parser/mod.rs:112-114 | any number of imports is never a plain error |
| LavishParser.BaseTag | lavish/src/parser/mod.rs:187-198 | a base type found is one of the base names and stands in the text |
| LavishParser.BaseTyp | lavish/src/parser/mod.rs:185-204 | never commits; a base type read is a base type and consumes its keyword |
| LavishParser.UserTyp | lavish/src/parser/mod.rs:258-266 | never commits; a user type's span is exactly the run it read |
| LavishParser.Wrapped | lavish/src/parser/mod.rs:207-234 | `Array<T>` and `Option<T>` read past their keyword |
| LavishParser.MapTyp | lavish/src/parser/mod.rs:237-255 | a map type read is a map and consumes its keyword |
| LavishParser.Typ | lavish/src/parser/mod.rs:268-271 | a type read consumes at least one character |
| LavishParser.FieldP | lavish/src/parser/mod.rs:279-295 | a field read consumes at least its name |
| LavishParser.FieldType | lavish/src/parser/mod.rs:284-287 | the `: type` part reads at least the colon |
| LavishParser.MoreFields | lavish/src/parser/mod.rs:297-303 | the fields after the first are never a plain error |
| LavishParser.FieldList | lavish/src/parser/mod.rs:297-303 | a field list is never a plain error |
| LavishParser.Fields | lavish/src/parser/mod.rs:297-303 | a field list with its optional trailing comma is never a plain error |
| LavishParser.Delimited | lavish/src/parser/mod.rs:343 | a delimited list reads at least its two delimiters |
| LavishParser.FnMod | lavish/src/parser/mod.rs:305-310 | a modifier read is six characters long and is never `Notification` |
| LavishParser.FnMods | lavish/src/parser/mod.rs:313-315 | never commits, and the modifiers read never include `Notification` |
| LavishParser.MoreMods | lavish/src/parser/mod.rs:313-315 | the modifiers after the first: the same |
| LavishParser.Results | lavish/src/parser/mod.rs:318-326 | a result list reads `->` and more |
| LavishParser.NameParams | lavish/src/parser/mod.rs:338-345 | a name and a parameter list read at least the name |
| LavishParser.FnHead | lavish/src/parser/mod.rs:329-332 | never commits; ends where the declaration's location starts, and the modifiers never include `Notification` |
| LavishParser.SetOf | lavish/src/parser/mod.rs:352 | the modifier set holds exactly the modifiers read |
| LavishParser.FnDecl | lavish/src/parser/mod.rs:328-360 | a function never carries the `Notification` modifier |
| LavishParser.FnSignature | lavish/src/parser/mod.rs:337-348 | a signature reads at least the name |
| LavishParser.FnBody | lavish/src/parser/mod.rs:363-367 | a body reads the brace and more |
| LavishParser.BodyClose | lavish/src/parser/mod.rs:366 | a body reads at least the closing brace |
| LavishParser.NotifDecl | lavish/src/parser/mod.rs:370-404 | a notification always carries the `Notification` modifier and has no results and no body |
| LavishParser.StructDeclP | lavish/src/parser/mod.rs:407-428 | a struct reads the keyword and more |
| LavishParser.StructBody | lavish/src/parser/mod.rs:416-417 | a name and a braced field list read at least the name |
| LavishParser.NsDecl | lavish/src/parser/mod.rs:469-484 | a namespace reads the keyword and more |
| LavishParser.NsBlock | lavish/src/parser/mod.rs:477-480 | a name and a braced body read at least the name |
| LavishParser.NsItem | lavish/src/parser/mod.rs:443-456 | an item, or a lone comment line, consumes at least one character |
| LavishParser.NsItems | lavish/src/parser/mod.rs:459-467 | any number of items is never a plain error |
| LavishParser.NsBody | lavish/src/parser/mod.rs:459-467 | a body is never a plain error |
| LavishParser.SchemaP | lavish/src/parser/mod.rs:23-33 | an accepted schema consumes the whole input; a refusal is a single entry, text left over at its start |
| LavishParserFacts.IdRun | lavish/src/parser/mod.rs:152-159 | every character of an identifier is an identifier character |
| LavishParserFacts.StringLitRun | lavish/src/parser/mod.rs:162-182 | a literal's value is non-empty and holds only literal characters, no quote |
| LavishParserFacts.TargetCommits | lavish/src/parser/mod.rs:47-58 | after `target`, a name other than rust, go or typescript is a committed failure, with the tag, alt and context entries |
| LavishParserFacts.RulesOneTarget | lavish/src/parser/mod.rs:35-45 | a second `target` after the builds is left over: the rules are refused at it |
| LavishParserFacts.NoItemAt | lavish/src/parser/mod.rs:443-456 | where no whitespace, '/', or first letter of a keyword stands, no item starts |
| LavishParserFacts.SchemaBlank | lavish/src/parser/mod.rs:23-33 | a schema of whitespace only is accepted as no imports and an empty body |
| LavishParserFacts.KeywordBeforeUser | lavish/src/parser/mod.rs:185-204 | a base type name wins over a user type it begins: "boolean" reads as `bool`, leaving "ean" |
| LavishParserFacts.NoBaseTag | lavish/src/parser/mod.rs:187-198 | no base type name starts with a capital letter |
| LavishParserFacts.WrapperRefused | lavish/src/parser/mod.rs:207-227 | a capitalised `Array` or `Option` not followed by `<` is a plain error, so `typ` goes on to its next alternative |
| LavishParserFacts.CapitalIsUser | lavish/src/parser/mod.rs:268-271 | every capitalised name reads as a user type unless it opens `Map<`, `Array<` or `Option<`; "Message", "Apple" and "Other" included |
| LavishParserFacts.NoArrowNoResults | lavish/src/parser/mod.rs:346-355 | without `->` after the parameters, a function has no results |
| LavishParserFacts.LoneCommentDropped | lavish/src/parser/mod.rs:443-456 | a comment line followed only by the body's closing brace is read as an item that holds nothing |
| LavishRust.FunEntries | lavish/src/codegen/rust.rs:74-78 | one pair per function, its name and its tokens: the full name split at dots |
| LavishRust.ChildEntries | lavish/src/codegen/rust.rs:80-84 | one pair per child namespace, visited under the prefix |
| LavishRust.VisitNs | lavish/src/codegen/rust.rs:70-85 | the recursive visit builds exactly the namespace the specification function describes |
| LavishRust.LocalFullName | lavish/src/codegen/rust.rs:72-76 | a function's tokens spell the namespace's dotted prefix followed by its own name |
| LavishRust.MergeInto | lavish/src/codegen/rust.rs:178-190 | merging in place gives exactly the specified merge |
| LavishRust.LastWithAbsent | lavish/src/codegen/rust.rs:178-190 | a name no pair carries has no last pair |
| LavishRust.MergeFunsGet | lavish/src/codegen/rust.rs:187-189 | after merging, the right-hand side's functions win and the left-hand side's others stay; keys stay distinct |
| LavishRust.MergeChildrenGet | lavish/src/codegen/rust.rs:179-185 | a child name on both sides is merged recursively, a name on one side keeps that side's namespace; keys stay distinct |
| LavishRust.ToplevelMerges | lavish/src/codegen/rust.rs:57-68 | top-level namespaces of the same name are merged, not replaced: each name holds the merge of all of them, in order |
| LavishRust.SameNameMerged | lavish/src/codegen/rust.rs:57-68 | two namespaces of the same name become one entry holding their merge |
| LavishRust.ToplevelStep | lavish/src/codegen/rust.rs:57-68 | one more top-level namespace merges into, or is added to, the context |
| LavishRust.ToplevelPrefixStep | lavish/src/codegen/rust.rs:253-257 | after one more namespace of the loop, the context holds the visit of everything seen |
| LavishRust.AllDeclsStep | lavish/src/codegen/rust.rs:253-257 | the namespaces of one more module follow those of the earlier modules |
| LavishRust.Context.constructor | lavish/src/codegen/rust.rs:50-55 | a new context holds no namespace |
| LavishRust.Context.VisitToplevelNs | lavish/src/codegen/rust.rs:57-68 | the namespace is visited, then merged into the entry of the same name or added |
| LavishRust.Context.VisitNamespaces | lavish/src/codegen/rust.rs:254-256 | the inner loop leaves the context holding the visit of every namespace so far |
| LavishRust.Context.VisitModules | lavish/src/codegen/rust.rs:253-257 | the context ends up holding the merged top-level namespaces of every module |
| LavishRust.FunsOf | lavish/src/codegen/rust.rs:91-98 | exactly the functions whose notification flag matches |
| LavishRust.FunsOfPartition | lavish/src/codegen/rust.rs:91-98 | every function is a request or a notification, never both |
| LavishRust.ChildFunsFrom | lavish/src/codegen/rust.rs:168-176 | a function among the children's lists comes from one of the children |
| LavishRust.ChildOf | lavish/src/codegen/rust.rs:80-84 | every child a visited namespace holds is one of its declared namespaces, visited under its prefix |
| LavishRust.FunsUnderPrefix | lavish/src/codegen/rust.rs:168-176 | every function a namespace lists, however deep, is named under its prefix |
| LavishRust.CasedTokens | lavish/src/codegen/rust.rs:210-224 | the last token camel-cased, the others mixed-cased, one per token |
| LavishRust.Mixed | lavish/src/codegen/rust.rs:217-220 | every token mixed-cased |
| LavishRust.VariantNameJoins | lavish/src/codegen/rust.rs:226-228 | when casing adds no dot, the variant name is the cased tokens joined by "_" |
| LavishRust.RpcNameSplits | lavish/src/codegen/rust.rs:210-224 | when casing adds no dot, the rpc name splits back into the cased tokens |
| LavishRust.RenderAppend | lavish/src/codegen/rust.rs:24-30 | writing two runs of lines writes their texts one after the other |
| LavishRust.RenderFirst | lavish/src/codegen/rust.rs:24-30 | the first line written starts the text |
| LavishRust.Output.constructor | lavish/src/codegen/rust.rs:18-22 | a new output holds no text |
| LavishRust.Output.WriteIndented | lavish/src/codegen/rust.rs:24-30 | `indent` spaces, the line and a newline are appended, blank lines included |
| LavishRust.Output.WriteLines | lavish/src/codegen/rust.rs:24-30 | writing lines one by one appends their rendering |
| LavishRust.Inner | lavish/src/codegen/rust.rs:131-150 | a scope is four columns deeper than its parent |
| LavishRust.DeepIndent | lavish/src/codegen/rust.rs:126-150 | `n` levels of scope indent by `4 * n` from the context's zero |
| LavishRust.CommentLines | lavish/src/codegen/rust.rs:105-111 | no comment writes nothing; a comment writes one "// " line per comment line |
| LavishRust.Prefixed | lavish/src/codegen/rust.rs:105-111 | each line with the prefix, at the indentation |
| LavishRust.At | lavish/src/codegen/rust.rs:126-150 | each line at the indentation |
| LavishRust.EnumLines | lavish/src/codegen/rust.rs:277-290 | one "variant(qualified::Kind)," line per function, one level in |
| LavishRust.MethodArms | lavish/src/codegen/rust.rs:328-335 | one arm per function: its variant maps to its quoted rpc name |
| LavishRust.DeserializeArm | lavish/src/codegen/rust.rs:351-362 | the quoted rpc name, then the variant built from the function's struct, one level deeper |
| LavishRust.DeserializeArms | lavish/src/codegen/rust.rs:350-363 | two lines per function |
| LavishRust.DeserializeArmAt | lavish/src/codegen/rust.rs:350-363 | the `k`-th pair of lines is the `k`-th function's own arm |
| LavishRust.CasedAtoms | lavish/src/codegen/rust.rs:238-243 | each function's kind and cased tokens, in order |
| LavishRust.DispatchRoundTrip | lavish/src/codegen/rust.rs:320-378 | with distinct rpc names, the name `method` writes for a function selects that function's arm in `deserialize` |
| LavishRust.FieldLines | lavish/src/codegen/rust.rs:398-411 | one "pub name: type," line per field |
| LavishRust.DeeperAppend | lavish/src/codegen/rust.rs:381-418 | two runs of lines deeper than a column are together deeper than it |
| LavishRust.StructLinesDeeper | lavish/src/codegen/rust.rs:113-118 | nothing a struct writes is left of its own column |
| LavishRust.FunLinesDeeper | lavish/src/codegen/rust.rs:390-414 | nothing a function module writes is left of its own column |
| LavishRust.FunsLinesDeeper | lavish/src/codegen/rust.rs:389-415 | the same for all function modules of a namespace |
| LavishRust.NsLinesDeeper | lavish/src/codegen/rust.rs:381-418 | nothing a namespace writes is left of its `pub mod` line |
| LavishRust.ChildLinesDeeper | lavish/src/codegen/rust.rs:385-387 | the same for its child namespaces |
| LavishRust.HeaderBanner | lavish/src/codegen/rust.rs:259-260 | whatever follows the header, the text opens with the do-not-edit banner |
| LavishRust.CodegenBanner | lavish/src/codegen/rust.rs:247-431 | the generated file opens with the do-not-edit banner |
| LavishRust.Codegen | lavish/src/codegen/rust.rs:247-431 | the file holds exactly the rendering of the merged namespaces of every module |
| LavishSpan.Slice | lavish/src/parser/span.rs:51-53 | the span's text: `len` characters of the source from its offset |
| LavishSpan.TakeIsPrefix | lavish/src/parser/span.rs:172-178 | `take(n)` covers the first `n` characters, from the same offset |
| LavishSpan.TakeSplitAdjacent | lavish/src/parser/span.rs:179-192 | the two halves of `take_split` are adjacent, their lengths add up and their texts concatenate back to the original |
| LavishSpan.SliceFromIsSuffix | lavish/src/parser/span.rs:237-245 | slicing from `start` covers the text from `start`, and its offset from the original is `start` |
| LavishSpan.SliceToIsPrefix | lavish/src/parser/span.rs:247-255 | slicing to `end` covers the first `end` characters |
| LavishSpan.EqIsIdentity | lavish/src/parser/span.rs:79-85 | spans on one source are equal exactly when they are the same window, and then cover the same text |
| LavishSpan.Compare | lavish/src/parser/span.rs:199-214 | an error exactly when some common position differs; ok exactly when the text starts with `t` (or `t` starts with the whole text, which is then incomplete) |
| LavishSpan.CompareNoCase | lavish/src/parser/span.rs:216-236 | the same after lower-casing both sides: an error exactly on a case-blind difference, and otherwise ok exactly when the span is at least as long as `t` |
| LavishSpan.WidthAppend | lavish/src/parser/span.rs:55-76 | one more line widens the table by the line and its newline |
| LavishSpan.FindLineSpec | lavish/src/parser/span.rs:55-76 | the walk finds line `l`, column `c` exactly when the offset is the width of the earlier lines plus `c`, with `c` at most the line's length |
| LavishSpan.FindLineNone | lavish/src/parser/span.rs:55-76 | no line holds the offset exactly when it is at least the width of all lines |
| LavishSpan.Position | lavish/src/parser/span.rs:55-76 | the loop returns the line and column holding the offset, or (0, 0) when none does |
| LavishSpan.PositionAtEndAfterNewline | lavish/src/parser/span.rs:55-76 | in a file ending with a newline, no line holds the end of the input, so it is reported at (0, 0) |
| LavishSpan.CharIter.constructor | lavish/src/parser/span.rs:33-45 | a new iterator is at the span's first character |
| LavishSpan.CharIter.NextIndexed | lavish/src/parser/span.rs:117-129 | the current index and character, then one step on; none at the end, without moving |
| LavishSpan.CharIter.Next | lavish/src/parser/span.rs:99-110 | the current character, then one step on; none at the end, without moving |
| LavishSpan.Chars | lavish/src/parser/span.rs:33-38 | draining the iterator yields exactly the span's text |
| LavishSpan.FindChar | lavish/src/parser/span.rs:144-154 | the index of the first character satisfying the predicate, or none when no character does |
| LavishSpan.SliceIndex | lavish/src/parser/span.rs:156-168 | the index of the `count`-th character, the length when `count` is the length, none beyond |
| LavishSpan.FindSubstring | lavish/src/parser/span.rs:269-273 | the first occurrence of the substring in the text, or none when it never occurs |
| Layout.Texts | lavish/src/codegen/rust/output.rs:76-82 | one plain write per string, in order |
| Layout.OutFlat | lavish/src/codegen/rust/output.rs:260-290 | at column 0 the writer adds nothing: what is written comes out unchanged |
| Layout.TextsFlat | lavish/src/codegen/rust/output.rs:76-82 | plain writes at column 0 come out concatenated |
| Layout.LinesLayout | lavish/src/codegen/rust/output.rs:69-74 | whole lines from the start of a line are laid out one per line at the scope's indentation, and leave the scope at the start of a line |
| Layout.LinesAppend | lavish/src/codegen/rust/output.rs:69-74 | the layout of two runs of lines is the two layouts one after the other |
| Layout.HeadBlock | lavish/src/codegen/rust/output.rs:111-122 | a heading then a block: the heading and " {" on one line, the body one level deeper, "}" back at the heading's column |
| Layout.TextsThen | lavish/src/codegen/rust/output.rs:76-82 | at column 0, plain writes come out concatenated in front of whatever follows |
| Layout.FlatBlock | lavish/src/codegen/rust/output.rs:111-122 | a block at column 0 is " {", the body four columns in, and "}" |
| Layout.FlatLine | lavish/src/codegen/rust/output.rs:65-74 | a write and a newline at column 0 give the text and a newline |
| Layout.FlatAnyState | lavish/src/codegen/rust/output.rs:260-290 | at column 0 the state a list starts in makes no difference |
| Layout.FlatAppend | lavish/src/codegen/rust/output.rs:260-290 | at column 0 two lists render as their two texts one after the other |
| Layout.FlatAppend3 | lavish/src/codegen/rust/output.rs:260-290 | the same for three lists |
| Layout.OneText | lavish/src/codegen/rust/output.rs:76-82 | one write is the writer's output for its text |
| Layout.FlatHeadBlock | lavish/src/codegen/rust/output.rs:111-122 | a heading then a block at column 0: the heading, " {", the body one level deeper, "}" |
| Layout.TwoTexts | lavish/src/codegen/rust/output.rs:76-82 | two writes in a row are one write of both |
| Layout.LinesAround | lavish/src/codegen/rust/output.rs:103-109 | a line, a child scope and a line: the child's text four columns deeper between the two lines |
| Layout.HeadLinesBlank | lavish/src/codegen/rust/output.rs:111-122 | a heading, a block of whole lines and a blank line, at column 0 |
| Layout.FlatLines | lavish/src/codegen/rust/output.rs:69-74 | whole lines at column 0 come out as written |
| Layout.LinesTextFlat | lavish/src/codegen/rust/output.rs:69-74 | at column 0 the lines are each followed by a newline and concatenated |
| Layout.Suffixed | lavish/src/codegen/rust/output.rs:69-74 | every string with the suffix appended, in order |
| Layout.HeadTermBlock | lavish/src/codegen/rust/output.rs:111-122 | a heading and a block closed by a terminator, ending at the start of a line |
| Layout.HeadOpen | lavish/src/codegen/rust/output.rs:111-114 | a heading and " {" make one indented line |
| Layout.NestedThenLine | lavish/src/codegen/rust/output.rs:103-109 | a child scope, then a line back at the scope's own indentation |
| Layout.NestedAlone | lavish/src/codegen/rust/output.rs:103-109 | a child scope writes its body four columns deeper and leaves the parent at the start of a line |
| Layout.AppendAtLineStart | lavish/src/codegen/rust/output.rs:260-290 | after a list that ends at the start of a line, the next renders as on its own |
| Layout.OneLine | lavish/src/codegen/rust/output.rs:69-74 | a whole line from the start of a line is indented unless blank |
| Layout.Join3 | lavish/src/codegen/rust/output.rs:260-290 | three lists each ending at the start of a line render one after another |
| Layout.FlatJoin3 | lavish/src/codegen/rust/output.rs:260-290 | three lists at column 0 render one after another |
| Layout.ThenBlank | lavish/src/codegen/rust/output.rs:65-67 | a newline after anything comes out as itself and ends the line |
| Layout.EndsWithNewline | lavish/src/codegen/rust/output.rs:264-269 | a list whose last write is a newline ends at the start of a line, from any state |
| Layout.LinesEnd | lavish/src/codegen/rust/output.rs:69-74 | whole lines leave the scope at the start of a line |
| Layout.FlatHeadBlock3 | lavish/src/codegen/rust/output.rs:111-122 | a module block at column 0 whose body is three lists |
| LegacyConvert.LocateFromSpec | src/parser.rs:147-155 | corrected search: the located line exists, the column lies within it, and line start plus column is the offset |
| LegacyConvert.JoinLength | src/parser.rs:136 | the joined lines are as long as the lines and their separators |
| LegacyConvert.LineStartPrefix | src/parser.rs:147-155 | a line's start depends only on the lines before it |
| LegacyConvert.JoinSnoc | src/parser.rs:136 | joining one more line adds a newline and the line |
| LegacyConvert.LocateFinds | src/parser.rs:136-155 | corrected search: every offset inside a text without carriage returns lands on a line and column holding the character at the offset |
| LegacyConvert.JoinAt | src/parser.rs:136 | the character at a line and column is the one at line start plus column in the joined text |
| LegacyConvert.FirstLineAgrees | src/parser.rs:147-155 | the as-written and corrected searches agree on the first line |
| LegacyConvert.LocateAsWrittenMisses | src/parser.rs:153 | as written, offset 7 of "ab\ncd\nef" (the 'f') is placed at line 0, column 0 |
| LegacyConvert.SampleLines | src/parser.rs:136 | "ab\ncd\nef" has the lines "ab", "cd", "ef" |
| LegacyConvert.TailSampleLines | src/parser.rs:136 | "cd\nef" has the lines "cd", "ef" |
| LegacyConvert.LineThen | src/parser.rs:136 | a line, a newline and more text: the line, then the lines of the rest |
| LegacyConvert.CaretAt | src/parser.rs:162-165 | the caret stands one place left of the column (at the line start for column 0), after spaces only |
| LegacyConvert.ConvertError | src/parser.rs:135-188 | the two loops produce exactly each entry's block in order, placed by the corrected `Locate`, or a panic when one cannot be rendered |
| LegacyConvert.NomBlockIgnoresSource | src/parser.rs:181-183 | a nom entry's block is "nom error" and the kind, whatever the input and offset |
| LegacyConvert.CharAtEndPanics | src/parser.rs:166-170 | an expected character at the end of the input has no found character: the source panics |
| LegacyConvert.EmptyInputPanics | src/parser.rs:160 | with an empty input a character or context entry indexes the empty line table: the source panics |
| LegacyConvert.PanicSticks | src/parser.rs:141-185 | once an entry panics no later entry undoes it |
| LegacyNoRedef.Names | src/checker/noredef.rs:29-30 | the top-level namespaces' names, in order |
| LegacyNoRedef.NamesPrefix | src/checker/noredef.rs:29-30 | the names of the first namespaces are the first names |
| LegacyNoRedef.ModuleReportsCount | src/checker/noredef.rs:28-41 | one report per top-level namespace whose name appeared earlier |
| LegacyNoRedef.ModuleReportsPair | src/checker/noredef.rs:31-39 | each report names a namespace and an earlier one of the same name |
| LegacyNoRedef.ModuleReportsMeaning | src/checker/noredef.rs:28-41 | the count is the number of namespaces minus the number of distinct names, and no report exactly when the names are distinct |
| LegacyNoRedef.Visitor.constructor | src/checker/noredef.rs:88-91 | a new visitor has counted and printed nothing |
| LegacyNoRedef.Visitor.VisitModule | src/checker/noredef.rs:24-48 | the module visit adds exactly the top-level reports |
| LegacyNoRedef.Visitor.VisitNamespace | src/checker/noredef.rs:50-62 | a nested walk adds nothing |
| LegacyNoRedef.Visitor.VisitStruct | src/checker/noredef.rs:64-70 | a struct's walk adds nothing |
| LegacyNoRedef.Visitor.VisitFunction | src/checker/noredef.rs:72-81 | a function's walk adds nothing |
| LegacyNoRedef.Visitor.VisitField | src/checker/noredef.rs:83-85 | a field's visit adds nothing |
| LegacyNoRedef.ModuleStep | src/checker/noredef.rs:29-41 | one turn of the loop records the name and adds a report exactly when it was already recorded |
| LegacyNoRedef.Check | src/checker/noredef.rs:87-100 | the check passes exactly when the top-level names are distinct, and otherwise reports the positive number of redefinitions |
| LegacyParser.TakeWhile | src/parser.rs:19-29 | stops at the end of the input or at the first character outside the class |
| LegacyParser.TakeWhileAll | src/parser.rs:19-29 | every character passed over is of the class |
| LegacyParser.Sp | src/parser.rs:19-23 | skipping whitespace stays within the input |
| LegacyParser.Id | src/parser.rs:25-29 | an identifier is the longest run of identifier characters, possibly empty, and its value is exactly that text |
| LegacyParser.Char | src/parser.rs:35 | a character matches exactly when it stands next, and then one character is read |
| LegacyParser.Tag | src/parser.rs:53 | a matched tag reads exactly its length |
| LegacyParser.TagSpec | src/parser.rs:53 | a tag matches exactly when the next characters spell it |
| LegacyParser.TakeUntilNewline | src/parser.rs:93-95 | the text up to the next newline, which stays unread; the value is exactly that text |
| LegacyParser.TakeUntilNewlineSpec | src/parser.rs:93-95 | the text read holds no newline, and the rule fails exactly when no newline is left |
| LegacyParser.CommentLineAsWritten | src/parser.rs:93-95 | as written, a comment line reads "//" and stops before a newline, which may lie on a later line |
| LegacyParser.CommentLine | src/parser.rs:93-95 | corrected: a comment line reads "//" and stops at its own newline |
| LegacyParser.CommentLineOneLine | src/parser.rs:93-95 | corrected: no newline lies between a comment's start and its end |
| LegacyParser.MoreCommentLines | src/parser.rs:97-101 | further comment lines stay within the input (on the corrected comment line) |
| LegacyParser.CommentP | src/parser.rs:97-101 | a comment is at least one line and reads at least one character (on the corrected comment line) |
| LegacyParser.OptComment | src/parser.rs:32-34 | no comment exactly when nothing was consumed (on the corrected comment line) |
| LegacyParser.FieldP | src/parser.rs:31-43 | a field reads at least one character and carries no location (on the corrected comment line) |
| LegacyParser.MoreFields | src/parser.rs:45-47 | the fields after the first stay within the input; a comma without a field is left unread (on the corrected comment line) |
| LegacyParser.Fields | src/parser.rs:45-47 | the field list stays within the input (on the corrected comment line) |
| LegacyParser.FieldList | src/parser.rs:54-57 | a parenthesised field list reads at least its parentheses (on the corrected comment line) |
| LegacyParser.OptResults | src/parser.rs:58-67 | optional results stay within the input (on the corrected comment line) |
| LegacyParser.FnDecl | src/parser.rs:49-76 | a function reads at least its keyword (on the corrected comment line) |
| LegacyParser.StructP | src/parser.rs:78-91 | a struct reads at least its keyword and has no fields |
| LegacyParser.Build | src/ast.rs:82-100 | the namespace keeps its name and comment, and every item lands in exactly one list |
| LegacyParser.PartitionCount | src/ast.rs:82-100 | the three lists together hold as many entries as there were items |
| LegacyParser.NsItem | src/parser.rs:103-109 | an item reads at least one character (on the corrected comment line) |
| LegacyParser.NsBody | src/parser.rs:111-113 | a body stays within the input (on the corrected comment line) |
| LegacyParser.NsOpen | src/parser.rs:116-117 | a namespace head reads at least its keyword (on the corrected comment line) |
| LegacyParser.NsClose | src/parser.rs:127 | the closing brace is read after the body |
| LegacyParser.NsDecl | src/parser.rs:115-133 | a namespace reads at least its keyword (on the corrected comment line) |
| LegacyParser.RootDecls | src/parser.rs:15-17 | the declarations stay within the input (on the corrected comment line) |
| LegacyParser.Root | src/parser.rs:15-17 | the module is accepted exactly when only whitespace follows the declarations, and then holds them; otherwise one end-of-input entry at the first character left over (on the corrected comment line) |
| LegacyRoundTrip.NoComment | src/parser.rs:93-101 | no comment starts where, after whitespace, something other than '/' stands |
| LegacyRoundTrip.WordAt | src/parser.rs:53 | a keyword followed by one space is read as written |
| LegacyRoundTrip.IdAt | src/parser.rs:25-29 | an identifier followed by a character that cannot extend it is read whole |
| LegacyRoundTrip.TagMiss | src/parser.rs:53 | a tag whose first character is not the next one does not match |
| LegacyRoundTrip.FieldStep | src/parser.rs:31-43 | `field` gives the field once each piece is known |
| LegacyRoundTrip.NameColonType | src/parser.rs:35 | a name, then ": " and a type, read piece by piece |
| LegacyRoundTrip.FieldAt | src/parser.rs:31-43 | a field printed as "name: type" reads back as itself |
| LegacyRoundTrip.FieldTextStart | src/parser.rs:31-43 | a printed field starts with an identifier character |
| LegacyRoundTrip.CommaFieldAt | src/parser.rs:45-47 | the characters of ", " and a printed field |
| LegacyRoundTrip.MoreFieldsOne | src/parser.rs:45-47 | a comma and a printed field add that field to the list |
| LegacyRoundTrip.MoreFieldsNone | src/parser.rs:45-47 | without a comma the list ends and nothing is read |
| LegacyRoundTrip.NoArrow | src/parser.rs:58-67 | without an arrow the results are empty and nothing is consumed |
| LegacyRoundTrip.IdEmpty | src/parser.rs:25-29 | where no identifier character stands, the identifier is empty |
| LegacyRoundTrip.StructStep | src/parser.rs:78-91 | "struct", a name and "{}" read as the empty struct |
| LegacyRoundTrip.StructAt | src/parser.rs:78-91 | a struct printed as "struct name {}" reads back as itself |
| LegacyRoundTrip.NoFn | src/parser.rs:49-76 | nothing starting with a character other than 'f' (after whitespace and comments) is a function |
| LegacyRoundTrip.NoStruct | src/parser.rs:78 | nothing starting with a character other than 's' is a struct |
| LegacyRoundTrip.NoNs | src/parser.rs:115-119 | no namespace starts where, after whitespace, something other than 'n' or '/' stands |
| LegacyRoundTrip.NoItemAtBrace | src/parser.rs:103-113 | the closing brace ends a body: no item starts there |
| LegacyRoundTrip.ItemFn | src/parser.rs:103-109 | a function is tried first and wins |
| LegacyRoundTrip.ItemStruct | src/parser.rs:103-109 | a struct is taken when no function stands |
| LegacyRoundTrip.ItemNs | src/parser.rs:103-109 | a namespace is taken when neither a function nor a struct stands |
| LegacyRoundTrip.RootBlank | src/parser.rs:15-17 | all-whitespace or empty input is a module without namespaces |
| LegacyRoundTrip.RootLeftover | src/parser.rs:15-17 | when the first non-blank character can start neither a comment nor a namespace, the module is refused there |
| LegacyRoundTrip.CommentSwallowsNextLine | src/parser.rs:93-95 | as written, an empty "//" comment takes the following line as its text; corrected, it ends at its own newline |
| LegacyRoundTrip.EmptyCommentLine | src/parser.rs:93-95 | corrected, "//" before a newline is an empty comment line |
| NewGen.ModBlockLayout | src/codegen/rust/mod.rs:131-137 | a module block is "pub mod <name> {", the inner text one level in, then "}" |
| NewGen.SectionsLayout | src/codegen/rust/mod.rs:115-148 | the protocol, the schema module, the client module and the server module come out in that order, separated by blank lines, with the modules' contents one level in |
| NewGen.FileLayout | src/codegen/rust/mod.rs:94-101 | a member's file is the generated-file prelude, line for line, followed by its sections |
| NewGen.SchemaBody | src/codegen/rust/mod.rs:111-113 | every section sees the schema's body anchored at the bottom of a fresh stack |
| NewGen.OutputPath | src/codegen/rust/mod.rs:106 | a member is written to `<dir>/<name>/mod.rs` |
| NewGen.WorkspaceModPath | src/codegen/rust/mod.rs:79 | the member list is written to `<dir>/mod.rs` |
| NewGen.PathsDistinct | src/codegen/rust/mod.rs:73-91 | the workspace's module file never overwrites a member's file, and members with different names get different files |
| NewGen.MemberNames | src/codegen/rust/mod.rs:84-86 | one name per member, in iteration order |
| NewGen.WorkspaceModText | src/codegen/rust/mod.rs:78-88 | the workspace's module file is the prelude, then one "pub mod <name>;" line per member in iteration order; every member gets its line |
| NewIr.BuildNamespace | src/codegen/rust/ir.rs:18-51 | building a namespace gives the namespace the specification derives from its prefix, name and body |
| NewIr.FillFuns | src/codegen/rust/ir.rs:30-33 | the function map holds the body's functions inserted in declaration order |
| NewIr.FillStrus | src/codegen/rust/ir.rs:35-39 | the struct map holds the body's structs, each under its full dotted name, inserted in order |
| NewIr.FillChildren | src/codegen/rust/ir.rs:41-44 | the child map holds one namespace per child declaration, built under the extended prefix |
| NewIr.BuildFun | src/codegen/rust/ir.rs:446-454 | a function carries its full name split at the dots and, when it has a body, the namespace built from it |
| NewIr.NamespaceMaps | src/codegen/rust/ir.rs:18-51 | the maps have distinct keys in order of first declaration, and a name declared twice holds its last declaration |
| NewIr.FunFuns | src/codegen/rust/ir.rs:492-499 | a function's list of functions starts with the function itself |
| NewIr.NsFunPrefixed | src/codegen/rust/ir.rs:19-23 | the rpc name of every function found under a namespace starts with that namespace's prefix |
| NewIr.FunFunPrefixed | src/codegen/rust/ir.rs:446-454 | the rpc name of every function found under a function starts with the prefix it was built under |
| NewIr.NsFunsPrefixed | src/codegen/rust/ir.rs:53-61 | every function `funs` yields for a namespace has an rpc name extending the namespace's path |
| NewIr.KindOf | src/codegen/rust/ir.rs:513-515 | a function is a notification exactly when its declaration says so |
| NewIr.ClientProtocolAscent | src/codegen/rust/ir.rs:255-261 | the client's protocol path climbs one module more than its depth, then names `protocol` |
| NewIr.DefineClientLayout | src/codegen/rust/ir.rs:263-272 | the `Client` struct holds one unit field per called function, named by its variant, in order, then the TODO line, followed by a blank line |
| NewIr.DefineHandlerLayout | src/codegen/rust/ir.rs:303-313 | the `Handler` struct holds the TODO line, the state, then one slot per handled function named after it, in order, followed by a blank line |
| NewParser.Id | src/parser/mod.rs:183-190 | an identifier is refused exactly when no identifier character stands; otherwise it is a non-empty run and its text is exactly what was read |
| NewParser.StringLit | src/parser/mod.rs:193-213 | a string literal reads at least its two quotes and one character, and never commits |
| NewParser.CommentLines | src/parser/mod.rs:458-460 | comment lines read nothing when there are none, and otherwise stop before a newline |
| NewParser.OptComment | src/parser/mod.rs:463-467 | no comment exactly when nothing is consumed; a comment stops before a newline |
| NewParser.TargetP | src/parser/mod.rs:44-55 | a target directive reads at least its keyword |
| NewParser.TargetName | src/parser/mod.rs:49-53 | a target name reads at least one character |
| NewParser.RustTargetP | src/parser/mod.rs:58-72 | a rust target reads at least its keyword |
| NewParser.RustBody | src/parser/mod.rs:62-70 | the optional body is never an error: without a closed body it reads nothing |
| NewParser.WrapperP | src/parser/mod.rs:82-96 | a wrapper item reads at least its keyword |
| NewParser.From | src/parser/mod.rs:132-140 | a `from` directive reads at least its keyword |
| NewParser.BuildP | src/parser/mod.rs:118-129 | a build directive reads at least its keyword |
| NewParser.Builds | src/parser/mod.rs:113-115 | the build list is never an error and stays within the input |
| NewParser.RulesP | src/parser/mod.rs:32-41 | a rules file is accepted only by reading the whole input; refused for leftover input with a single end-of-input entry |
| NewParser.ImportP | src/parser/mod.rs:148-158 | an import reads at least its keyword |
| NewParser.Imports | src/parser/mod.rs:143-145 | the import list is never an error and stays within the input |
| NewParser.BaseTag | src/parser/mod.rs:216-239 | a base type name found is one of the keywords and stands at that place |
| NewParser.BaseTyp | src/parser/mod.rs:216-239 | a base type reads at least one character and is a base kind |
| NewParser.UserTyp | src/parser/mod.rs:293-300 | a user type spans exactly the characters it reads |
| NewParser.MapTyp | src/parser/mod.rs:272-290 | a map type reads at least one character and is a map |
| NewParser.Typ | src/parser/mod.rs:303-305 | a type reads at least one character |
| NewParser.FieldP | src/parser/mod.rs:314-329 | a field reads at least one character |
| NewParser.Fields | src/parser/mod.rs:332-337 | the field list is never an error and stays within the input |
| NewParser.SideAt | src/parser/mod.rs:340-345 | the side reads six characters and is `Server` exactly when "server" stands there |
| NewParser.Results | src/parser/mod.rs:348-355 | results read at least the arrow and the parentheses |
| NewParser.FnHeadAsWritten | src/parser/mod.rs:359-362 | as written, the head reads a comment and then the side keyword with no whitespace between |
| NewParser.FnHead | src/parser/mod.rs:359-362 | corrected, the head reads whitespace before the side keyword; the head ends after its keyword |
| NewParser.FnDecl | src/parser/mod.rs:358-391 | a function declaration is a request and reads at least one character (on the corrected declaration head) |
| NewParser.FnBody | src/parser/mod.rs:394-398 | a function body reads at least its braces |
| NewParser.NotifDecl | src/parser/mod.rs:401-432 | a notification declaration is a notification with no results and no body (on the corrected declaration head) |
| NewParser.StructDeclP | src/parser/mod.rs:435-455 | a struct declaration reads at least its keyword |
| NewParser.NsDecl | src/parser/mod.rs:497-512 | a namespace declaration reads at least its keyword (on the corrected declaration head) |
| NewParser.NsItem | src/parser/mod.rs:471-484 | a namespace item reads at least one character (on the corrected declaration head) |
| NewParser.NsItems | src/parser/mod.rs:487-494 | the item list is never an error and stays within the input (on the corrected declaration head) |
| NewParser.NsBody | src/parser/mod.rs:487-494 | a namespace body is never an error and stays within the input (on the corrected declaration head) |
| NewParser.SchemaP | src/parser/mod.rs:20-29 | a schema is accepted only by reading the whole input; refused with a single end-of-input entry at leftover input (on the corrected declaration head) |
| NewParserFacts.TargetCommits | src/parser/mod.rs:44-55 | (the `target_unknown` case) after `target`, a name other than rust, go or typescript is a failure in the target directive's context, so no alternative is tried |
| NewParserFacts.RustDefaultsToMod | src/parser/mod.rs:58-72 | `target rust` without a body keeps the default wrapper, `mod` |
| NewParserFacts.WrapperCommits | src/parser/mod.rs:82-96 | after `wrapper =`, a value other than none, mod or lib is a failure in the wrapper's context |
| NewParserFacts.LastWrapperWins | src/ast/nodes.rs:59-71 | the last wrapper item read decides the target's wrapper |
| NewParserFacts.FnDeclSide | src/parser/mod.rs:360 | a function's side is the keyword standing before `fn` |
| NewParserFacts.TwoSidesRefused | src/parser/mod.rs:340-345 | `server client fn` is no function |
| NewParserFacts.NoArrowNoResults | src/parser/mod.rs:383 | without an arrow after the parameters a function has no results |
| NewParserFacts.AsWrittenHeadHasNoComment | src/parser/mod.rs:359-360 | as written, a head never carries a comment: the comment stops before its newline, where no side keyword can stand |
| NewParserFacts.HeadKeepsComment | src/parser/mod.rs:359-360 | corrected, a comment followed by `server fn` stays with the function, whose side is `Server` |
| NewParserFacts.DocCommentLost | src/parser/mod.rs:359-360 | on "// doc\nserver fn" the head as written is refused at the newline, while the corrected head keeps the comment "doc" |
| NewParserFacts.KeywordBeforeUser | src/parser/mod.rs:303-305 | a base type name wins over a user type it begins: "database.Item" reads as `data` |
| NewParserFacts.CapitalIsUser | src/parser/mod.rs:216-239 | every type keyword is lower-case, so any capitalised name reads as a user type |
| NewParserFacts.NoItemAt | src/parser/mod.rs:471-484 | no item starts where neither whitespace, '/', nor the first letter of a declaration keyword stands |
| NewParserFacts.SchemaBlank | src/parser/mod.rs:20-29 | a schema of whitespace only is an empty body with no imports |
| NewParserFacts.LoneCommentDropped | src/parser/mod.rs:471-484 | a comment line followed only by the closing brace is read as an item holding nothing |
| NewSpan.Slice | src/parser/span.rs:51-53 | a span's text has its length and holds the source's characters from its offset on |
| NewSpan.TakeIsPrefix | src/parser/span.rs:151-158 | `take` keeps the offset and gives exactly the first `count` characters |
| NewSpan.TakeSplitAdjacent | src/parser/span.rs:159-173 | `take_split` gives a suffix that starts where the prefix ends, and the two texts reassemble the span's text |
| NewSpan.SliceFromIsSuffix | src/parser/span.rs:221-227 | slicing from `start` moves the offset by `start` and gives exactly the text from there on |
| NewSpan.EqIsIdentity | src/parser/span.rs:57-61 | two spans are equal exactly when source, offset and length agree, and equal spans have the same text |
| NewSpan.Compare | src/parser/span.rs:180-195 | an error exactly when some character the span and the tag share differs; ok exactly when the whole tag is a prefix of the span's text |
| NewSpan.CompareNoCase | src/parser/span.rs:199-217 | an error exactly when some shared character differs after lower-casing; otherwise ok exactly when the span is at least as long as the tag |
| NewSpan.DebugPreviewAsWritten | src/parser/span.rs:17-28 | as written, the preview exists exactly when the span holds at least 12 bytes, and is its first 12 |
| NewSpan.DebugPanicsOnShortTail | src/parser/span.rs:25 | as written, formatting the last two characters of a schema panics |
| NewSpan.DebugPreview | src/parser/span.rs:17-28 | corrected, the preview is the span's first 12 bytes or all of a shorter span, and agrees with the as-written preview wherever that one exists |
| NewSpan.CharIter.constructor | src/parser/span.rs:31-45 | a new iterator is at the span's first character |
| NewSpan.CharIter.NextIndexed | src/parser/span.rs:98-106 | yields the next index and character of the span and advances, or yields nothing at the end and stays |
| NewSpan.CharIter.Next | src/parser/span.rs:79-87 | yields the next character of the span and advances, or yields nothing at the end and stays |
| NewSpan.CharIndices | src/parser/span.rs:39-45 | draining `char_indices` yields every index with its character, in order |
| NewSpan.FindChar | src/parser/span.rs:123-133 | the first index whose character satisfies the predicate, or none exactly when no character does |
| NewSpan.SliceIndex | src/parser/span.rs:135-147 | the index of the `count`-th character exists exactly when `count` is at most the span's length |
| NewSpan.FindSubstring | src/parser/span.rs:237-239 | the first place the substring occurs, or none exactly when it occurs nowhere |
| NomChars.TakeWhile | src/parser/mod.rs:169-173 | the run ends at the end of the input or at the first character outside the class |
| NomChars.TakeWhileAll | src/parser/mod.rs:169-173 | every character passed over is of the class |
| NomChars.MatchesAt | src/parser/mod.rs:161-166 | a tag that matches fits inside the input |
| NomChars.SpacedTag | src/parser/mod.rs:161-166 | a spaced tag never commits and, when matched, is read whole after the leading whitespace |
| NomChars.SpacedChar | src/parser/mod.rs:161-166 | a spaced character never commits and, when matched, stands where its value points |
| NomChars.CommentLine | src/parser/mod.rs:458-460 | a comment line never commits and ends right before a newline, which must exist |
| NomChars.SpacedCommentLines | lavish/src/parser/mod.rs:459-466 | the comment lines after a body stop where no further comment line starts |
| NomChars.SpAgain | src/parser/mod.rs:169-173 | skipping whitespace twice stops where skipping once did |
| NomChars.SomesKeeps | src/parser/mod.rs:489-491 | the items kept are exactly those present, lone comment lines dropped |
| RpcFraming.BigEndianRoundTrip | lavish-rpc/src/system/codec.rs:60-72 | the big-endian bytes of a number below the width's bound read back as that number |
| RpcFraming.FromBigEndianBound | lavish-rpc/src/system/codec.rs:125-137 | any `k` bytes read as a number below 256 to the `k` |
| RpcFraming.EncodeUint | lavish-rpc/src/system/codec.rs:60-72 | the length prefix is one to nine bytes |
| RpcFraming.DecodeUint | lavish-rpc/src/system/codec.rs:125-137 | a length read takes one to nine bytes of the input and is below 2 to the 64 |
| RpcFraming.MarkedRoundTrip | lavish-rpc/src/system/codec.rs:125-137 | a marker followed by its big-endian number reads back as that number and its width |
| RpcFraming.UintRoundTrip | lavish-rpc/src/system/codec.rs:60-72 | decoding a length prefix reads back the length encoding wrote, whatever follows |
| RpcFraming.ReadFrame | lavish-rpc/src/system/codec.rs:117-146 | a complete frame lies within the bytes received; an incomplete one needs more than were received, and a total size that does not fit a 64-bit `usize` is the overflow panic |
| RpcFraming.FrameRoundTrip | lavish-rpc/src/system/codec.rs:46-88 | a frame whose total size fits a `usize`, followed by anything, is read as exactly that frame: its payload, with what followed left over |
| RpcFraming.LargestLengthOverflows | lavish-rpc/src/system/codec.rs:125-141 | the largest `u64` length prefix makes `len_len + payload_len` overflow |
| RpcFraming.ShortFrameIncomplete | lavish-rpc/src/system/codec.rs:141-146 | a frame cut short after its length prefix is reported as needing the whole frame, not as an error |
| RpcFraming.Codec.constructor | lavish-rpc/src/system/codec.rs:31-35 | the scratch buffer is fresh, `MAX_MESSAGE_SIZE` bytes, all zero |
| RpcFraming.Codec.Encode | lavish-rpc/src/system/codec.rs:46-88 | a payload larger than the scratch buffer is refused and leaves `dst` alone; otherwise `dst` becomes exactly the length prefix and the payload |
| RpcFraming.Codec.Decode | lavish-rpc/src/system/codec.rs:117-160 | nothing on empty or incomplete input, an error on an unreadable length, the overflow panic on a total size beyond `usize`, and on a complete frame the deserialised payload with exactly the frame consumed; nothing is consumed on any error |
| RpcFraming.EncodeThenDecode | lavish-rpc/src/system/codec.rs:46-160 | encoding then decoding gives the message back and leaves what followed |
| RpcMessage.MissingText | lavish-rpc/src/message.rs:214-216 | the error for a missing field names the field after a fixed prefix |
| RpcMessage.NewRequest | lavish-rpc/src/message.rs:117-119 | a request with the given id and params |
| RpcMessage.NewNotification | lavish-rpc/src/message.rs:121-123 | a notification with the given params |
| RpcMessage.NewResponse | lavish-rpc/src/message.rs:125-127 | a response with the given id, error and results |
| RpcMessage.Elements | lavish-rpc/src/message.rs:140-166 | requests and responses are four elements, notifications three, led by the type tag 0, 1 or 2 |
| RpcMessage.SeqWriter.Push | lavish-rpc/src/message.rs:143-146 | an element is appended to the sequence |
| RpcMessage.SerializeMessage | lavish-rpc/src/message.rs:136-167 | the array written element by element is the message's serialisation |
| RpcMessage.SerializeInjective | lavish-rpc/src/message.rs:136-167 | two messages with the same serialisation are equal, when atoms are determined by their method and body |
| RpcMessage.SeqReader.Next | lavish-rpc/src/message.rs:218-220 | the next element and one step on, or nothing at the end with no step |
| RpcMessage.VisitSeq | lavish-rpc/src/message.rs:209-264 | pulling the fields one at a time gives the reading the specification defines on the whole sequence |
| RpcMessage.RequestRoundTrip | lavish-rpc/src/message.rs:316-345 | a request whose params the atom decoder recognises reads back as itself, whatever is in flight, so serialising it again gives the same elements |
| RpcMessage.ResponseRoundTrip | lavish-rpc/src/message.rs:241-260 | a response reads back as itself when its id is in flight and its results are recognised under the pending method |
| RpcMessage.NilResultsReadAsNone | lavish-rpc/src/message.rs:53-58 | results that serialise to nil read back as no results |
| RpcMessage.UnknownResponseRefused | lavish-rpc/src/message.rs:247-250 | a response whose id is not in flight is refused with "no such pending request" |
| RpcMessage.NotificationUnimplemented | lavish-rpc/src/message.rs:262 | a notification is never read back: its type tag has no branch |
| RpcMessage.TruncatedRequest | lavish-rpc/src/message.rs:218-236 | a request cut short reports the first field it lacks |
| RpcSystem.Queue.constructor | lavish-rpc/src/system.rs:382-387 | a new queue starts at id 0 with nothing in flight |
| RpcSystem.Queue.NextId | lavish-rpc/src/system.rs:389-393 | hands out the current id and moves on by one; before the counter wraps each id is above all earlier ones |
| RpcSystem.Queue.GetPending | lavish-rpc/src/system.rs:402-404 | the method of a request exactly when it is in flight |
| RpcSystem.Queue.CallRaw | lavish-rpc/src/system.rs:93-110 | the request takes the next id and is registered in flight under it with its method |
| RpcSystem.Queue.HandleResponse | lavish-rpc/src/system.rs:248-258 | a response for an in-flight id is forwarded and the id leaves the table; any other is dropped with the table unchanged |
| RpcSystem.IssuedDistinct | lavish-rpc/src/system.rs:389-393 | ids handed out before the counter wraps are strictly increasing, hence distinct |
| RpcSystem.IdsWrap | lavish-rpc/src/system.rs:389-393 | the 2^32-th id after the start is 0 again |
| RpcSystem.ClassifyMeaning | lavish-rpc/src/system.rs:120-139 | a call succeeds exactly when the reply is a response without error whose results downgrade, and a remote error is passed on |
| RpcSystem.RespondTo | lavish-rpc/src/system.rs:226-245 | the answer to a request is a response to its id carrying either results or an error, never both |
| RpcSystem.CallSeesHandler | lavish-rpc/src/system.rs:120-139 | across the wire a handler's results reach the caller, and a handler's failure or a missing handler comes back as a remote error |
| RpcSystem.Resize | lavish-rpc/src/system.rs:284 | resizing keeps the bytes that fit and pads with zeros |
| RpcSystem.GrownLengthBounds | lavish-rpc/src/system.rs:283-305 | the final buffer holds the message and is the starting size or less than twice the message |
| RpcSystem.Encode | lavish-rpc/src/system.rs:281-309 | the buffer doubles from max(128, capacity) until the message fits, and `dst` ends up exactly the message |
| RpcSystem.SystemCodec.Decode | lavish-rpc/src/system.rs:321-353 | a message read in full consumes exactly the bytes read; the three need-more errors leave the buffer and yield nothing; any other error is returned; a message type the reader has no branch for panics |
| RpcSystem.NotificationPanics | lavish-rpc/src/message.rs:262 | a serialised notification, read in full, makes `decode` panic at `unimplemented!()` |
| RpcSystem.UnknownResponseStalls | lavish-rpc/src/system.rs:343-352 | a response for an id not in flight is never delivered and leaves the buffer as it is |
| RpcSystem.RequestDelivered | lavish-rpc/src/system.rs:343-347 | a request read in full is delivered with exactly its bytes consumed |
| RustClient.ConstructorSignature | src/codegen/rust/ir/client.rs:19-25 | `new` is public, takes the caller and returns `Self` |
| RustClient.ConstructorText | src/codegen/rust/ir/client.rs:19-29 | the constructor's body is the one line `Self { caller }` |
| RustClient.CallSignature | src/codegen/rust/ir/client.rs:31-43 | `call` is public, generic over `P: Callable<R>` and `R`, takes `&self` and `p: P` and returns `Result<R, Error>`, its type parameters listed by name only in the signature |
| RustClient.CallBodyLayout | src/codegen/rust/ir/client.rs:44-51 | the body of `call` is the opening line, the two arguments one level deeper, and the closing parenthesis back in line |
| RustClient.ClientLayout | src/codegen/rust/ir/client.rs:9-62 | the client is the derive line, the struct with its one `caller` field, a blank line, then the `impl` block holding `new` and `call` one level deeper |
| RustHandler.Handled | src/codegen/rust/ir/handler.rs:13-19 | the handled functions are exactly those of the handler's side |
| RustHandler.Called | src/codegen/rust/ir/handler.rs:21-27 | the called functions are exactly those of the other side |
| RustHandler.HandledCalledSplit | src/codegen/rust/ir/handler.rs:13-27 | every function is handled or called, never both, and the two lists together are as long as the walk |
| RustHandler.FunLines | src/codegen/rust/ir/handler.rs:32-34 | one line per function, in the walk's order |
| RustHandler.ClientStructLayout | src/codegen/rust/ir/handler.rs:29-38 | the `Client` struct holds a unit field per called function, in order, then the TODO line, followed by a blank line |
| RustHandler.HandlerStructLayout | src/codegen/rust/ir/handler.rs:67-76 | the `Handler` struct holds the state, then an `on_` slot per handled function, in order, followed by a blank line |
| RustHandler.CallStructLayout | src/codegen/rust/ir/handler.rs:40-48 | the `Call` struct holds state, client and params, followed by a blank line |
| RustHandler.SlotLayout | src/codegen/rust/ir/handler.rs:50-65 | the slot aliases are one line each, at column 0 |
| RustHandler.HandlerLayout | src/codegen/rust/ir/handler.rs:79-87 | the handler's text is the `Call` struct, the slot aliases and the `Handler` struct, in that order, with no `Client` struct |
| RustLang.NewAllow | src/codegen/rust/lang.rs:34-36 | a new allow attribute lists nothing |
| RustLang.NonCamelCase | src/codegen/rust/lang.rs:17-20 | appends `non_camel_case_types` to the items |
| RustLang.Unused | src/codegen/rust/lang.rs:22-25 | appends `unused` to the items |
| RustLang.AllowOrder | src/codegen/rust/lang.rs:28-32 | the items are written in the order they were pushed, comma-separated inside `#[allow(...)]` |
| RustLang.NewDerive | src/codegen/rust/ir/lang.rs:353-355 | a new derive attribute lists nothing |
| RustLang.DeriveDebug | src/codegen/rust/ir/lang.rs:331-334 | appends `Debug` to the items |
| RustLang.DeriveClone | src/codegen/rust/ir/protocol.rs:329 | appends `Clone` to the items |
| RustLang.DeriveSerialize | src/codegen/rust/ir/lang.rs:336-339 | appends the serde `Serialize` path to the items |
| RustLang.DeriveDeserialize | src/codegen/rust/ir/lang.rs:341-344 | appends the serde `Deserialize` path to the items |
| RustLang.DeriveOrder | src/codegen/rust/ir.rs:223 | `derive().debug().serialize()` writes `Debug` then the serde trait, in that order |
| RustLang.NewFn | src/codegen/rust/lang.rs:151-165 | a new function is private, not async, with no parameters of any kind, no return type and no body |
| RustLang.FnKwPub | src/codegen/rust/lang.rs:54-57 | sets `pub` and changes nothing else |
| RustLang.FnKwAsync | src/codegen/rust/lang.rs:59-62 | sets `async` and changes nothing else |
| RustLang.FnReturns | src/codegen/rust/lang.rs:64-70 | sets the return type and changes nothing else |
| RustLang.FnBody | src/codegen/rust/lang.rs:72-78 | sets the body and changes nothing else |
| RustLang.FnSelfParam | src/codegen/rust/lang.rs:80-86 | sets the self parameter and changes nothing else |
| RustLang.FnTypeParam | src/codegen/rust/lang.rs:88-97 | appends a type parameter with its optional bound and changes nothing else |
| RustLang.FnParam | src/codegen/rust/lang.rs:99-105 | appends a parameter and changes nothing else |
| RustLang.ParamNames | src/codegen/rust/lang.rs:121-123 | the type parameters' names, in order |
| RustLang.AngleText | src/codegen/rust/lang.rs:119-124 | an angle-bracket list is left out when empty and otherwise comma-separated inside `<>` |
| RustLang.RoundText | src/codegen/rust/lang.rs:126-133 | a parenthesised list is written even when empty |
| RustLang.FnHeadText | src/codegen/rust/lang.rs:111-137 | the pieces written before the body make up the function's signature |
| RustLang.FnLayout | src/codegen/rust/lang.rs:108-149 | a function is its signature, then either its body as a block one level deeper or ";" and a newline |
| RustLang.FnMinimal | src/codegen/rust/lang.rs:151-165 | an untouched `_fn(name)` renders as `fn name();` |
| RustLang.NewImpl | src/codegen/rust/lang.rs:202-213 | a new impl has the trait and name given, no type parameters and no body |
| RustLang.ImplTypeParam | src/codegen/rust/lang.rs:175-181 | appends one type parameter and changes nothing else |
| RustLang.ImplTypeParams | src/codegen/rust/lang.rs:183-191 | appends the given parameters in order and changes nothing else |
| RustLang.ImplBody | src/codegen/rust/lang.rs:193-199 | sets the body and changes nothing else |
| RustLang.BoundedAll | src/codegen/rust/lang.rs:228-237 | each parameter with its bound when it has one, in order |
| RustLang.ImplLayout | src/codegen/rust/lang.rs:215-247 | corrected, "impl", the bounded parameters unless none, " Trait for Name", the bare names unless none, then the body as a block |
| RustLang.ImplUnboundedAgrees | src/codegen/rust/lang.rs:215-247 | without bounds the as-written and the corrected renderings are the same text |
| RustLang.ImplBoundMisplaced | src/codegen/rust/lang.rs:219-238 | as written, a bounded parameter renders as `impl<T> Tr for N<T: C> {}`, the bound on the type's argument |
| RustLang.ImplBoundPlaced | src/codegen/rust/lang.rs:219-238 | corrected, the same builder renders as `impl<T: C> Tr for N<T> {}` |
| RustLang.WithComma | src/codegen/rust/ir/lang.rs:317-319 | each variant followed by a comma, in order |
| RustLang.EnumLayout | src/codegen/rust/ir/lang.rs:303-324 | an enum is its annotations, "pub " when set, "enum Name", then " {}" without variants or one "variant," line per variant four columns in |
| RustLang.EnumBuilder.constructor | src/codegen/rust/ir/lang.rs:291-301 | a new enum is private with no annotations and no variants |
| RustLang.EnumBuilder.KwPub | src/codegen/rust/ir/lang.rs:269-272 | sets `pub` and keeps the annotations and variants |
| RustLang.EnumBuilder.Annotation | src/codegen/rust/ir/lang.rs:274-280 | appends an annotation and keeps the rest |
| RustLang.EnumBuilder.Variant | src/codegen/rust/ir/lang.rs:282-288 | appends a variant and keeps the rest |
| RustLang.BuildEnum | src/codegen/rust/ir/lang.rs:261-324 | filling a public enum annotation by annotation and variant by variant renders them in the order they were added |
| RustLang.Quoted | src/codegen/rust/ir/lang.rs:254-259 | a quoted string starts and ends with a double quote |
| RustLang.EscapeCharSingle | src/codegen/rust/ir/lang.rs:254-259 | a character is written as itself exactly when it is printable ASCII other than the backslash and the double quote, or lies above ASCII; every other character becomes an escape of two or more |
| RustLang.HexDigitValue | src/codegen/rust/ir/lang.rs:254-259 | the lower-case hex digit written in a `\u{..}` escape reads back as its value and is never the closing brace |
| RustLang.UnescapeEscape | src/codegen/rust/ir/lang.rs:254-259 | reading the escaped text back gives the original string |
| RustLang.QuotedReadsBack | src/codegen/rust/ir/lang.rs:254-259 | between its quotes, a quoted string reads back as itself |
| RustLang.UnescapeChar | src/codegen/rust/ir/lang.rs:254-259 | each escaped character, `\0` and `\u{..}` included, reads back as itself whatever follows it |
| RustLang.QuotedPlain | src/codegen/rust/ir/lang.rs:254-259 | a string of printable ASCII without the backslash or the double quote is quoted as it is |
| RustLang.QuotedHasNoControl | src/codegen/rust/ir/lang.rs:254-259 | the escaped text holds no ASCII control character |
| RustPair.ModuleLayout | src/codegen/rust/ir/pair.rs:7-24 | each side module is its head, then the client and the router one level deeper, "}" and a blank line |
| RustPair.PairLayout | src/codegen/rust/ir/pair.rs:6-44 | the pair is the `client` module followed by the `server` module |
| RustPair.ModuleDepth | src/codegen/rust/ir/pair.rs:10-11 | inside a side module the stack is one frame deeper, named after the side, so its paths climb one module more |
| RustPaths.CratesNest | src/codegen/rust/ir/common.rs:1-32 | the re-exported crates `chrono`, `erased_serde`, `serde` and `serde_derive` sit directly inside `::lavish` |
| RustPaths.ItemsNest | src/codegen/rust/ir/common.rs:34-70 | each trait and struct path sits directly inside its module path (`Serialize` in `serde_derive`, `Arc` in `::std::sync`, ...) |
| RustPaths.Ascent | src/codegen/rust/ir/ast_ext.rs:23-25 | what a relative path leads to after its climb no longer climbs |
| RustPaths.AscentRepeat | src/codegen/rust/ir/ast_ext.rs:23-25 | `n` times "super::" before a path that does not climb reads as `n` levels up, then that path |
| RustPaths.RootLeadsToTop | src/codegen/rust/ir/ast_ext.rs:23-69 | from any stack the protocol and schema paths climb exactly one module per frame, then name the top-level module; every protocol item is found in `protocol` |
| RustPaths.RootPush | src/codegen/rust/ir/ast_ext.rs:23-25 | one frame deeper means one more "super::" |
| RustPaths.SideClientOneUp | src/codegen/rust/ir/ast_ext.rs:55-57 | the side client path climbs exactly one module, then names `<side>::Client` there |
| RustPaths.TripletOrder | src/codegen/rust/ir/ast_ext.rs:71-78 | the triplet lists Params, NotificationParams and Results, in that order, each the protocol item of that name |
| RustPaths.PreludeOneDeeper | src/codegen/rust/prelude.rs:13-29 | the prelude's paths climb one module more than the ones of `ast_ext`: the same paths seen from one frame deeper |
| RustPaths.PreludeAscent | src/codegen/rust/prelude.rs:14-16 | a path behind the prelude's root climbs one module per frame plus one |
| RustPaths.CamelAll | src/codegen/rust/ir/ast_ext.rs:95-99 | each name camel-cased, in order |
| RustPaths.VariantSplits | src/codegen/rust/ir/ast_ext.rs:94-100 | camel-cased names hold no underscore, so a variant splits on '_' back into its camel-cased names; a struct's variant (140-148) is built by the same rule |
| RustPaths.NestedNames | src/codegen/rust/ir/ast_ext.rs:102-120 | a function nested in another's body extends the parent's Rust name, slot and module by its own name |
| RustPaths.TwoNames | src/codegen/rust/ir/ast_ext.rs:102-112 | a function inside one namespace has the method, Rust name and slot built from the two names |
| RustPaths.SlotExample | src/codegen/rust/ir/ast_ext.rs:102-112 | `session.attempt_login` has the Rust name `session__attempt_login` and the slot `on_session__attempt_login` |
| RustPaths.FunModuleLeadsToSchema | src/codegen/rust/ir/ast_ext.rs:114-133 | every path derived from a function climbs to the schema module and descends through the function's names |
| RustProtocol.Atoms | src/codegen/rust/ir/protocol.rs:117-137 | the atoms written are Params and Results of kind request, then NotificationParams of kind notification: the builtins of `get_builtins` (357-363), in the same order |
| RustProtocol.KindFuns | src/codegen/rust/ir/protocol.rs:193-200 | a function is visited for an atom exactly when it is a schema function of the atom's kind |
| RustProtocol.KindsPartition | src/codegen/rust/ir/protocol.rs:193-200 | every schema function belongs to exactly one of the request and notification atoms |
| RustProtocol.FunCount | src/codegen/rust/ir/protocol.rs:202-206 | the counter ends at the number of functions of the atom's kind |
| RustProtocol.Offsets | src/codegen/rust/ir/protocol.rs:76-78 | n offsets are rendered |
| RustProtocol.OffsetsParse | src/codegen/rust/ir/protocol.rs:76-78 | the k-th rendered offset reads back as k: the table lists 0 up to n - 1, each once, in order |
| RustProtocol.BuiltinOffsets | src/codegen/rust/ir/protocol.rs:55-62 | the offsets pushed for a builtin are 0 up to the number of functions of its kind, less one |
| RustProtocol.RangeOffsets | src/codegen/rust/ir/protocol.rs:91-94 | the offsets pushed for a struct or an enum are 0 up to n - 1 |
| RustProtocol.Variants | src/codegen/rust/ir/protocol.rs:225 | one variant name per function, in order |
| RustProtocol.ReadArms | src/codegen/rust/ir/protocol.rs:271-283 | arm k of `read` reads index k as the k-th variant |
| RustProtocol.WriteArms | src/codegen/rust/ir/protocol.rs:304-316 | arm k of `write` writes the k-th variant with index k |
| RustProtocol.EmitReadArms | src/codegen/rust/ir/protocol.rs:269-286 | the arms the counter loop writes are exactly the read arms of the atom's functions |
| RustProtocol.EmitWriteArms | src/codegen/rust/ir/protocol.rs:302-318 | the arms the second counter loop writes are exactly the write arms of the atom's functions |
| RustProtocol.GeneratedRead | src/codegen/rust/ir/protocol.rs:259-285 | the emitted `read` decodes exactly when the array has length 2 and the type index names an arm; otherwise it reaches `unreachable!()` |
| RustProtocol.GeneratedWrite | src/codegen/rust/ir/protocol.rs:301-317 | the index written beside a variant is one whose arm holds that variant |
| RustProtocol.WriteThenRead | src/codegen/rust/ir/protocol.rs:259-317 | a variant written then read back comes back as itself |
| RustProtocol.ReadThenWrite | src/codegen/rust/ir/protocol.rs:259-317 | with distinct variants, the index read back is the index written |
| RustProtocol.MethodArms | src/codegen/rust/ir/protocol.rs:218-230 | one arm per function, mapping its variant to its quoted method name |
| RustProtocol.MethodPanicsIffEmpty | src/codegen/rust/ir/protocol.rs:208-233 | `method` is the panic line exactly when no schema function has the atom's kind |
| RustProtocol.EnumVariants | src/codegen/rust/ir/protocol.rs:331-340 | variant k wraps the atom's type in the module of the k-th function of the kind |
| RustProtocol.AtomLayout | src/codegen/rust/ir/protocol.rs:326-355 | an atom is its derive line, its allow line, the enum, the `Atom` impl and the `Factual` impl, in that order |
| RustProtocol.AtomAgrees | src/codegen/rust/ir/protocol.rs:235-340 | the enum, the `read` arms and the `write` arms have one entry per function of the kind, and entry k of each names the same variant with index k |
| RustProtocol.TraitLayout | src/codegen/rust/ir/protocol.rs:158-171 | a trait is its head line, " {" on its own line, the methods one level in, "}" and a blank line |
| RustProtocol.SpecializationEnds | src/codegen/rust/ir/protocol.rs:139-183 | the specialisations end at the start of a line |
| RustProtocol.BuiltinSlots | src/codegen/rust/ir/protocol.rs:32-34 | builtin slot k is "__" followed by the k-th builtin's name |
| RustProtocol.StructSlots | src/codegen/rust/ir/protocol.rs:37-39 | struct slot k is the k-th struct's variant |
| RustProtocol.EnumSlots | src/codegen/rust/ir/protocol.rs:42-44 | enum slot k is the k-th enum's variant |
| RustProtocol.BuiltinCounts | src/codegen/rust/ir/protocol.rs:54-62 | the default of builtin k lists as many offsets as there are functions of its kind |
| RustProtocol.StructCounts | src/codegen/rust/ir/protocol.rs:74-78 | the default of struct k lists one offset per field |
| RustProtocol.EnumCounts | src/codegen/rust/ir/protocol.rs:90-94 | the default of enum k lists one offset per variant |
| RustProtocol.FieldLines | src/codegen/rust/ir/protocol.rs:30-45 | one `pub <slot>: TypeMapping,` line per slot |
| RustProtocol.MappedLines | src/codegen/rust/ir/protocol.rs:64-101 | one `Mapped(OffsetList(...))` line per slot, listing that slot's offsets |
| RustProtocol.BuiltinDefaultsMatchArms | src/codegen/rust/ir/protocol.rs:48-72 | for each atom, the default lists one offset per `read`/`write` arm, on the same line of its block as the struct declares the `__<name>` slot that `write` reads |
| RustProtocol.BuiltinDefaultLine | src/codegen/rust/ir/protocol.rs:53-71 | line 1 + k of `default` maps builtin k to the offsets of its kind's functions |
| RustProtocol.BuiltinFieldLine | src/codegen/rust/ir/protocol.rs:31-34 | line 1 + k of `ProtocolMapping` declares builtin k's slot |
| RustProtocol.StructSlotAligned | src/codegen/rust/ir/protocol.rs:36-39 | each struct's slot is declared and initialised on the same line of the two blocks, with one offset per field |
| RustProtocol.EnumSlotAligned | src/codegen/rust/ir/protocol.rs:41-44 | each enum's slot is declared and initialised on the same line of the two blocks, with one offset per variant |
| RustProtocol.ProtocolLayout | src/codegen/rust/ir/protocol.rs:7-18 | the protocol module holds, in order, the atoms, the specialisations and the translation tables, one level in |
| RustRouter.RouterLayout | src/codegen/rust/ir/router.rs:211-219 | the router's text is the call section, the slot aliases and the router section, in that order |
| RustRouter.SlotLayout | src/codegen/rust/ir/router.rs:62-73 | the `SlotReturn` and `SlotFn` aliases are one line each, at column 0 |
| RustRouter.CallStructLayout | src/codegen/rust/ir/router.rs:14-21 | the `Call` struct holds the state, the other side's client and the parameters, then a blank line |
| RustRouter.DowncastBodyLayout | src/codegen/rust/ir/router.rs:36-47 | `downcast` rebuilds the call in an `Ok(Call {` block closed by "})", converting only the parameters |
| RustRouter.RouterStructLayout | src/codegen/rust/ir/router.rs:76-90 | the router struct is its head, `where`, the bound on `T` one level deeper, the state and slot fields in a block, then a blank line |
| RustRouter.HandleBodyLayout | src/codegen/rust/ir/router.rs:141-159 | `handle` imports `Atom`, looks the slot up by method name, turns a missing slot into `MethodUnimplemented`, builds the call and calls the slot, in that order |
| RustRouter.RegisterBodyLayout | src/codegen/rust/ir/router.rs:200-205 | the registering `handle` inserts under `R::method()` a closure that downcasts the call and upcasts the results, closed by "}));" |
| RustSymbols.ModsLayout | src/codegen/rust/ir/symbols.rs:22-28 | each child namespace becomes a `pub mod <name>` block holding its own symbols, under the pushed stack, four columns in, in declaration order |
| RustSymbols.SymbolsLayout | src/codegen/rust/ir/symbols.rs:15-31 | the text is the trace line, then the module blocks of the direct child namespaces |
| RustSymbols.SymbolsLeaf | src/codegen/rust/ir/symbols.rs:20-28 | a body without child namespaces is the trace line alone, whatever else it declares |
| RustTypes.BaseNamesDistinct | src/codegen/rust/mod.rs:29-44 | distinct base types are written as distinct Rust types, in the flat mapping and in the stack-aware one |
| RustTypes.FlatBalanced | lavish/src/codegen/rust/mod.rs:57-91 | every generic the flat mapping opens it closes: as many '<' as '>' whenever the user types' texts have none |
| RustTypes.FlatUserClimbsOnce | src/codegen/rust/mod.rs:53-56 | a user type is not resolved: its text is read exactly one module up, wherever it is declared |
| RustTypes.RelativePathAscent | src/codegen/rust/ir/types.rs:66-78 | a rendered relative path is "super::" `up` times then the descent, and reads back as the same climb and descent |
| RustTypes.StackRustTypeTotal | src/codegen/rust/ir/types.rs:16-41 | the stack-aware mapping panics exactly when some user type inside does not resolve from the stack |
| RustTypes.MappingsAgree | src/codegen/rust/ir/types.rs:16-64 | on types without user types and timestamps the stack-aware mapping writes the same text as the flat one of src/codegen/rust/mod.rs:25-58 |

## Left out

- Output, files and the command line are left out. This covers file reads and `File::create`, `println!`/`print!`, the timing with `Instant`, and ANSI colours and bold text (the model's text is what remains with the escapes removed). The clap command lines and `parse_workspace` are out too. `Workspace::resolve` takes the file-exists test as a parameter.
- An error returned by `fmt::Write` when writing to a formatter is left out. Every write is taken to succeed.
- Character encoding: input is taken to be ASCII, so a char index and a byte index are the same.
- The heck case conversions and the CRC-32C digest of `EnumVariant::hash` are parameters. MessagePack byte encoding by rmp_serde is a parameter as well: a message is modelled as MessagePack values and an atom's payload arrives as bytes.
- EscapeChar (RustLang): `Debug` quoting follows `char::escape_debug` over ASCII only. Above ASCII every character is written as it is, whereas Rust also writes `\u{..}` for the characters its `is_printable` table rejects and for grapheme extenders. The `quoted` calls in the generator pass identifiers, which are ASCII.
- Tasks, channels, the `futures` lock and its `try_lock` panic, and the thread pool of lavish-rpc/src/system.rs are left out. Each queue operation is one atomic step.
- RpcSystem.Queue.NextId: follows a release build. `self.id += 1` (lavish-rpc/src/system.rs:391) wraps the `u32` id at 2^32; a debug build panics on that overflow instead.
- The whole-schema round trip (printing a tree and reading it back) is left out because its proof costs too much. It is stated rule by rule instead, in `LegacyRoundTrip` and the `*ParserFacts` modules.
- The grammar functions' own contracts state only progress, bounds and commit behaviour. What they read is stated in the facts and round-trip lemmas.
- The pass/fail fixture tests of src/parser/mod.rs:580-603 read fixture files that are not part of this model. The `target_unknown` case is stated by `NewParserFacts.TargetCommits`.
- `Span::position` of the newer span does not exist, so where `NewErrors` places an entry is the parameter `locate`. The newer `parser::module` is not part of this model either.
- The newer generation's `crate::codegen::output::Scope` is not part of this model. Its emitters are modelled with the older `Scope` (`LavishOutput`), whose calls they use unchanged.
- Several items the newer emitters read are parameters: `Stack::trace`, `quadruplet`, `walk_client_funs`, `qualified_name`, `lookup_struct` and the facts library's paths. The protocol emitter's walks `for_each_struct_of_schema` and `for_each_enum_of_schema` (src/codegen/rust/ir/protocol.rs:37, 42) are defined nowhere in the source, so they are parameters too: the lists `structs` and `enums` of `RustProtocol.Protocol`.
- The handler emitter's code (src/codegen/rust/ir/handler.rs:8, 79) is written as `impl Client<'a>` and `impl Display for Client<'a>`, on the name of the struct that src/codegen/rust/ir/client.rs:3-8 already declares, while the struct it declares itself is `Handler`. The source as written does not compile. RustHandler models those methods as the handler's own, apart from RustClient.
- src/codegen/rust/ir/types.rs:53-60 matches the base types `Int32` … `Bytes` of lavish/src/ast.rs, while src/ast/nodes.rs:302-313 declares `U8` … `Data`, so the source as written does not compile. RustTypes follows the match and maps the base types of lavish/src/ast.rs (`LavishAst.BaseType`). The newer base types `U8`, `I8`, `U16`, `I16` and `Data` have no Rust type in the model.
- The older `Schema` (lavish/src/ast.rs:102-107) declares a field `root: NamespaceDecl`, but the parser passes a namespace body to `Schema::new` (lavish/src/parser/mod.rs:27-28) and codegen reads `schema.body` (lavish/src/codegen/rust/mod.rs:261). `LavishAst.Schema` follows the code that uses the field: it holds `body`, a `NamespaceBody`.
- The older ir.rs reads `decl.body` and the older generator calls `variant_name()`, but lavish/src/ast.rs and lavish/src/codegen/rust/ir.rs define neither. The model reads a declaration's three item lists as its body (`LavishIr.DeclBody`) and takes `variant_name` to be `IrNames.Variant`.
- RustLang.DeriveClone: `Derive::clone` is not defined in src/codegen/rust/ir/lang.rs. It is taken to add `Clone` as the other derive setters add their trait.
- Glue with no behaviour of its own is left out: the checker and codegen `mod.rs` files, lavish-rpc's `lib.rs` and `error.rs`, and the printers src/checker/print.rs and src/printer.rs. So are the test drivers under tests/.
- Floating point is left out: the code only names the `f32` and `f64` types.
- A `panic!` or an `unwrap` on a failed value is modelled as `None` on that path. A `usize` subtraction that would underflow is modelled the same way, as a debug build panics on it (for example `text_line.len() - pos.column` at lavish/src/parser/errors.rs:250, in `LavishErrors.Render`); a release build would wrap instead. The panic of the span logging is the exception, listed member by member below.

- NewSource (NewErrors): names the source with the corrected `NewErrors.SourceName`, which removes only a leading "./". As written (src/parser/errors.rs:82), every "./" is removed, so "../a" is named ".a" (fifth Findings row).
- ConvertError (LegacyConvert): places each entry with the corrected `LegacyConvert.Locate`. As written (src/parser.rs:153), only the line's length is subtracted, so offset 7 of "ab\ncd\nef" is reported at line 0, column 0 rather than line 2, column 1 (second Findings row).
- MoreCommentLines (LegacyParser) is built on the corrected `LegacyParser.CommentLine` of the first Findings row, so a comment line ends at its own newline. As written (src/parser.rs:93-95), an empty "//" takes the next line as its text, and "//\nnamespace a {}\n" is refused.
- CommentP (LegacyParser) is built on the corrected `LegacyParser.CommentLine` of the first Findings row, so a comment line ends at its own newline. As written (src/parser.rs:93-95), an empty "//" takes the next line as its text, and "//\nnamespace a {}\n" is refused.
- OptComment (LegacyParser) is built on the corrected `LegacyParser.CommentLine` of the first Findings row, so a comment line ends at its own newline. As written (src/parser.rs:93-95), an empty "//" takes the next line as its text, and "//\nnamespace a {}\n" is refused.
- FieldP (LegacyParser) is built on the corrected `LegacyParser.CommentLine` through its optional comment, so a field's comment ends at its own newline. As written (src/parser.rs:93-95), an empty "//" before a field takes the field's line as its text.
- MoreFields (LegacyParser) is built on the corrected `LegacyParser.CommentLine` through `FieldP`, so a field's comment ends at its own newline. As written (src/parser.rs:93-95), an empty "//" before a field takes the field's line as its text.
- Fields (LegacyParser) is built on the corrected `LegacyParser.CommentLine` through `FieldP`, so a field's comment ends at its own newline. As written (src/parser.rs:93-95), an empty "//" before a field takes the field's line as its text.
- FieldList (LegacyParser) is built on the corrected `LegacyParser.CommentLine` through `FieldP`, so a field's comment ends at its own newline. As written (src/parser.rs:93-95), an empty "//" before a field takes the field's line as its text.
- OptResults (LegacyParser) is built on the corrected `LegacyParser.CommentLine` through `FieldP`, so a field's comment ends at its own newline. As written (src/parser.rs:93-95), an empty "//" before a field takes the field's line as its text.
- FnDecl (LegacyParser) is built on the corrected `LegacyParser.CommentLine` of the first Findings row, so a comment line ends at its own newline. As written (src/parser.rs:93-95), an empty "//" takes the next line as its text, and "//\nnamespace a {}\n" is refused.
- NsItem (LegacyParser) is built on the corrected `LegacyParser.CommentLine` of the first Findings row, so a comment line ends at its own newline. As written (src/parser.rs:93-95), an empty "//" takes the next line as its text, and "//\nnamespace a {}\n" is refused.
- NsBody (LegacyParser) is built on the corrected `LegacyParser.CommentLine` of the first Findings row, so a comment line ends at its own newline. As written (src/parser.rs:93-95), an empty "//" takes the next line as its text, and "//\nnamespace a {}\n" is refused.
- NsOpen (LegacyParser) is built on the corrected `LegacyParser.CommentLine` of the first Findings row, so a comment line ends at its own newline. As written (src/parser.rs:93-95), an empty "//" takes the next line as its text, and "//\nnamespace a {}\n" is refused.
- NsDecl (LegacyParser) is built on the corrected `LegacyParser.CommentLine` of the first Findings row, so a comment line ends at its own newline. As written (src/parser.rs:93-95), an empty "//" takes the next line as its text, and "//\nnamespace a {}\n" is refused.
- RootDecls (LegacyParser) is built on the corrected `LegacyParser.CommentLine` of the first Findings row, so a comment line ends at its own newline. As written (src/parser.rs:93-95), an empty "//" takes the next line as its text, and "//\nnamespace a {}\n" is refused.
- Root (LegacyParser) is built on the corrected `LegacyParser.CommentLine` of the first Findings row, so a comment line ends at its own newline. As written (src/parser.rs:93-95), an empty "//" takes the next line as its text, and "//\nnamespace a {}\n" is refused.
- FnDecl (NewParser) is built on the corrected `NewParser.FnHead` of the fourth Findings row. As written (src/parser/mod.rs:359-360), "// doc\nserver fn f()" refuses the head at the newline, and the function is read without its doc comment.
- NotifDecl (NewParser) is built on the corrected `NewParser.FnHead`. As written (src/parser/mod.rs:402-403), a notification after a comment line loses the comment in the same way.
- NsItem (NewParser) tries the corrected `FnDecl` and `NotifDecl`. As written (src/parser/mod.rs:471-484), "// doc\nserver fn f()" reads the comment as a lone line and the function without it.
- NsItems (NewParser) is built on the corrected `NewParser.FnHead` of the fourth Findings row. As written (src/parser/mod.rs:359-360), "// doc\nserver fn f()" refuses the head at the newline, and the function is read without its doc comment.
- NsBody (NewParser) is built on the corrected `NewParser.FnHead` of the fourth Findings row. As written (src/parser/mod.rs:359-360), "// doc\nserver fn f()" refuses the head at the newline, and the function is read without its doc comment.
- NsDecl (NewParser) is built on the corrected `NewParser.FnHead` of the fourth Findings row. As written (src/parser/mod.rs:359-360), "// doc\nserver fn f()" refuses the head at the newline, and the function is read without its doc comment.
- SchemaP (NewParser) is built on the corrected `NewParser.FnHead` of the fourth Findings row. As written (src/parser/mod.rs:359-360), "// doc\nserver fn f()" refuses the head at the newline, and the function is read without its doc comment.
- TakeIsPrefix (NewSpan), for `take`, does not model the panic of the span logging. `Debug` for a span (src/parser/span.rs:17-28) slices the first 12 bytes, so the `println!` of a span shorter than 12 bytes panics. The model logs nothing and returns the normal result, as the corrected `NewSpan.DebugPreview` of the last Findings row would let it.
- TakeSplitAdjacent (NewSpan), for `take_split`, does not model the panic of the span logging. `Debug` for a span (src/parser/span.rs:17-28) slices the first 12 bytes, so the `println!` of a span shorter than 12 bytes panics. The model logs nothing and returns the normal result, as the corrected `NewSpan.DebugPreview` of the last Findings row would let it.
- Compare (NewSpan), for `compare` (src/parser/span.rs:193), does not model the panic of the span logging. `Debug` for a span (src/parser/span.rs:17-28) slices the first 12 bytes, so the `println!` of a span shorter than 12 bytes panics. The model logs nothing and returns the normal result, as the corrected `NewSpan.DebugPreview` of the last Findings row would let it.
- CompareNoCase (NewSpan), for `compare_no_case` (src/parser/span.rs:215), does not model the panic of the span logging. `Debug` for a span (src/parser/span.rs:17-28) slices the first 12 bytes, so the `println!` of a span shorter than 12 bytes panics. The model logs nothing and returns the normal result, as the corrected `NewSpan.DebugPreview` of the last Findings row would let it.
- constructor (NewSpan.CharIter), for `chars` (src/parser/span.rs:32), does not model the panic of the span logging. `Debug` for a span (src/parser/span.rs:17-28) slices the first 12 bytes, so the `println!` of a span shorter than 12 bytes panics. The model logs nothing and returns the normal result, as the corrected `NewSpan.DebugPreview` of the last Findings row would let it.
- NextIndexed (NewSpan.CharIter), for the iterator (src/parser/span.rs:101), does not model the panic of the span logging. `Debug` for a span (src/parser/span.rs:17-28) slices the first 12 bytes, so the `println!` of a span shorter than 12 bytes panics. The model logs nothing and returns the normal result, as the corrected `NewSpan.DebugPreview` of the last Findings row would let it.
- Next (NewSpan.CharIter), for the iterator (src/parser/span.rs:82), does not model the panic of the span logging. `Debug` for a span (src/parser/span.rs:17-28) slices the first 12 bytes, so the `println!` of a span shorter than 12 bytes panics. The model logs nothing and returns the normal result, as the corrected `NewSpan.DebugPreview` of the last Findings row would let it.
- CharIndices (NewSpan), for `char_indices` (src/parser/span.rs:40), does not model the panic of the span logging. `Debug` for a span (src/parser/span.rs:17-28) slices the first 12 bytes, so the `println!` of a span shorter than 12 bytes panics. The model logs nothing and returns the normal result, as the corrected `NewSpan.DebugPreview` of the last Findings row would let it.
- FindChar (NewSpan), for `position`, through `char_indices`, does not model the panic of the span logging. `Debug` for a span (src/parser/span.rs:17-28) slices the first 12 bytes, so the `println!` of a span shorter than 12 bytes panics. The model logs nothing and returns the normal result, as the corrected `NewSpan.DebugPreview` of the last Findings row would let it.
- SliceIndex (NewSpan), for `slice_index`, through `char_indices`, does not model the panic of the span logging. `Debug` for a span (src/parser/span.rs:17-28) slices the first 12 bytes, so the `println!` of a span shorter than 12 bytes panics. The model logs nothing and returns the normal result, as the corrected `NewSpan.DebugPreview` of the last Findings row would let it.
- EntryMessage (NewErrors) is built on the corrected span logging. As written, `span.chars()` (src/parser/errors.rs:236) logs the span through `Debug` (src/parser/span.rs:25, 32), which panics whenever the rest of the input from the entry is shorter than 12 bytes. So an expected-character entry within 11 bytes of the end panics in the source while the model gives its message: over "ab", entry (0, CharKind('x')) does so (`NewErrors.EntryLogPanicsAsWritten`).
- WriteEntry (NewErrors) inherits that: for an expected-character entry within 11 bytes of the end it writes a block where the source panics.
- PrintErrors (NewErrors) inherits that as well: it panics only at an expected character at the very end of the input, not at every expected character within 11 bytes of the end.
- The rules of NewParser are built on the corrected span logging as well. Near the end of the input, where the source's `compare`, `chars` and `char_indices` would panic on logging a short span, the model's rules go on parsing.
- The router's inherent and trait impls (`RustRouter.InherentCmds`, `RustRouter.RouterSectionCmds`) put type-parameter bounds on `impl<...>`, the corrected placement of the third Findings row. The builders `_impl(name)`, `_impl_trait`, `type_param` and `type_param_bound` that src/codegen/rust/ir/router.rs calls are defined nowhere in the source.
- ReadFn (RustProtocol) does not render `self_bound("Sized")` (src/codegen/rust/ir/protocol.rs:248), whose builder is defined nowhere in the source. `_impl_trait` (src/codegen/rust/ir/protocol.rs:238, 343) is rendered as the two-argument `_impl`.

## Findings

| source | as written | input that shows it | evidently intended | confidence | as-written member | corrected member |
|---|---|---|---|---|---|---|
| src/parser.rs:93-95 | `comment_line` skips whitespace with `sp` after "//", and `sp` also skips a newline | "//\nnamespace a {}\n": the empty comment takes the next line, `namespace a {}`, as its text | a comment line ends at its own newline | high, not executed | `LegacyParser.CommentLineAsWritten`, shown by `LegacyRoundTrip.CommentSwallowsNextLine` | `LegacyParser.CommentLine`, with `LegacyParser.CommentLineOneLine` |
| src/parser.rs:153 | `convert_error` subtracts only the line's length when it passes a line, not the newline after it | "ab\ncd\nef" at offset 7 (the 'f') is reported at line 0, column 0 | line 2, column 1: subtract the length plus one for the newline | high, not executed | `LegacyConvert.LocateAsWritten`, shown by `LegacyConvert.LocateAsWrittenMisses` | `LegacyConvert.Locate`, with `LegacyConvert.LocateFinds` |
| src/codegen/rust/lang.rs:219-238 | `_Impl` writes the parameters' bounds on the type's argument list; src/codegen/rust/ir/lang.rs and lavish/src/codegen/rust/ir.rs repeat the code | `_impl("Tr", "N").type_param("T", Some("C"))` renders `impl<T> Tr for N<T: C> {}`, which is not valid Rust | `impl<T: C> Tr for N<T> {}` | high, not executed | `RustLang.ImplCmdsAsWritten`, shown by `RustLang.ImplBoundMisplaced` | `RustLang.ImplCmds`, with `RustLang.ImplBoundPlaced` |
| src/parser/mod.rs:359-360 | `fndecl` and `notifdecl` read `opt(comment)` and then the side keyword without skipping whitespace between them | "// doc\nserver fn": the head is refused at the newline, so the comment is read as a lone comment line and the function has no doc comment | the comment stays with the function that follows it | medium, not executed | `NewParser.FnHeadAsWritten`, shown by `NewParserFacts.DocCommentLost` | `NewParser.FnHead`, with `NewParserFacts.HeadKeepsComment` |
| src/parser/errors.rs:82 | a source's name removes every "./" in its path | "../a" is named ".a" | only a leading "./" is removed, so "../a" keeps its name | medium, not executed | `NewErrors.NameAsWritten`, shown by `NewErrors.ParentPathMangled` | `NewErrors.SourceName`, with `NewErrors.ParentPathKept` |
| src/parser/span.rs:25 | `Debug` for `Span` slices the first 12 bytes, which panics on a shorter span; `compare` logs every span it compares | in "struct A {}\n", the span at offset 10 with length 2 ("}\n") | show at most 12 bytes | high, not executed | `NewSpan.DebugPreviewAsWritten`, shown by `NewSpan.DebugPanicsOnShortTail` and `NewErrors.EntryLogPanicsAsWritten` | `NewSpan.DebugPreview` |
