# uwu code generator, modelled in Dafny

uwu translates a small scripting language into JavaScript. This project
models its code generator, `compiler.rs`:

- the `Compiler` object, which owns the syntax tree and a scope table of
  declared function names;
- the top-level driver `compile`;
- the block renderer `compile_block`;
- the expression renderer `compile_expr`, with every variant;
- the literal renderer `compile_literal`, with numbers (`compile_number`),
  strings, booleans, arrays and maps.

The model has two layers.

- **Render** (`render.dfy`) is the specification. `ExprOut`, `BlockOut`,
  `ArgsOut`, `ArrayOut`, `HashOut`, `LiteralOut` and `ProgramOut` are
  functions of a node and of the scope table at the moment the node is
  reached. All but `ProgramOut` return an `Outcome`: the text, or `None`
  when the node cannot be rendered, together with the scope table
  afterwards. `ProgramOut` cannot fail and returns a `Listing`: the text
  and the scope table afterwards.
- **Codegen** (`codegen.dfy`) is the generator in the source's own
  imperative form. It is the class `Compiler` with the mutable field
  `scope`, and its methods build their text with loops, as the source
  does. Each method is proved to produce exactly what the matching Render
  function says, and to leave `scope` where that function says.

The other modules:

- **Ast** (`ast.dfy`) holds the syntax tree, size measures for
  termination, and `FuncNames`, the function names a subtree can declare.
- **Text** (`text.dfy`) holds parameter joining and decimal integer
  text, with its round trip.
- **Scoping** (`scoping.dfy`) proves two facts about the scope table.
  Rendering only ever adds names, and only the names the subtree declares.
  For call-free code, text and scope do not depend on the scope the
  renderer starts with.
- **Properties** (`properties.dfy`) proves the behaviour of the driver,
  blocks, function literals, the call gate and literals. The call gate is
  the rule that a call is emitted only when its rendered callee is a
  declared name.
- **Examples** (`examples.dfy`) states the source's eleven unit tests.
  Each is a method that calls the generator on a hand-built tree that
  yields the test's expected output, and whose postcondition states that
  output. Further worked cases pin down evaluation order (value before
  target, value before key) and the generator's quirks: the trailing comma
  before a skipped last array element or map entry, a call placed before
  its function's definition, Blank ending the program, a top-level
  `return` contributing nothing, and a reused instance keeping its scope.

Three points of the code's behaviour are easy to misread:

- An assignment renders its value before its target
  (`compiler.rs:80-81`).
  `TargetCallsValueRenders` shows the effect: the value can declare a
  function that the target then calls.
- A map entry is skipped only when its value fails. When the value
  succeeds and the key fails, the whole map fails (`compiler.rs:224-225`).
- `compile` takes `&self`, and the scope table lives in the instance. A
  second `compile` on the same instance therefore sees the names the first
  one registered. `ReusedInstanceSeesEarlierNames` shows this.
  `CompileWithFreshInstances` shows that separate instances agree.

## Model

| member | source | states |
|---|---|---|
| Codegen.Compiler.constructor | compiler.rs:16-21 | a new generator holds the given tree and an empty scope table |
| Codegen.Compiler.Compile | compiler.rs:24-43 | the output is the banner followed by the program's rendering from the current scope table; the table ends where that rendering leaves it |
| Codegen.Compiler.CompileBlock | compiler.rs:45-66 | the loop yields exactly the block's rendering and final scope, including Blank cutting the block short, `return ` prefixes and failure on an unsupported statement |
| Codegen.Compiler.CompileExpr | compiler.rs:68-198 | each expression variant yields exactly its rendering and final scope, failures propagating from every sub-expression except array elements and map values, which are skipped, and the body of an anonymous function literal, which is never rendered |
| Codegen.Compiler.CompileFunction | compiler.rs:120-138 | a named function literal registers its name before its body is rendered and emits `function n(p0,p1,...){body}` with no trailing comma |
| Codegen.Compiler.CompileCall | compiler.rs:139-154 | a call renders its callee, fails unless that text is a declared name, and emits the comma-separated arguments, any failing argument failing the call |
| Codegen.Compiler.CompileLiteral | compiler.rs:200-238 | numbers, strings and booleans render to their text; arrays and maps are delegated |
| Codegen.Compiler.CompileArray | compiler.rs:206-220 | the array loop skips failing elements and writes a comma after every rendered element except the one at the last index |
| Codegen.Compiler.CompileHash | compiler.rs:221-236 | the map loop renders each value before its key, skips entries whose value fails, and fails on a key that fails |
| Codegen.CompileWithFreshInstances | compiler.rs:16-43 | two fresh generators over the same tree produce the same output, the banner followed by the rendering from an empty scope |
| Render.NumberText | compiler.rs:240-245 | an integer renders as canonical decimal text whose value is the integer; a float renders as its display text |
| Render.ArrayOut | compiler.rs:206-220 | rendering array elements never fails |
| Render.CompileProgram | compiler.rs:25 | every output starts with the banner `// Generated by uwu compiler v0.0` and a newline |
| Text.NatText | compiler.rs:242 | the decimal text of a natural number is canonical and reads back as that number |
| Text.IntText | compiler.rs:242 | the decimal text of an integer is canonical (a minus sign only before a nonzero magnitude) and reads back as that integer |
| Text.IntTextOfValue | compiler.rs:242 | every canonical decimal text is the rendering of its own value, so text and value are in one-to-one correspondence |
| Text.NatTextOfValue | compiler.rs:242 | the same round trip for digit strings without sign |
| Scoping.ExprScopeBounds | compiler.rs:125 | rendering an expression only adds names to the scope table, and only names of function literals inside it |
| Scoping.BodyScopeBounds | compiler.rs:120-195 | the same bound for function literals, calls, loops and conditionals |
| Scoping.BlockScopeBounds | compiler.rs:45-66 | the same bound for a block |
| Scoping.ArgsScopeBounds | compiler.rs:146-152 | the same bound for call arguments |
| Scoping.ArrayScopeBounds | compiler.rs:208-217 | the same bound for array elements |
| Scoping.HashScopeBounds | compiler.rs:223-233 | the same bound for map entries |
| Scoping.LitScopeBounds | compiler.rs:200-238 | the same bound for a literal |
| Scoping.ProgramScopeBounds | compiler.rs:26-41 | the same bound for the top-level statements |
| Scoping.ExprScopeIndependent | compiler.rs:141 | an expression without calls renders the same text from any scope, and adds the same names to it |
| Scoping.BodyScopeIndependent | compiler.rs:120-195 | the same for call-free function literals, loops and conditionals |
| Scoping.BlockScopeIndependent | compiler.rs:45-66 | the same for a call-free block |
| Scoping.ArrayScopeIndependent | compiler.rs:208-217 | the same for call-free array elements |
| Scoping.HashScopeIndependent | compiler.rs:223-233 | the same for call-free map entries |
| Scoping.LitScopeIndependent | compiler.rs:200-238 | the same for a call-free literal |
| Properties.ProgramConcat | compiler.rs:26-41 | without Blank, the rendering of two statement sequences in a row is the first's text followed by the second's, rendered from the scope the first leaves |
| Properties.ProgramStopsAtBlank | compiler.rs:27-31 | a top-level Blank adds one newline and nothing after it is rendered |
| Properties.ProgramSkipsNonExpr | compiler.rs:33-36 | a top-level return or unsupported statement contributes nothing and leaves the scope alone |
| Properties.ProgramDropsFailedExpr | compiler.rs:38-40 | a top-level expression that fails adds no text, and rendering continues from the scope it left |
| Properties.ProgramAgreesWithBlock | compiler.rs:26-66 | on statements without return whose block rendering succeeds, the driver and the block renderer produce the same text and scope |
| Properties.BlockConcat | compiler.rs:45-66 | without Blank, a block of two parts fails if the first part fails and renders as the first part's text followed by the second's otherwise |
| Properties.BlockStopsAtBlank | compiler.rs:48-52 | a Blank inside a block adds one newline and ends the block successfully |
| Properties.BlockFailsOnOther | compiler.rs:60 | an unsupported statement fails its block |
| Properties.BlockFailurePropagates | compiler.rs:55-58 | a failing expression or return statement fails its block |
| Properties.ReturnRendersWithPrefix | compiler.rs:56-59 | a return statement renders as `return ` followed by its expression, and fails when the expression does |
| Properties.NamedFunctionLiteral | compiler.rs:120-138 | a named function literal always leaves its name declared, succeeds exactly when its body does, and keeps the name registered even when the body fails |
| Properties.AnonymousFunctionVanishes | compiler.rs:120-121 | a function literal without a name renders as empty text and changes nothing |
| Properties.SelfCallPassesGate | compiler.rs:123-125 | a function whose body returns a call of itself renders, because its name is declared before the body |
| Properties.CallGate | compiler.rs:139-154 | a call succeeds exactly when its callee renders to a declared name and all its arguments render, and then is `callee(args);` |
| Properties.UnregisteredCallFails | compiler.rs:140-143 | a call of a name that is not declared fails and leaves the scope unchanged |
| Properties.CallAfterDefinitionPassesGate | compiler.rs:125 | after a function literal has been rendered, a call of its name passes the gate, and then fails only if its arguments fail |
| Properties.DefinedNameVisibleLater | compiler.rs:26-41 | a top-level named function literal's name is declared for every later top-level statement |
| Properties.UndeclaredTopLevelCallVanishes | compiler.rs:139-143 | a top-level call of a name that neither the starting scope nor any earlier statement declares is dropped without trace |
| Properties.ArgsAreJoined | compiler.rs:146-152 | call arguments render as the separator-joined list of the argument texts, and fail exactly when one argument fails |
| Properties.ArrayMatchesArgs | compiler.rs:206-220 | when no element fails, array elements and call arguments render identically |
| Properties.ArrayLiteralNeverFails | compiler.rs:206-220 | an array literal always renders, as its elements between brackets |
| Properties.IdentKeysNeverFail | compiler.rs:221-236 | map entries whose keys are identifiers always render |
| Properties.KeyFailureFailsMap | compiler.rs:224-225 | the first map entry whose value renders and whose key then fails makes the whole map fail |
| Properties.KeyFailureFailsMapAnywhere | compiler.rs:223-233 | at any position, an entry whose value renders and whose key then fails makes the whole map fail, whatever the entries before and after it |
| Properties.EntriesAreJoined | compiler.rs:221-236 | when every value and key renders, the inside of a map literal is its `key:value` items joined by commas, with no comma after the last |
| Properties.ValueFailureSkipsEntry | compiler.rs:223-224 | a leading map entry whose value fails is skipped, and the rest of the map renders from the scope that value left |
| Properties.ArrayIsKeptJoined | compiler.rs:206-220 | for any elements, an array literal's inside is the texts of the elements that render, at whatever positions, joined by commas, plus one trailing comma exactly when the element at the last index was skipped after a kept one |
| Properties.HashIsKeptJoined | compiler.rs:221-236 | for any entries, a map literal fails exactly when some key fails after its value rendered; otherwise its inside is the `key:value` texts of the entries whose values render, at whatever positions, joined by commas, plus one trailing comma exactly when the entry at the last index was skipped after a kept one |
| Properties.OperatorsAddNoSpace | compiler.rs:84-98 | infix and prefix expressions put the operator text directly next to their operand texts, with no space, and fail when an operand does |
| Properties.IfShape | compiler.rs:177-195 | a conditional succeeds exactly when its condition and branches render, and then is `if(c){..}` with `else{..}` appended only when there is an else branch |
| Properties.AccessorUsesFirstSegment | compiler.rs:107-113 | a member access renders its base, a dot and the first name segment only |
| Properties.LetShape | compiler.rs:71-78 | a binding renders as `let n = v; \n` and fails when its value fails |
| Properties.AssignShape | compiler.rs:79-83 | an assignment renders its value, then its target from the scope the value left, as `t = v; \n`, and fails when either fails |
| Properties.IndexShape | compiler.rs:99-106 | an index renders as `a[k]`, base first, and fails when either part fails |
| Properties.RegexpShape | compiler.rs:160-167 | a regular expression renders as `/pattern/` followed by its flags, or by nothing when it has none |
| Properties.WhileShape | compiler.rs:168-176 | a loop succeeds exactly when its condition and body render, and then is `while(c){body}` |
| Properties.MacroSplicesExpansion | compiler.rs:155-159 | a macro call renders its name and yields the collaborator's expansion verbatim, failing when the name fails or the macro is unknown |
| Properties.IdentVerbatim | compiler.rs:117-119 | an identifier renders as its name, unescaped, and leaves the scope alone |
| Examples.CompileDecl | compiler.rs:261-266 | the declarations test: five `let` statements render in order, an array as `[1,2,2]` and a map as `{x:1}` |
| Examples.CompileMutDecl | compiler.rs:268-275 | the reassignment test renders `a = a+1/2; \n` after the declaration |
| Examples.CompileFn | compiler.rs:277-284 | the empty function test renders `function add(x,y){}` |
| Examples.CompileFnReturn | compiler.rs:286-293 | the returning function test renders `function add(x,y){return 0}` |
| Examples.CompileCall | compiler.rs:295-302 | the call test: a call after its definition passes the gate and renders `add(1,2);` |
| Examples.CompileWhile | compiler.rs:304-311 | the loop test renders `while(true){print(1);}` after the definition |
| Examples.CompileIf | compiler.rs:313-320 | the conditional test renders `if(true){print(1);}` after the definition |
| Examples.CompileIfElse | compiler.rs:322-329 | the if-else test renders `if(x){}else{}` |
| Examples.CompilePrefixExpr | compiler.rs:331-335 | the prefix test renders `!x` |
| Examples.CompileInfixExpr | compiler.rs:337-341 | the infix test renders `x+2-1` |
| Examples.CompileIndexExpr | compiler.rs:343-347 | the index test renders `x[1]` |
| Examples.ArraysWithFailedElement | compiler.rs:208-217 | for any undeclared name f, `[1, f()]` renders as `[1,]` (the comma stays before a failed last element) and `[f(), 1]` renders as `[1]` |
| Examples.ArrayKeepsCommaBeforeFailedLast | compiler.rs:208-217 | the comma quirk on a concrete program: output `[1,]` |
| Examples.ArraySkipsFailedElement | compiler.rs:208-217 | a failed element elsewhere is skipped with its comma: output `[1]` |
| Examples.MapsWithFailedValue | compiler.rs:223-233 | for any undeclared name f, `{x:1, x:f()}` renders as `{x:1,}` (the comma stays before a skipped last entry) and `{x:f(), x:1}` renders as `{x:1}` |
| Examples.MapKeepsCommaBeforeFailedLast | compiler.rs:223-233 | the map comma quirk on a concrete program: output `{x:1,}` |
| Examples.KeyCallsValueRenders | compiler.rs:224-225 | in a map entry the value is rendered first, so a key that calls the function the value declares passes the gate |
| Examples.TargetCallsValueRenders | compiler.rs:80-81 | in an assignment the value is rendered first, so a target that calls the function the value declares passes the gate |
| Examples.MapValueBeforeKey | compiler.rs:224-225 | the value-before-key order on a concrete program: output `{k();:function k(){}}` |
| Examples.AssignValueBeforeTarget | compiler.rs:80-81 | the value-before-target order on a concrete program: output `g(); = function g(){}; \n` |
| Examples.CallThenDefineFresh | compiler.rs:139-143 | from an empty scope, a call of f placed before f's definition is dropped, and only the definition is emitted |
| Examples.CallThenDefineAgain | compiler.rs:139-143 | from a scope already holding f, the same program emits the call too |
| Examples.CallBeforeDefinitionDropped | compiler.rs:26-41 | a generator run on call-then-define outputs only `function f(){}` |
| Examples.ReusedInstanceSeesEarlierNames | compiler.rs:24-43 | compiling the same instance twice: the second output also contains the call, because the first run left f declared |
| Examples.BlankEnds | compiler.rs:27-31 | for any names x and y, `x`, Blank, `y` renders as x and a newline |
| Examples.BlankEndsProgram | compiler.rs:27-31 | the Blank terminator on a concrete program: output `x` and a newline |
| Examples.ReturnSkipped | compiler.rs:33-36 | a top-level return statement contributes nothing |
| Examples.TopLevelReturnSkipped | compiler.rs:33-36 | the skipped top-level return on a concrete program: output `y` |

## Left out

- The lexer and parser that build the tree are not modelled. The tests
  start from hand-built trees that yield the tests' expected outputs. The
  parser sources, `ast.rs`, `env.rs` and `macros.rs`, are not part of this
  model.
- Macro expansion is a parameter of the generator (`Expander`). It stands
  for looking up the macro by name and then expanding it. What the macros
  produce is not modelled.
- The Display text of operators and floating-point numbers is taken as
  given: `Op` carries its text and `Float` its display string, and
  float formatting is not modelled. Integers are rendered in decimal by
  `Text.IntText`.
- The scope table is a reference-counted cell holding an `Env`. Here it is
  a `set<string>` field of the generator. `add` is set union and `has` is
  membership. Aliasing of the cell is not modelled, since nothing else
  holds it.
- Reading the first name segment of a member access would panic on an
  empty list. The `Segments` type excludes that case, so the panic is not
  modelled.
- Statement kinds the generator has no arm for are one constructor,
  `Other`.
- `crates/parser/src/main.rs` is a standalone demo of the swc JavaScript
  parser that loads a file and prints the parse result. `lib/index.ts` and
  `svelte/src/uwu.js` are bindings to a wasm scanner that returns
  diagnostics, with network calls and wasm loading. `lib/build.js` is a
  bundler configuration. None of them calls the generator, and none is
  modelled.
