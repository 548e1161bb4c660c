/** The generator's unit tests, each on a hand-built syntax tree that
    yields the test's expected output, passed to a freshly constructed
    Codegen.Compiler; and further worked cases that pin down evaluation
    order and the quirks of the generator. None of these programs uses a
    macro.

    Each case is proved in three steps. A lemma over arbitrary identifier
    names fixes what the program renders to, as a concatenation of the
    pieces the generator emits; a second lemma spells that concatenation
    out for the names the test uses; and the test method calls the
    generator, its postcondition stating the expected listing. */
module Examples {
  import opened Ast
  import opened Text
  import opened Render
  import opened Codegen

  const NoMacros: Expander := (name: string, args: seq<Expr>) => None

  function N(i: int): Expr { Lit(Num(Int(i))) }

  /** The outcome is the text `t`, with the scope left at `sc1`. */
  predicate Renders(o: Outcome, t: string, sc1: Scope)
  {
    o.text.Some? && o.text.value == t && o.scope == sc1
  }

  /** What the top-level driver adds for an outcome: its text, or nothing. */
  function Shown(o: Outcome): string
  {
    if o.text.Some? then o.text.value else ""
  }

  /** A top level made of expression statements renders as the
      concatenation of what each one shows, given the scope between them. */
  lemma {:induction false} RunOf(ss: seq<Stmt>, outs: seq<string>, scopes: seq<Scope>, mx: Expander)
    requires |outs| == |ss| && |scopes| == |ss| + 1
    requires forall i :: 0 <= i < |ss| ==>
               ss[i].ExprStmt? && Shown(ExprOut(ss[i].e, scopes[i], mx)) == outs[i] &&
               ExprOut(ss[i].e, scopes[i], mx).scope == scopes[i + 1]
    ensures ProgramOut(ss, scopes[0], mx) == Listing(Join(outs, ""), scopes[|ss|])
  {
    if |ss| > 0 {
      RunOf(ss[1..], outs[1..], scopes[1..], mx);
      if |ss| == 1 {
        assert outs[1..] == [] && outs[0] + "" == outs[0];
      } else {
        assert outs[0] + "" + Join(outs[1..], "") == outs[0] + Join(outs[1..], "");
      }
    }
  }

  lemma JoinTwo(a: string, b: string)
    ensures Join([a, b], "") == a + b
  {
    assert [a, b][1..] == [b];
    assert a + "" + b == a + b;
  }

  lemma JoinFive(a: string, b: string, c: string, d: string, e: string)
    ensures Join([a, b, c, d, e], "") == a + b + c + d + e
  {
    JoinTwo(d, e);
    assert [c, d, e][1..] == [d, e];
    assert Join([c, d, e], "") == c + d + e;
    assert [b, c, d, e][1..] == [c, d, e];
    assert Join([b, c, d, e], "") == b + c + d + e;
    assert [a, b, c, d, e][1..] == [b, c, d, e];
  }

  lemma SmallNumbers(sc: Scope, mx: Expander)
    ensures Renders(ExprOut(N(0), sc, mx), "0", sc)
    ensures Renders(ExprOut(N(1), sc, mx), "1", sc)
    ensures Renders(ExprOut(N(2), sc, mx), "2", sc)
  {
    assert NatText(0) == [DigitChar(0)];
    assert NatText(1) == [DigitChar(1)];
    assert NatText(2) == [DigitChar(2)];
  }

  lemma TwoParams(x: string, y: string)
    ensures Join([x, y], ",") == x + "," + y
  {
    assert [x, y][1..] == [y];
  }

  /** A program of one expression statement shows what that expression renders to. */
  lemma Single(e: Expr, t: string, sc1: Scope, mx: Expander)
    requires Renders(ExprOut(e, {}, mx), t, sc1)
    ensures ProgramOut([ExprStmt(e)], {}, mx).text == t
  {
    assert [ExprStmt(e)][1..] == [];
    assert t + "" == t;
  }

  /** A parameterless function literal with an empty body. */
  lemma DefineRenders(n: string, sc: Scope, mx: Expander)
    ensures Renders(ExprOut(Func(Some(n), [], []), sc, mx), "function " + n + "(){}", sc + {n})
  {
    assert "function " + n + "(" + "" + "){" + "" + "}" == "function " + n + "(){}";
  }

  /** A call without arguments of a name already in scope. */
  lemma CallRenders(n: string, sc: Scope, mx: Expander)
    requires n in sc
    ensures Renders(ExprOut(Call(Ident(n), []), sc, mx), n + "();", sc)
  {
    assert n + "(" + ("" + ");") == n + "();";
  }

  /** `c(source)` of the tests: a new generator over the tree, compiled once. */
  method Run(ast: Program) returns (out: string)
    ensures out == Banner + ProgramOut(ast, {}, NoMacros).text
  {
    var c := new Compiler(ast, NoMacros);
    out := c.Compile();
  }

  // compile_decl

  function DeclProgram(a: string, b: string, c: string, d: string, e: string, x: string, s: string): Program
  {
    [ExprStmt(Let(a, N(1))), ExprStmt(Let(b, Lit(Str(s)))), ExprStmt(Let(c, Lit(Bool(true)))),
     ExprStmt(Let(d, Lit(Array([N(1), N(2), N(2)])))), ExprStmt(Let(e, Lit(Hash([Entry(Ident(x), N(1))]))))]
  }

  function DeclText(a: string, b: string, c: string, d: string, e: string, x: string, s: string): string
  {
    ("let " + a + " = " + "1" + "; \n") +
    ("let " + b + " = " + s + "; \n") +
    ("let " + c + " = " + "true" + "; \n") +
    ("let " + d + " = " + ("[" + ((("1" + ",") + (("2" + ",") + "2")) + "]")) + "; \n") +
    ("let " + e + " = " + ("{" + ((x + ":" + "1") + "}")) + "; \n")
  }

  lemma LiteralsRender(x: string, sc: Scope, mx: Expander)
    ensures Renders(ExprOut(Lit(Array([N(1), N(2), N(2)])), sc, mx), "[" + ((("1" + ",") + (("2" + ",") + "2")) + "]"), sc)
    ensures Renders(ExprOut(Lit(Hash([Entry(Ident(x), N(1))])), sc, mx), "{" + ((x + ":" + "1") + "}"), sc)
  {
    SmallNumbers(sc, mx);
    assert [N(2), N(2)][1..] == [N(2)];
    assert Renders(ArrayOut([N(2), N(2)], sc, mx), ("2" + ",") + "2", sc);
    assert [N(1), N(2), N(2)][1..] == [N(2), N(2)];
    assert Renders(ArrayOut([N(1), N(2), N(2)], sc, mx), ("1" + ",") + (("2" + ",") + "2"), sc);
    assert Renders(HashOut([Entry(Ident(x), N(1))], sc, mx), x + ":" + "1", sc);
  }

  lemma DeclProgramRenders(a: string, b: string, c: string, d: string, e: string, x: string, s: string, mx: Expander)
    ensures ProgramOut(DeclProgram(a, b, c, d, e, x, s), {}, mx).text == DeclText(a, b, c, d, e, x, s)
  {
    SmallNumbers({}, mx);
    LiteralsRender(x, {}, mx);
    var p := DeclProgram(a, b, c, d, e, x, s);
    var ta, tb, tc := "let " + a + " = " + "1" + "; \n", "let " + b + " = " + s + "; \n", "let " + c + " = " + "true" + "; \n";
    var td := "let " + d + " = " + ("[" + ((("1" + ",") + (("2" + ",") + "2")) + "]")) + "; \n";
    var te := "let " + e + " = " + ("{" + ((x + ":" + "1") + "}")) + "; \n";
    assert Renders(ExprOut(p[0].e, {}, mx), ta, {});
    assert Renders(ExprOut(Lit(Str(s)), {}, mx), s, {});
    assert Renders(ExprOut(p[1].e, {}, mx), tb, {});
    assert Renders(ExprOut(p[2].e, {}, mx), tc, {});
    assert Renders(ExprOut(p[3].e, {}, mx), td, {});
    assert Renders(ExprOut(p[4].e, {}, mx), te, {});
    RunOf(p, [ta, tb, tc, td, te], [{}, {}, {}, {}, {}, {}], mx);
    JoinFive(ta, tb, tc, td, te);
  }

  lemma DeclSpelledOut()
    ensures DeclText("a", "b", "c", "d", "e", "x", "\"hello world\"") ==
            "let a = 1; \n" + "let b = \"hello world\"; \n" + "let c = true; \n" + "let d = [1,2,2]; \n" + "let e = {x:1}; \n"
  {
    assert "let " + "a" + " = " + "1" + "; \n" == "let a = 1; \n";
    assert "let " + "b" + " = " + "\"hello world\"" + "; \n" == "let b = \"hello world\"; \n";
    assert "let " + "c" + " = " + "true" + "; \n" == "let c = true; \n";
    assert "let " + "d" + " = " + ("[" + ((("1" + ",") + (("2" + ",") + "2")) + "]")) + "; \n" == "let d = [1,2,2]; \n";
    assert "let " + "e" + " = " + ("{" + (("x" + ":" + "1") + "}")) + "; \n" == "let e = {x:1}; \n";
  }

  method CompileDecl() returns (out: string)
    ensures out == Banner + "let a = 1; \n" + "let b = \"hello world\"; \n" + "let c = true; \n" + "let d = [1,2,2]; \n" + "let e = {x:1}; \n"
  {
    DeclProgramRenders("a", "b", "c", "d", "e", "x", "\"hello world\"", NoMacros);
    DeclSpelledOut();
    out := Run(DeclProgram("a", "b", "c", "d", "e", "x", "\"hello world\""));
  }

  // compile_mut_decl

  function MutDeclProgram(a: string): Program
  {
    [ExprStmt(Let(a, N(1))), ExprStmt(Assign(Ident(a), Infix(Op("+"), Ident(a), Infix(Op("/"), N(1), N(2)))))]
  }

  function MutDeclText(a: string): string
  {
    ("let " + a + " = " + "1" + "; \n") + ((a + " = " + (a + "+" + ("1" + "/" + "2")) + "; \n") + "")
  }

  lemma MutDeclRenders(a: string, mx: Expander)
    ensures ProgramOut(MutDeclProgram(a), {}, mx).text == MutDeclText(a)
  {
    SmallNumbers({}, mx);
    var p := MutDeclProgram(a);
    assert Renders(ExprOut(p[0].e, {}, mx), "let " + a + " = " + "1" + "; \n", {});
    assert Renders(ExprOut(Infix(Op("/"), N(1), N(2)), {}, mx), "1" + "/" + "2", {});
    assert Renders(ExprOut(Infix(Op("+"), Ident(a), Infix(Op("/"), N(1), N(2))), {}, mx),
                   a + "+" + ("1" + "/" + "2"), {});
    assert Renders(ExprOut(p[1].e, {}, mx), a + " = " + (a + "+" + ("1" + "/" + "2")) + "; \n", {});
    assert p[1..][1..] == [];
    assert ProgramOut(p[1..], {}, mx).text == (a + " = " + (a + "+" + ("1" + "/" + "2")) + "; \n") + "";
  }

  lemma MutDeclSpelledOut()
    ensures MutDeclText("a") == "let a = 1; \na = a+1/2; \n"
  {
  }

  method CompileMutDecl() returns (out: string)
    ensures out == Banner + "let a = 1; \na = a+1/2; \n"
  {
    MutDeclRenders("a", NoMacros);
    MutDeclSpelledOut();
    out := Run(MutDeclProgram("a"));
  }

  // compile_fn and compile_fn_return

  function FnText(f: string, x: string, y: string, body: string): string
  {
    "function " + f + "(" + (x + "," + y) + "){" + body + "}"
  }

  lemma FunctionsRender(f: string, x: string, y: string, mx: Expander)
    ensures Renders(ExprOut(Func(Some(f), [x, y], []), {}, mx), FnText(f, x, y, ""), {f})
    ensures Renders(ExprOut(Func(Some(f), [x, y], [Return(N(0))]), {}, mx),
                    FnText(f, x, y, "return " + "0" + ""), {f})
  {
    TwoParams(x, y);
    assert {} + {f} == {f};
    SmallNumbers({f}, mx);
    assert [Return(N(0))][1..] == [];
    assert Renders(BlockOut([Return(N(0))], {f}, mx), "return " + "0" + "", {f});
  }

  lemma FnSpelledOut()
    ensures FnText("add", "x", "y", "") == "function add(x,y){}"
    ensures FnText("add", "x", "y", "return " + "0" + "") == "function add(x,y){return 0}"
  {
  }

  method CompileFn() returns (out: string)
    ensures out == Banner + "function add(x,y){}"
  {
    FunctionsRender("add", "x", "y", NoMacros);
    Single(Func(Some("add"), ["x", "y"], []), FnText("add", "x", "y", ""), {"add"}, NoMacros);
    FnSpelledOut();
    out := Run([ExprStmt(Func(Some("add"), ["x", "y"], []))]);
  }

  method CompileFnReturn() returns (out: string)
    ensures out == Banner + "function add(x,y){return 0}"
  {
    FunctionsRender("add", "x", "y", NoMacros);
    Single(Func(Some("add"), ["x", "y"], [Return(N(0))]), FnText("add", "x", "y", "return " + "0" + ""), {"add"}, NoMacros);
    FnSpelledOut();
    out := Run([ExprStmt(Func(Some("add"), ["x", "y"], [Return(N(0))]))]);
  }

  // compile_call

  function CallProgram(f: string, x: string, y: string): Program
  {
    [ExprStmt(Func(Some(f), [x, y], [Return(Infix(Op("+"), Ident(x), Ident(y)))])),
     ExprStmt(Call(Ident(f), [N(1), N(2)]))]
  }

  function CallText(f: string, x: string, y: string): string
  {
    FnText(f, x, y, "return " + (x + "+" + y) + "") + ((f + "(") + ((("1" + ",") + "2") + ");"))
  }

  lemma CallProgramRenders(f: string, x: string, y: string, mx: Expander)
    ensures ProgramOut(CallProgram(f, x, y), {}, mx).text == CallText(f, x, y)
  {
    TwoParams(x, y);
    assert {} + {f} == {f};
    var p := CallProgram(f, x, y);
    var body := [Return(Infix(Op("+"), Ident(x), Ident(y)))];
    assert body[1..] == [];
    assert Renders(ExprOut(Infix(Op("+"), Ident(x), Ident(y)), {f}, mx), x + "+" + y, {f});
    assert Renders(BlockOut(body, {f}, mx), "return " + (x + "+" + y) + "", {f});
    assert Renders(ExprOut(p[0].e, {}, mx), FnText(f, x, y, "return " + (x + "+" + y) + ""), {f});
    SmallNumbers({f}, mx);
    assert [N(1), N(2)][1..] == [N(2)];
    assert Renders(ArgsOut([N(1), N(2)], {f}, mx), ("1" + ",") + "2", {f});
    assert Renders(ExprOut(p[1].e, {f}, mx), (f + "(") + ((("1" + ",") + "2") + ");"), {f});
    RunOf(p, [FnText(f, x, y, "return " + (x + "+" + y) + ""), (f + "(") + ((("1" + ",") + "2") + ");")],
          [{}, {f}, {f}], mx);
    JoinTwo(FnText(f, x, y, "return " + (x + "+" + y) + ""), (f + "(") + ((("1" + ",") + "2") + ");"));
  }

  lemma CallSpelledOut()
    ensures CallText("add", "x", "y") == "function add(x,y){return x+y}add(1,2);"
  {
  }

  method CompileCall() returns (out: string)
    ensures out == Banner + "function add(x,y){return x+y}add(1,2);"
  {
    CallProgramRenders("add", "x", "y", NoMacros);
    CallSpelledOut();
    out := Run(CallProgram("add", "x", "y"));
  }

  // compile_while and compile_if

  function PrintOne(p: string): seq<Stmt>
  {
    [ExprStmt(Call(Ident(p), [N(1)]))]
  }

  function LoopProgram(p: string): Program
  {
    [ExprStmt(Func(Some(p), [], [])), ExprStmt(While(Lit(Bool(true)), PrintOne(p)))]
  }

  function BranchProgram(p: string): Program
  {
    [ExprStmt(Func(Some(p), [], [])), ExprStmt(If(Lit(Bool(true)), PrintOne(p), NoElse))]
  }

  function PrintText(p: string): string
  {
    (p + "(") + ("1" + ");") + ""
  }

  lemma PrintOneRenders(p: string, mx: Expander)
    ensures Renders(BlockOut(PrintOne(p), {p}, mx), PrintText(p), {p})
  {
    SmallNumbers({p}, mx);
    assert Renders(ArgsOut([N(1)], {p}, mx), "1", {p});
    assert Renders(ExprOut(Call(Ident(p), [N(1)]), {p}, mx), (p + "(") + ("1" + ");"), {p});
    assert PrintOne(p)[1..] == [];
  }

  lemma LoopRenders(p: string, mx: Expander)
    ensures ProgramOut(LoopProgram(p), {}, mx).text ==
            ("function " + p + "(){}") + ("while(" + "true" + "){" + PrintText(p) + "}")
  {
    DefineRenders(p, {}, mx);
    assert {} + {p} == {p};
    PrintOneRenders(p, mx);
    var w := "while(" + "true" + "){" + PrintText(p) + "}";
    assert Renders(ExprOut(LoopProgram(p)[1].e, {p}, mx), w, {p});
    RunOf(LoopProgram(p), ["function " + p + "(){}", w], [{}, {p}, {p}], mx);
    JoinTwo("function " + p + "(){}", w);
  }

  lemma BranchRenders(p: string, mx: Expander)
    ensures ProgramOut(BranchProgram(p), {}, mx).text ==
            ("function " + p + "(){}") + ("if(" + "true" + "){" + PrintText(p) + "}")
  {
    DefineRenders(p, {}, mx);
    assert {} + {p} == {p};
    PrintOneRenders(p, mx);
    var i := "if(" + "true" + "){" + PrintText(p) + "}";
    assert Renders(ExprOut(BranchProgram(p)[1].e, {p}, mx), i, {p});
    RunOf(BranchProgram(p), ["function " + p + "(){}", i], [{}, {p}, {p}], mx);
    JoinTwo("function " + p + "(){}", i);
  }

  lemma LoopSpelledOut()
    ensures ("function " + "print" + "(){}") + ("while(" + "true" + "){" + PrintText("print") + "}") ==
            "function print(){}" + "while(true){print(1);}"
  {
    assert PrintText("print") == "print(1);";
    assert "while(" + "true" + "){" + "print(1);" + "}" == "while(true){print(1);}";
  }

  lemma BranchSpelledOut()
    ensures ("function " + "print" + "(){}") + ("if(" + "true" + "){" + PrintText("print") + "}") ==
            "function print(){}" + "if(true){print(1);}"
  {
    assert PrintText("print") == "print(1);";
    assert "if(" + "true" + "){" + "print(1);" + "}" == "if(true){print(1);}";
  }

  method CompileWhile() returns (out: string)
    ensures out == Banner + "function print(){}" + "while(true){print(1);}"
  {
    LoopRenders("print", NoMacros);
    LoopSpelledOut();
    out := Run(LoopProgram("print"));
  }

  method CompileIf() returns (out: string)
    ensures out == Banner + "function print(){}" + "if(true){print(1);}"
  {
    BranchRenders("print", NoMacros);
    BranchSpelledOut();
    out := Run(BranchProgram("print"));
  }

  // compile_if_else, compile_prefix_expr, compile_infix_expr, compile_index_expr

  lemma SmallExprsRender(x: string, mx: Expander)
    ensures Renders(ExprOut(If(Ident(x), [], Else([])), {}, mx), "if(" + x + "){" + "" + "}" + "else{" + "" + "}", {})
    ensures Renders(ExprOut(Prefix(Op("!"), Ident(x)), {}, mx), "!" + x, {})
    ensures Renders(ExprOut(Infix(Op("-"), Infix(Op("+"), Ident(x), N(2)), N(1)), {}, mx), x + "+" + "2" + "-" + "1", {})
    ensures Renders(ExprOut(Index(Ident(x), N(1)), {}, mx), x + "[" + "1" + "]", {})
  {
    SmallNumbers({}, mx);
    assert Renders(ExprOut(Infix(Op("+"), Ident(x), N(2)), {}, mx), x + "+" + "2", {});
  }

  lemma SmallExprsSpelledOut()
    ensures "if(" + "x" + "){" + "" + "}" + "else{" + "" + "}" == "if(x){}else{}"
    ensures "!" + "x" == "!x"
    ensures "x" + "+" + "2" + "-" + "1" == "x+2-1"
    ensures "x" + "[" + "1" + "]" == "x[1]"
  {
  }

  method CompileIfElse() returns (out: string)
    ensures out == Banner + "if(x){}else{}"
  {
    SmallExprsRender("x", NoMacros);
    SmallExprsSpelledOut();
    Single(If(Ident("x"), [], Else([])), "if(" + "x" + "){" + "" + "}" + "else{" + "" + "}", {}, NoMacros);
    out := Run([ExprStmt(If(Ident("x"), [], Else([])))]);
  }

  method CompilePrefixExpr() returns (out: string)
    ensures out == Banner + "!x"
  {
    SmallExprsRender("x", NoMacros);
    SmallExprsSpelledOut();
    Single(Prefix(Op("!"), Ident("x")), "!" + "x", {}, NoMacros);
    out := Run([ExprStmt(Prefix(Op("!"), Ident("x")))]);
  }

  method CompileInfixExpr() returns (out: string)
    ensures out == Banner + "x+2-1"
  {
    var e := Infix(Op("-"), Infix(Op("+"), Ident("x"), N(2)), N(1));
    SmallExprsRender("x", NoMacros);
    SmallExprsSpelledOut();
    Single(e, "x" + "+" + "2" + "-" + "1", {}, NoMacros);
    out := Run([ExprStmt(e)]);
  }

  method CompileIndexExpr() returns (out: string)
    ensures out == Banner + "x[1]"
  {
    SmallExprsRender("x", NoMacros);
    SmallExprsSpelledOut();
    Single(Index(Ident("x"), N(1)), "x" + "[" + "1" + "]", {}, NoMacros);
    out := Run([ExprStmt(Index(Ident("x"), N(1)))]);
  }

  // Further worked cases.

  /** The two array quirks: a failed last element keeps the comma before
      it, and a failed element elsewhere is skipped with its comma. */
  lemma ArraysWithFailedElement(f: string, mx: Expander)
    ensures Renders(ExprOut(Lit(Array([N(1), Call(Ident(f), [])])), {}, mx), "[" + ((("1" + ",") + "") + "]"), {})
    ensures Renders(ExprOut(Lit(Array([Call(Ident(f), []), N(1)])), {}, mx), "[" + ("1" + "]"), {})
  {
    SmallNumbers({}, mx);
    assert ExprOut(Call(Ident(f), []), {}, mx) == Outcome(None, {});
    assert [N(1), Call(Ident(f), [])][1..] == [Call(Ident(f), [])];
    assert [Call(Ident(f), [])][1..] == [];
    assert Renders(ArrayOut([Call(Ident(f), [])], {}, mx), "", {});
    assert Renders(ArrayOut([N(1), Call(Ident(f), [])], {}, mx), ("1" + ",") + "", {});
    assert [Call(Ident(f), []), N(1)][1..] == [N(1)];
    assert Renders(ArrayOut([Call(Ident(f), []), N(1)], {}, mx), "1", {});
  }

  lemma ArraysSpelledOut()
    ensures "[" + ((("1" + ",") + "") + "]") == "[1,]"
    ensures "[" + ("1" + "]") == "[1]"
  {
  }

  method ArrayKeepsCommaBeforeFailedLast() returns (out: string)
    ensures out == Banner + "[1,]"
  {
    var e := Lit(Array([N(1), Call(Ident("f"), [])]));
    ArraysWithFailedElement("f", NoMacros);
    ArraysSpelledOut();
    Single(e, "[" + ((("1" + ",") + "") + "]"), {}, NoMacros);
    out := Run([ExprStmt(e)]);
  }

  method ArraySkipsFailedElement() returns (out: string)
    ensures out == Banner + "[1]"
  {
    var e := Lit(Array([Call(Ident("f"), []), N(1)]));
    ArraysWithFailedElement("f", NoMacros);
    ArraysSpelledOut();
    Single(e, "[" + ("1" + "]"), {}, NoMacros);
    out := Run([ExprStmt(e)]);
  }

  /** Map entries follow the same comma rule as array elements: for any
      undeclared name f, `{x:1, x:f()}` keeps the comma before the skipped
      last entry, and `{x:f(), x:1}` drops the skipped first one. */
  lemma MapsWithFailedValue(x: string, f: string, mx: Expander)
    ensures Renders(ExprOut(Lit(Hash([Entry(Ident(x), N(1)), Entry(Ident(x), Call(Ident(f), []))])), {}, mx),
                    "{" + (((x + ":" + "1") + ",") + "") + "}", {})
    ensures Renders(ExprOut(Lit(Hash([Entry(Ident(x), Call(Ident(f), [])), Entry(Ident(x), N(1))])), {}, mx),
                    "{" + (x + ":" + "1") + "}", {})
  {
    SmallNumbers({}, mx);
    var one, bad := Entry(Ident(x), N(1)), Entry(Ident(x), Call(Ident(f), []));
    assert ExprOut(Call(Ident(f), []), {}, mx) == Outcome(None, {});
    assert [bad][1..] == [];
    assert Renders(HashOut([bad], {}, mx), "", {});
    assert [one, bad][1..] == [bad];
    assert Renders(HashOut([one, bad], {}, mx), ((x + ":" + "1") + ",") + "", {});
    assert [bad, one][1..] == [one];
    assert Renders(HashOut([one], {}, mx), x + ":" + "1", {});
    assert Renders(HashOut([bad, one], {}, mx), x + ":" + "1", {});
  }

  lemma MapsSpelledOut()
    ensures "{" + ((("x" + ":" + "1") + ",") + "") + "}" == "{x:1,}"
    ensures "{" + ("x" + ":" + "1") + "}" == "{x:1}"
  {
  }

  method MapKeepsCommaBeforeFailedLast() returns (out: string)
    ensures out == Banner + "{x:1,}"
  {
    var e := Lit(Hash([Entry(Ident("x"), N(1)), Entry(Ident("x"), Call(Ident("f"), []))]));
    MapsWithFailedValue("x", "f", NoMacros);
    MapsSpelledOut();
    Single(e, "{" + ((("x" + ":" + "1") + ",") + "") + "}", {}, NoMacros);
    out := Run([ExprStmt(e)]);
  }

  /** A map entry whose key calls the function its value declares. */
  function KeyCallsValue(k: string): Expr
  {
    Lit(Hash([Entry(Call(Ident(k), []), Func(Some(k), [], []))]))
  }

  /** An assignment whose target calls the function its value declares. */
  function TargetCallsValue(g: string): Expr
  {
    Assign(Call(Ident(g), []), Func(Some(g), [], []))
  }

  /** The value is rendered before the key, so the key's call passes. */
  lemma KeyCallsValueRenders(k: string, mx: Expander)
    ensures Renders(ExprOut(KeyCallsValue(k), {}, mx), "{" + ((k + "();" + ":" + ("function " + k + "(){}")) + "}"), {k})
  {
    DefineRenders(k, {}, mx);
    assert {} + {k} == {k};
    CallRenders(k, {k}, mx);
    var entry := Entry(Call(Ident(k), []), Func(Some(k), [], []));
    assert Renders(HashOut([entry], {}, mx), k + "();" + ":" + ("function " + k + "(){}"), {k});
  }

  /** The value is rendered before the target, so the target's call passes. */
  lemma TargetCallsValueRenders(g: string, mx: Expander)
    ensures Renders(ExprOut(TargetCallsValue(g), {}, mx), g + "();" + " = " + ("function " + g + "(){}") + "; \n", {g})
  {
    DefineRenders(g, {}, mx);
    assert {} + {g} == {g};
    CallRenders(g, {g}, mx);
  }

  lemma KeyOrderSpelledOut()
    ensures "{" + (("k" + "();" + ":" + ("function " + "k" + "(){}")) + "}") == "{k();:function k(){}}"
  {
  }

  lemma TargetOrderSpelledOut()
    ensures "g" + "();" + " = " + ("function " + "g" + "(){}") + "; \n" == "g(); = function g(){}; \n"
  {
  }

  method MapValueBeforeKey() returns (out: string)
    ensures out == Banner + "{k();:function k(){}}"
  {
    KeyCallsValueRenders("k", NoMacros);
    KeyOrderSpelledOut();
    Single(KeyCallsValue("k"), "{" + (("k" + "();" + ":" + ("function " + "k" + "(){}")) + "}"), {"k"}, NoMacros);
    out := Run([ExprStmt(KeyCallsValue("k"))]);
  }

  method AssignValueBeforeTarget() returns (out: string)
    ensures out == Banner + "g(); = function g(){}; \n"
  {
    TargetCallsValueRenders("g", NoMacros);
    TargetOrderSpelledOut();
    Single(TargetCallsValue("g"), "g" + "();" + " = " + ("function " + "g" + "(){}") + "; \n", {"g"}, NoMacros);
    out := Run([ExprStmt(TargetCallsValue("g"))]);
  }

  /** A call of `f`, then the definition of `f`. */
  function CallThenDefine(f: string): Program
  {
    [ExprStmt(Call(Ident(f), [])), ExprStmt(Func(Some(f), [], []))]
  }

  /** From an empty scope the call is dropped. */
  lemma CallThenDefineFresh(f: string, mx: Expander)
    ensures ProgramOut(CallThenDefine(f), {}, mx) == Listing("" + ("function " + f + "(){}"), {f})
  {
    DefineRenders(f, {}, mx);
    assert {} + {f} == {f};
    RunOf(CallThenDefine(f), ["", "function " + f + "(){}"], [{}, {}, {f}], mx);
    JoinTwo("", "function " + f + "(){}");
  }

  /** Once `f` is in scope, the call comes through. */
  lemma CallThenDefineAgain(f: string, mx: Expander)
    ensures ProgramOut(CallThenDefine(f), {f}, mx) == Listing(f + "();" + ("function " + f + "(){}"), {f})
  {
    CallRenders(f, {f}, mx);
    DefineRenders(f, {f}, mx);
    assert {f} + {f} == {f};
    RunOf(CallThenDefine(f), [f + "();", "function " + f + "(){}"], [{f}, {f}, {f}], mx);
    JoinTwo(f + "();", "function " + f + "(){}");
  }

  lemma CallThenDefineSpelledOut()
    ensures "" + ("function " + "f" + "(){}") == "function f(){}"
    ensures "f" + "();" + ("function " + "f" + "(){}") == "f();function f(){}"
  {
  }

  /** A call placed before the definition it names is dropped. */
  method CallBeforeDefinitionDropped() returns (out: string)
    ensures out == Banner + "function f(){}"
  {
    CallThenDefineFresh("f", NoMacros);
    CallThenDefineSpelledOut();
    out := Run(CallThenDefine("f"));
  }

  /** Compiling the same generator twice: names registered by the first
      run are still in scope during the second. */
  method ReusedInstanceSeesEarlierNames() returns (first: string, second: string)
    ensures first == Banner + "function f(){}"
    ensures second == Banner + "f();function f(){}"
  {
    CallThenDefineFresh("f", NoMacros);
    CallThenDefineAgain("f", NoMacros);
    CallThenDefineSpelledOut();
    var c := new Compiler(CallThenDefine("f"), NoMacros);
    first := c.Compile();
    second := c.Compile();
  }

  /** A top-level Blank emits one newline and ends the program. */
  lemma BlankEnds(x: string, y: string, mx: Expander)
    ensures ProgramOut([ExprStmt(Ident(x)), Blank, ExprStmt(Ident(y))], {}, mx).text == x + "\n"
  {
    assert [ExprStmt(Ident(x)), Blank, ExprStmt(Ident(y))][1..] == [Blank, ExprStmt(Ident(y))];
  }

  method BlankEndsProgram() returns (out: string)
    ensures out == Banner + "x\n"
  {
    BlankEnds("x", "y", NoMacros);
    assert "x" + "\n" == "x\n";
    out := Run([ExprStmt(Ident("x")), Blank, ExprStmt(Ident("y"))]);
  }

  /** A top-level return statement is skipped. */
  lemma ReturnSkipped(x: string, y: string, mx: Expander)
    ensures ProgramOut([Return(Ident(x)), ExprStmt(Ident(y))], {}, mx).text == y
  {
    assert [Return(Ident(x)), ExprStmt(Ident(y))][1..] == [ExprStmt(Ident(y))];
    Single(Ident(y), y, {}, mx);
  }

  method TopLevelReturnSkipped() returns (out: string)
    ensures out == Banner + "y"
  {
    ReturnSkipped("x", "y", NoMacros);
    out := Run([Return(Ident("x")), ExprStmt(Ident("y"))]);
  }
}
