/** The code generator as the program has it: an object holding the syntax
    tree, the macro collaborator and the scope table, whose methods build
    their output step by step and register function names in place.
    Each method is proved to produce what the corresponding function of
    module Render describes. */
module Codegen {
  import opened Ast
  import opened Text
  import opened Render

  class Compiler {
    const ast: Program
    const macros: Expander
    var scope: Scope

    /** A new generator starts with an empty scope table. */
    constructor (ast: Program, macros: Expander)
      ensures this.ast == ast && this.macros == macros
      ensures scope == {}
    {
      this.ast := ast;
      this.macros := macros;
      scope := {};
    }

    /** Renders the whole program behind the banner line. */
    method Compile() returns (source: string)
      modifies this
      ensures source == Banner + ProgramOut(ast, old(scope), macros).text
      ensures scope == ProgramOut(ast, old(scope), macros).scope
    {
      ghost var whole := ProgramOut(ast, scope, macros);
      source := Banner;
      var i := 0;
      while i < |ast|
        invariant 0 <= i <= |ast|
        invariant source + ProgramOut(ast[i..], scope, macros).text == Banner + whole.text
        invariant ProgramOut(ast[i..], scope, macros).scope == whole.scope
      {
        var stmt := ast[i];
        assert ast[i..][0] == stmt && ast[i..][1..] == ast[i + 1..];
        if stmt.Blank? {
          source := source + "\n";
          break;
        }
        var block: Option<string> := None;
        if stmt.ExprStmt? {
          block := CompileExpr(stmt.e);
        }
        if block.Some? {
          source := source + block.value;
        }
        i := i + 1;
      }
    }

    /** Renders a function or control-flow body. */
    method CompileBlock(b: seq<Stmt>) returns (r: Option<string>)
      modifies this
      decreases StmtsSize(b)
      ensures Outcome(r, scope) == BlockOut(b, old(scope), macros)
    {
      ghost var whole := BlockOut(b, scope, macros);
      var source := "";
      var i := 0;
      assert b[i..] == b;
      PrependNothing(whole);
      while i < |b|
        invariant 0 <= i <= |b|
        invariant Prepend(source, BlockOut(b[i..], scope, macros)) == whole
      {
        var stmt := b[i];
        assert b[i..][0] == stmt && b[i..][1..] == b[i + 1..];
        ghost var before, s0 := source, scope;
        if stmt.Blank? {
          source := source + "\n";
          assert whole == Outcome(Some(source), scope);
          break;
        }
        StmtsSizeAt(b, i);
        var block: string;
        match stmt {
          case ExprStmt(e) =>
            var x := CompileExpr(e);
            if x.None? { return None; }
            block := x.value;
            PrependTwice(before, block, BlockOut(b[i + 1..], scope, macros));
          case Return(e) =>
            source := source + "return ";
            var x := CompileExpr(e);
            if x.None? { return None; }
            block := x.value;
            PrependTwice(before, "return " + block, BlockOut(b[i + 1..], scope, macros));
            assert before + ("return " + block) == source + block;
          case Other =>
            return None;
        }
        source := source + block;
        i := i + 1;
      }
      if i == |b| {
        assert source + "" == source;
      }
      r := Some(source);
    }

    /** Renders one expression, consulting the scope table at calls and
        extending it at named function literals. */
    method CompileExpr(e: Expr) returns (r: Option<string>)
      modifies this
      decreases ExprSize(e), 1
      ensures Outcome(r, scope) == ExprOut(e, old(scope), macros)
    {
      var source := "";
      match e {
        case Let(name, v) =>
          var value := CompileExpr(v);
          if value.None? { return None; }
          source := "let " + name + " = " + value.value + "; \n";
          assert ExprOut(e, old(scope), macros) == Outcome(Some(source), scope);
        case Assign(target, v) =>
          var value := CompileExpr(v);
          if value.None? { return None; }
          var name := CompileExpr(target);
          if name.None? { return None; }
          source := name.value + " = " + value.value + "; \n";
          assert ExprOut(e, old(scope), macros) == Outcome(Some(source), scope);
        case Prefix(op, x) =>
          var value := CompileExpr(x);
          if value.None? { return None; }
          source := op.text + value.value;
          assert ExprOut(e, old(scope), macros) == Outcome(Some(source), scope);
        case Infix(op, a, b) =>
          var e1 := CompileExpr(a);
          if e1.None? { return None; }
          var e2 := CompileExpr(b);
          if e2.None? { return None; }
          source := e1.value + op.text + e2.value;
          assert ExprOut(e, old(scope), macros) == Outcome(Some(source), scope);
        case Index(a, k) =>
          var e1 := CompileExpr(a);
          if e1.None? { return None; }
          var e2 := CompileExpr(k);
          if e2.None? { return None; }
          source := e1.value + "[" + e2.value + "]";
          assert ExprOut(e, old(scope), macros) == Outcome(Some(source), scope);
        case Accessor(a, segments) =>
          var e1 := CompileExpr(a);
          if e1.None? { return None; }
          source := e1.value + "." + segments[0];
          assert ExprOut(e, old(scope), macros) == Outcome(Some(source), scope);
        case Lit(l) =>
          var text := CompileLiteral(l);
          if text.None? { return None; }
          source := text.value;
          assert ExprOut(e, old(scope), macros) == Outcome(Some(source), scope);
        case Ident(name) =>
          source := name;
          assert ExprOut(e, old(scope), macros) == Outcome(Some(source), scope);
        case Func(name, params, body) =>
          if name.Some? {
            r := CompileFunction(name.value, params, body);
            return;
          }
          assert ExprOut(e, old(scope), macros) == Outcome(Some(source), scope);
        case Call(f, args) =>
          r := CompileCall(f, args);
          return;
        case Macro(n, args) =>
          var callee := CompileExpr(n);
          if callee.None? { return None; }
          var expansion := macros(callee.value, args);
          if expansion.None? { return None; }
          source := expansion.value;
          assert ExprOut(e, old(scope), macros) == Outcome(Some(source), scope);
        case Regexp(p, flags) =>
          source := "/";
          var pattern := CompileExpr(p);
          if pattern.None? { return None; }
          source := source + pattern.value + "/";
          if flags.Some? {
            source := source + flags.value;
          } else {
            assert source + "" == source;
          }
          assert ExprOut(e, old(scope), macros) == Outcome(Some(source), scope);
        case While(c, body) =>
          var cnd := CompileExpr(c);
          if cnd.None? { return None; }
          var consq := CompileBlock(body);
          if consq.None? { return None; }
          source := "while(" + cnd.value + "){" + consq.value + "}";
          assert ExprOut(e, old(scope), macros) == Outcome(Some(source), scope);
        case If(c, cons, alt) =>
          var cnd := CompileExpr(c);
          if cnd.None? { return None; }
          var consq := CompileBlock(cons);
          if consq.None? { return None; }
          source := "if(" + cnd.value + "){" + consq.value + "}";
          if alt.Else? {
            assert ElseSize(alt) == 1 + StmtsSize(alt.block);
            var other := CompileBlock(alt.block);
            if other.None? { return None; }
            source := source + "else{" + other.value + "}";
          }
          assert ExprOut(e, old(scope), macros) == Outcome(Some(source), scope);
      }
      r := Some(source);
    }

    /** A named function literal: the name is registered first, then the
        parameters are listed and the body rendered. */
    method CompileFunction(ident: string, params: seq<string>, body: seq<Stmt>) returns (r: Option<string>)
      modifies this
      decreases ExprSize(Func(Some(ident), params, body)), 0
      ensures Outcome(r, scope) == ExprOut(Func(Some(ident), params, body), old(scope), macros)
    {
      var source := "function " + ident + "(";
      scope := scope + {ident};
      ghost var head := source;
      var i := 0;
      while i < |params|
        invariant 0 <= i <= |params|
        invariant source + Join(params[i..], ",") == head + Join(params, ",")
        invariant scope == old(scope) + {ident}
      {
        assert params[i..][0] == params[i] && params[i..][1..] == params[i + 1..];
        source := source + params[i];
        if i == |params| - 1 {
          break;
        }
        source := source + ",";
        i := i + 1;
      }
      if i == |params| {
        assert source + "" == source;
      }
      assert source == head + Join(params, ",");
      source := source + "){";
      var block := CompileBlock(body);
      if block.None? { return None; }
      source := source + block.value + "}";
      assert source == "function " + ident + "(" + Join(params, ",") + "){" + block.value + "}";
      r := Some(source);
    }

    /** A call: the callee must be a registered name; the arguments are
        rendered in order and any failure fails the call. */
    method CompileCall(f: Expr, args: seq<Expr>) returns (r: Option<string>)
      modifies this
      decreases ExprSize(Call(f, args)), 0
      ensures Outcome(r, scope) == ExprOut(Call(f, args), old(scope), macros)
    {
      var callee := CompileExpr(f);
      if callee.None? { return None; }
      if callee.value !in scope { return None; }
      var source := callee.value + "(";
      ghost var head, s1 := source, scope;
      var i := 0;
      assert args[i..] == args;
      while i < |args|
        invariant 0 <= i <= |args|
        invariant Prepend(source, ArgsOut(args[i..], scope, macros)) == Prepend(head, ArgsOut(args, s1, macros))
      {
        assert args[i..][0] == args[i] && args[i..][1..] == args[i + 1..];
        ghost var before := source;
        ExprsSizeAt(args, i);
        var arg := CompileExpr(args[i]);
        if arg.None? { return None; }
        source := source + arg.value;
        if i == |args| - 1 {
          assert Prepend(head, ArgsOut(args, s1, macros)) == Outcome(Some(source), scope);
          break;
        }
        source := source + ",";
        PrependTwice(before, arg.value + ",", ArgsOut(args[i + 1..], scope, macros));
        assert before + (arg.value + ",") == source;
        i := i + 1;
      }
      if i == |args| {
        assert source + "" == source;
      }
      assert Prepend(head, ArgsOut(args, s1, macros)) == Outcome(Some(source), scope);
      source := source + ");";
      PrependAppend(head, ArgsOut(args, s1, macros), ");");
      r := Some(source);
    }

    /** Renders a literal; array entries that fail are skipped, a map key
        that fails fails the literal. */
    method CompileLiteral(l: Literal) returns (r: Option<string>)
      modifies this
      decreases LitSize(l), 1
      ensures Outcome(r, scope) == LiteralOut(l, old(scope), macros)
    {
      match l {
        case Num(n) =>
          r := Some(NumberText(n));
        case Str(s) =>
          r := Some(s);
        case Bool(b) =>
          r := Some(if b then "true" else "false");
        case Array(es) =>
          r := CompileArray(es);
        case Hash(en) =>
          r := CompileHash(en);
      }
    }

    /** An array literal: an element that fails is skipped, and no comma
        follows the element at the last index. */
    method CompileArray(es: seq<Expr>) returns (r: Option<string>)
      modifies this
      decreases LitSize(Array(es)), 0
      ensures Outcome(r, scope) == LiteralOut(Array(es), old(scope), macros)
    {
      ghost var whole := ArrayOut(es, scope, macros);
      var arr := "[";
      var i := 0;
      assert es[i..] == es;
      while i < |es|
        invariant 0 <= i <= |es|
        invariant Prepend(arr, ArrayOut(es[i..], scope, macros)) == Prepend("[", whole)
      {
        assert es[i..][0] == es[i] && es[i..][1..] == es[i + 1..];
        ghost var before := arr;
        ExprsSizeAt(es, i);
        var x := CompileExpr(es[i]);
        if x.Some? {
          arr := arr + x.value;
          if i == |es| - 1 {
            assert Prepend("[", whole) == Outcome(Some(arr), scope);
            PrependAppend("[", whole, "]");
            break;
          }
          arr := arr + ",";
          PrependTwice(before, x.value + ",", ArrayOut(es[i + 1..], scope, macros));
          assert before + (x.value + ",") == arr;
        }
        i := i + 1;
      }
      if i == |es| {
        assert arr + "" == arr;
      }
      assert Prepend("[", whole) == Outcome(Some(arr), scope);
      PrependAppend("[", whole, "]");
      arr := arr + "]";
      r := Some(arr);
    }

    /** A map literal: each value is rendered before its key; an entry whose
        value fails is skipped, a key that fails fails the literal. */
    method CompileHash(en: seq<Entry>) returns (r: Option<string>)
      modifies this
      decreases LitSize(Hash(en)), 0
      ensures Outcome(r, scope) == LiteralOut(Hash(en), old(scope), macros)
    {
      ghost var whole := HashOut(en, scope, macros);
      var obj := "{";
      var i := 0;
      assert en[i..] == en;
      while i < |en|
        invariant 0 <= i <= |en|
        invariant Prepend(obj, HashOut(en[i..], scope, macros)) == Prepend("{", whole)
      {
        assert en[i..][0] == en[i] && en[i..][1..] == en[i + 1..];
        ghost var before := obj;
        EntriesSizeAt(en, i);
        var v := CompileExpr(en[i].value);
        if v.Some? {
          var k := CompileExpr(en[i].key);
          if k.None? {
            assert Prepend("{", whole) == Outcome(None, scope);
            return None;
          }
          obj := obj + k.value + ":" + v.value;
          assert obj == before + (k.value + ":" + v.value);
          if i == |en| - 1 {
            assert |en[i..]| == 1;
            assert Prepend("{", whole) == Outcome(Some(obj), scope);
            PrependAppend("{", whole, "}");
            break;
          }
          obj := obj + ",";
          PrependTwice(before, k.value + ":" + v.value + ",", HashOut(en[i + 1..], scope, macros));
          assert before + (k.value + ":" + v.value + ",") == obj;
        }
        i := i + 1;
      }
      if i == |en| {
        assert obj + "" == obj;
      }
      assert Prepend("{", whole) == Outcome(Some(obj), scope);
      PrependAppend("{", whole, "}");
      obj := obj + "}";
      r := Some(obj);
    }
  }

  /** Two freshly constructed generators given the same tree produce the
      same text, and that text is CompileProgram's. */
  method CompileWithFreshInstances(ast: Program, macros: Expander) returns (first: string, second: string)
    ensures first == second
    ensures first == CompileProgram(ast, macros)
  {
    var c1 := new Compiler(ast, macros);
    first := c1.Compile();
    var c2 := new Compiler(ast, macros);
    second := c2.Compile();
  }
}
