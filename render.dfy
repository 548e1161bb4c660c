/** What the code generator produces, as functions of the syntax tree and
    of the scope table at the moment a node is reached.

    Every renderer returns an Outcome: the text, or None when the node
    cannot be rendered, together with the scope table after the node has
    been visited. The scope is returned on failure too, because a named
    function literal stays registered even when its body fails. */
module Render {
  import opened Ast
  import opened Text

  /** The declared function names, in the order-insensitive form the
      generator keeps them. */
  type Scope = set<string>

  datatype Outcome = Outcome(text: Option<string>, scope: Scope)

  /** The output of the top-level driver, which cannot fail. */
  datatype Listing = Listing(text: string, scope: Scope)

  const Banner: string := "// Generated by uwu compiler v0.0\n"

  /** Puts `p` in front of a successful text; failure stays failure. */
  function Prepend(p: string, o: Outcome): Outcome
  {
    if o.text.Some? then Outcome(Some(p + o.text.value), o.scope) else o
  }

  /** Puts `q` after a successful text; failure stays failure. */
  function Append(o: Outcome, q: string): Outcome
  {
    if o.text.Some? then Outcome(Some(o.text.value + q), o.scope) else o
  }

  lemma PrependNothing(o: Outcome)
    ensures Prepend("", o) == o
  {
    if o.text.Some? {
      assert "" + o.text.value == o.text.value;
    }
  }

  lemma PrependTwice(a: string, b: string, o: Outcome)
    ensures Prepend(a, Prepend(b, o)) == Prepend(a + b, o)
  {
    if o.text.Some? {
      assert a + (b + o.text.value) == (a + b) + o.text.value;
    }
  }

  lemma PrependAppend(p: string, o: Outcome, q: string)
    ensures Prepend(p, Append(o, q)) == Append(Prepend(p, o), q)
  {
    if o.text.Some? {
      assert p + (o.text.value + q) == (p + o.text.value) + q;
    }
  }

  function NumberText(n: Number): (s: string)
    ensures n.Int? ==> CanonicalInt(s) && IntValue(s) == n.i
    ensures n.Float? ==> s == n.display
  {
    match n
    case Int(i) => IntText(i)
    case Float(d) => d
  }

  function ExprOut(e: Expr, sc: Scope, mx: Expander): (o: Outcome)
    decreases ExprSize(e)
  {
    match e
    case Let(name, v) =>
      var ov := ExprOut(v, sc, mx);
      if ov.text.None? then ov
      else Outcome(Some("let " + name + " = " + ov.text.value + "; \n"), ov.scope)
    case Assign(target, v) =>
      // The value is rendered before the target.
      var ov := ExprOut(v, sc, mx);
      if ov.text.None? then ov
      else
        var ot := ExprOut(target, ov.scope, mx);
        if ot.text.None? then ot
        else Outcome(Some(ot.text.value + " = " + ov.text.value + "; \n"), ot.scope)
    case Prefix(op, x) =>
      var ox := ExprOut(x, sc, mx);
      if ox.text.None? then ox
      else Outcome(Some(op.text + ox.text.value), ox.scope)
    case Infix(op, a, b) =>
      var oa := ExprOut(a, sc, mx);
      if oa.text.None? then oa
      else
        var ob := ExprOut(b, oa.scope, mx);
        if ob.text.None? then ob
        else Outcome(Some(oa.text.value + op.text + ob.text.value), ob.scope)
    case Index(a, k) =>
      var oa := ExprOut(a, sc, mx);
      if oa.text.None? then oa
      else
        var ok := ExprOut(k, oa.scope, mx);
        if ok.text.None? then ok
        else Outcome(Some(oa.text.value + "[" + ok.text.value + "]"), ok.scope)
    case Accessor(a, segments) =>
      var oa := ExprOut(a, sc, mx);
      if oa.text.None? then oa
      else Outcome(Some(oa.text.value + "." + segments[0]), oa.scope)
    case Lit(l) => LiteralOut(l, sc, mx)
    case Ident(name) => Outcome(Some(name), sc)
    case Func(name, params, body) =>
      if name.None? then Outcome(Some(""), sc)
      else
        // The name is registered before the body is rendered.
        var ob := BlockOut(body, sc + {name.value}, mx);
        if ob.text.None? then ob
        else
          Outcome(Some("function " + name.value + "(" + Join(params, ",") + "){" + ob.text.value + "}"),
                  ob.scope)
    case Call(f, args) =>
      var of := ExprOut(f, sc, mx);
      if of.text.None? then of
      else if of.text.value !in of.scope then Outcome(None, of.scope)
      else Prepend(of.text.value + "(", Append(ArgsOut(args, of.scope, mx), ");"))
    case Macro(n, args) =>
      var on := ExprOut(n, sc, mx);
      if on.text.None? then on
      else Outcome(mx(on.text.value, args), on.scope)
    case Regexp(p, flags) =>
      var op := ExprOut(p, sc, mx);
      if op.text.None? then op
      else Outcome(Some("/" + op.text.value + "/" + (if flags.Some? then flags.value else "")), op.scope)
    case While(c, body) =>
      var oc := ExprOut(c, sc, mx);
      if oc.text.None? then oc
      else
        var ob := BlockOut(body, oc.scope, mx);
        if ob.text.None? then ob
        else Outcome(Some("while(" + oc.text.value + "){" + ob.text.value + "}"), ob.scope)
    case If(c, cons, alt) =>
      var oc := ExprOut(c, sc, mx);
      if oc.text.None? then oc
      else
        var ob := BlockOut(cons, oc.scope, mx);
        if ob.text.None? then ob
        else
          var head := "if(" + oc.text.value + "){" + ob.text.value + "}";
          match alt
          case NoElse => Outcome(Some(head), ob.scope)
          case Else(a) =>
            assert ElseSize(alt) == 1 + StmtsSize(a);
            var oa := BlockOut(a, ob.scope, mx);
            if oa.text.None? then oa
            else Outcome(Some(head + "else{" + oa.text.value + "}"), oa.scope)
  }

  /** A block: statements in order, all or nothing, cut short by Blank. */
  function BlockOut(b: seq<Stmt>, sc: Scope, mx: Expander): (o: Outcome)
    decreases StmtsSize(b)
  {
    if |b| == 0 then Outcome(Some(""), sc)
    else
      match b[0]
      case Blank => Outcome(Some("\n"), sc)
      case ExprStmt(e) =>
        assert StmtSize(b[0]) == 1 + ExprSize(e);
        var oe := ExprOut(e, sc, mx);
        if oe.text.None? then oe
        else Prepend(oe.text.value, BlockOut(b[1..], oe.scope, mx))
      case Return(e) =>
        assert StmtSize(b[0]) == 1 + ExprSize(e);
        var oe := ExprOut(e, sc, mx);
        if oe.text.None? then oe
        else Prepend("return " + oe.text.value, BlockOut(b[1..], oe.scope, mx))
      case Other => Outcome(None, sc)
  }

  /** Call arguments: comma separated, any failure fails them all. */
  function ArgsOut(args: seq<Expr>, sc: Scope, mx: Expander): (o: Outcome)
    decreases ExprsSize(args)
  {
    if |args| == 0 then Outcome(Some(""), sc)
    else
      var oa := ExprOut(args[0], sc, mx);
      if oa.text.None? || |args| == 1 then oa
      else Prepend(oa.text.value + ",", ArgsOut(args[1..], oa.scope, mx))
  }

  /** Array elements: an element that fails is skipped; a comma follows
      every rendered element except the one at the last index. */
  function ArrayOut(elems: seq<Expr>, sc: Scope, mx: Expander): (o: Outcome)
    decreases ExprsSize(elems)
    ensures o.text.Some?
  {
    if |elems| == 0 then Outcome(Some(""), sc)
    else
      var oe := ExprOut(elems[0], sc, mx);
      if oe.text.None? then ArrayOut(elems[1..], oe.scope, mx)
      else if |elems| == 1 then oe
      else Prepend(oe.text.value + ",", ArrayOut(elems[1..], oe.scope, mx))
  }

  /** Map entries: the value is rendered first and, if it fails, the entry
      is skipped; a key that fails after its value succeeded fails the
      whole literal. */
  function HashOut(entries: seq<Entry>, sc: Scope, mx: Expander): (o: Outcome)
    decreases EntriesSize(entries)
  {
    if |entries| == 0 then Outcome(Some(""), sc)
    else
      assert EntrySize(entries[0]) < EntriesSize(entries);
      var ov := ExprOut(entries[0].value, sc, mx);
      if ov.text.None? then HashOut(entries[1..], ov.scope, mx)
      else
        var ok := ExprOut(entries[0].key, ov.scope, mx);
        if ok.text.None? then ok
        else
          var item := ok.text.value + ":" + ov.text.value;
          if |entries| == 1 then Outcome(Some(item), ok.scope)
          else Prepend(item + ",", HashOut(entries[1..], ok.scope, mx))
  }

  function LiteralOut(l: Literal, sc: Scope, mx: Expander): (o: Outcome)
    decreases LitSize(l)
  {
    match l
    case Num(n) => Outcome(Some(NumberText(n)), sc)
    case Str(s) => Outcome(Some(s), sc)
    case Bool(b) => Outcome(Some(if b then "true" else "false"), sc)
    case Array(es) => Prepend("[", Append(ArrayOut(es, sc, mx), "]"))
    case Hash(en) => Prepend("{", Append(HashOut(en, sc, mx), "}"))
  }

  /** The top-level statements: failures and non-expression statements add
      nothing, and Blank ends the program with one newline. */
  function ProgramOut(stmts: seq<Stmt>, sc: Scope, mx: Expander): (l: Listing)
  {
    if |stmts| == 0 then Listing("", sc)
    else
      match stmts[0]
      case Blank => Listing("\n", sc)
      case ExprStmt(e) =>
        var oe := ExprOut(e, sc, mx);
        var rest := ProgramOut(stmts[1..], oe.scope, mx);
        Listing((if oe.text.Some? then oe.text.value else "") + rest.text, rest.scope)
      case _ => ProgramOut(stmts[1..], sc, mx)
  }

  /** The whole output of a freshly constructed generator. */
  function CompileProgram(ast: Program, mx: Expander): (s: string)
    ensures |s| >= |Banner| && s[..|Banner|] == Banner
  {
    Banner + ProgramOut(ast, {}, mx).text
  }
}
