/** How rendering treats the scope table: it only ever grows, only by the
    names of named function literals, and it is read only at calls. */
module Scoping {
  import opened Ast
  import opened Render

  // ---------------------------------------------------------------------
  // The scope only grows, and only by declared names

  lemma {:induction false} ExprScopeBounds(e: Expr, sc: Scope, mx: Expander)
    decreases ExprSize(e), 1
    ensures sc <= ExprOut(e, sc, mx).scope <= sc + FuncNames(e)
  {
    match e
    case Let(_, v) =>
      ExprScopeBounds(v, sc, mx);
    case Assign(t, v) =>
      ExprScopeBounds(v, sc, mx);
      ExprScopeBounds(t, ExprOut(v, sc, mx).scope, mx);
    case Prefix(_, x) =>
      ExprScopeBounds(x, sc, mx);
    case Infix(_, a, b) =>
      ExprScopeBounds(a, sc, mx);
      ExprScopeBounds(b, ExprOut(a, sc, mx).scope, mx);
    case Index(a, k) =>
      ExprScopeBounds(a, sc, mx);
      ExprScopeBounds(k, ExprOut(a, sc, mx).scope, mx);
    case Accessor(a, _) =>
      ExprScopeBounds(a, sc, mx);
    case Lit(l) =>
      LitScopeBounds(l, sc, mx);
    case Ident(_) =>
    case Func(_, _, _) =>
      BodyScopeBounds(e, sc, mx);
    case Call(_, _) =>
      BodyScopeBounds(e, sc, mx);
    case Macro(n, _) =>
      ExprScopeBounds(n, sc, mx);
    case Regexp(p, _) =>
      ExprScopeBounds(p, sc, mx);
    case While(_, _) =>
      BodyScopeBounds(e, sc, mx);
    case If(_, _, _) =>
      BodyScopeBounds(e, sc, mx);
  }

  /** The cases of ExprScopeBounds whose nodes hold a block or arguments. */
  lemma {:induction false} BodyScopeBounds(e: Expr, sc: Scope, mx: Expander)
    requires e.Func? || e.Call? || e.While? || e.If?
    decreases ExprSize(e), 0
    ensures sc <= ExprOut(e, sc, mx).scope <= sc + FuncNames(e)
  {
    match e
    case Func(name, _, body) =>
      if name.Some? {
        BlockScopeBounds(body, sc + {name.value}, mx);
      }
    case Call(f, args) =>
      ExprScopeBounds(f, sc, mx);
      ArgsScopeBounds(args, ExprOut(f, sc, mx).scope, mx);
    case While(c, body) =>
      ExprScopeBounds(c, sc, mx);
      BlockScopeBounds(body, ExprOut(c, sc, mx).scope, mx);
    case If(c, cons, alt) =>
      ExprScopeBounds(c, sc, mx);
      var s1 := ExprOut(c, sc, mx).scope;
      BlockScopeBounds(cons, s1, mx);
      match alt
      case NoElse =>
      case Else(a) =>
        assert ElseSize(alt) == 1 + StmtsSize(a);
        BlockScopeBounds(a, BlockOut(cons, s1, mx).scope, mx);
  }

  lemma {:induction false} BlockScopeBounds(b: seq<Stmt>, sc: Scope, mx: Expander)
    decreases StmtsSize(b)
    ensures sc <= BlockOut(b, sc, mx).scope <= sc + StmtsFuncNames(b)
  {
    if |b| > 0 {
      match b[0]
      case ExprStmt(e) =>
        assert StmtSize(b[0]) == 1 + ExprSize(e);
        ExprScopeBounds(e, sc, mx);
        BlockScopeBounds(b[1..], ExprOut(e, sc, mx).scope, mx);
      case Return(e) =>
        assert StmtSize(b[0]) == 1 + ExprSize(e);
        ExprScopeBounds(e, sc, mx);
        BlockScopeBounds(b[1..], ExprOut(e, sc, mx).scope, mx);
      case Blank =>
      case Other =>
    }
  }

  lemma {:induction false} ArgsScopeBounds(args: seq<Expr>, sc: Scope, mx: Expander)
    decreases ExprsSize(args)
    ensures sc <= ArgsOut(args, sc, mx).scope <= sc + ExprsFuncNames(args)
  {
    if |args| > 0 {
      ExprScopeBounds(args[0], sc, mx);
      ArgsScopeBounds(args[1..], ExprOut(args[0], sc, mx).scope, mx);
    }
  }

  lemma {:induction false} ArrayScopeBounds(es: seq<Expr>, sc: Scope, mx: Expander)
    decreases ExprsSize(es)
    ensures sc <= ArrayOut(es, sc, mx).scope <= sc + ExprsFuncNames(es)
  {
    if |es| > 0 {
      ExprScopeBounds(es[0], sc, mx);
      ArrayScopeBounds(es[1..], ExprOut(es[0], sc, mx).scope, mx);
    }
  }

  lemma {:induction false} HashScopeBounds(en: seq<Entry>, sc: Scope, mx: Expander)
    decreases EntriesSize(en)
    ensures sc <= HashOut(en, sc, mx).scope <= sc + EntriesFuncNames(en)
  {
    if |en| > 0 {
      assert EntrySize(en[0]) < EntriesSize(en);
      ExprScopeBounds(en[0].value, sc, mx);
      var s1 := ExprOut(en[0].value, sc, mx).scope;
      ExprScopeBounds(en[0].key, s1, mx);
      HashScopeBounds(en[1..], s1, mx);
      HashScopeBounds(en[1..], ExprOut(en[0].key, s1, mx).scope, mx);
    }
  }

  lemma {:induction false} LitScopeBounds(l: Literal, sc: Scope, mx: Expander)
    decreases LitSize(l)
    ensures sc <= LiteralOut(l, sc, mx).scope <= sc + LitFuncNames(l)
  {
    match l
    case Array(es) => ArrayScopeBounds(es, sc, mx);
    case Hash(en) => HashScopeBounds(en, sc, mx);
    case _ =>
  }

  lemma {:induction false} ProgramScopeBounds(stmts: seq<Stmt>, sc: Scope, mx: Expander)
    ensures sc <= ProgramOut(stmts, sc, mx).scope <= sc + StmtsFuncNames(stmts)
  {
    if |stmts| > 0 {
      match stmts[0]
      case ExprStmt(e) =>
        ExprScopeBounds(e, sc, mx);
        ProgramScopeBounds(stmts[1..], ExprOut(e, sc, mx).scope, mx);
      case Blank =>
      case _ =>
        ProgramScopeBounds(stmts[1..], sc, mx);
    }
  }

  // ---------------------------------------------------------------------
  // The scope is read only at the call gate

  ghost predicate CallFree(e: Expr)
    decreases ExprSize(e)
  {
    match e
    case Let(_, v) => CallFree(v)
    case Assign(t, v) => CallFree(t) && CallFree(v)
    case Prefix(_, x) => CallFree(x)
    case Infix(_, a, b) => CallFree(a) && CallFree(b)
    case Index(a, k) => CallFree(a) && CallFree(k)
    case Accessor(a, _) => CallFree(a)
    case Lit(l) => LitCallFree(l)
    case Ident(_) => true
    case Func(_, _, body) => StmtsCallFree(body)
    case Call(_, _) => false
    case Macro(n, _) => CallFree(n)
    case Regexp(p, _) => CallFree(p)
    case While(c, body) => CallFree(c) && StmtsCallFree(body)
    case If(c, cons, alt) => CallFree(c) && StmtsCallFree(cons) && ElseCallFree(alt)
  }

  ghost predicate ElseCallFree(alt: ElseBranch)
    decreases ElseSize(alt)
  {
    match alt
    case NoElse => true
    case Else(b) => StmtsCallFree(b)
  }

  ghost predicate StmtsCallFree(b: seq<Stmt>)
    decreases StmtsSize(b)
  {
    if b == [] then true
    else
      (match b[0]
       case ExprStmt(e) => assert StmtSize(b[0]) == 1 + ExprSize(e); CallFree(e)
       case Return(e) => assert StmtSize(b[0]) == 1 + ExprSize(e); CallFree(e)
       case _ => true)
      && StmtsCallFree(b[1..])
  }

  ghost predicate ExprsCallFree(es: seq<Expr>)
    decreases ExprsSize(es)
  {
    if es == [] then true else CallFree(es[0]) && ExprsCallFree(es[1..])
  }

  ghost predicate EntriesCallFree(en: seq<Entry>)
    decreases EntriesSize(en)
  {
    if en == [] then true
    else
      assert EntrySize(en[0]) < EntriesSize(en);
      CallFree(en[0].key) && CallFree(en[0].value) && EntriesCallFree(en[1..])
  }

  ghost predicate LitCallFree(l: Literal)
    decreases LitSize(l)
  {
    match l
    case Array(es) => ExprsCallFree(es)
    case Hash(en) => EntriesCallFree(en)
    case _ => true
  }

  /** Rendering an expression without calls does not depend on the scope:
      the text is the same for every scope, and the names it adds are the
      same for every scope. */
  lemma {:induction false} ExprScopeIndependent(e: Expr, sc: Scope, mx: Expander)
    requires CallFree(e)
    decreases ExprSize(e), 1
    ensures ExprOut(e, sc, mx).text == ExprOut(e, {}, mx).text
    ensures ExprOut(e, sc, mx).scope == sc + ExprOut(e, {}, mx).scope
  {
    match e
    case Let(_, v) =>
      ExprScopeIndependent(v, sc, mx);
    case Assign(t, v) =>
      ExprScopeIndependent(v, sc, mx);
      ExprScopeIndependent(t, ExprOut(v, sc, mx).scope, mx);
      ExprScopeIndependent(t, ExprOut(v, {}, mx).scope, mx);
    case Prefix(_, x) =>
      ExprScopeIndependent(x, sc, mx);
    case Infix(_, a, b) =>
      ExprScopeIndependent(a, sc, mx);
      ExprScopeIndependent(b, ExprOut(a, sc, mx).scope, mx);
      ExprScopeIndependent(b, ExprOut(a, {}, mx).scope, mx);
    case Index(a, k) =>
      ExprScopeIndependent(a, sc, mx);
      ExprScopeIndependent(k, ExprOut(a, sc, mx).scope, mx);
      ExprScopeIndependent(k, ExprOut(a, {}, mx).scope, mx);
    case Accessor(a, _) =>
      ExprScopeIndependent(a, sc, mx);
    case Lit(l) =>
      LitScopeIndependent(l, sc, mx);
    case Ident(_) =>
    case Func(_, _, _) =>
      BodyScopeIndependent(e, sc, mx);
    case Call(_, _) =>
    case Macro(n, _) =>
      ExprScopeIndependent(n, sc, mx);
    case Regexp(p, _) =>
      ExprScopeIndependent(p, sc, mx);
    case While(_, _) =>
      BodyScopeIndependent(e, sc, mx);
    case If(_, _, _) =>
      BodyScopeIndependent(e, sc, mx);
  }

  /** The cases of ExprScopeIndependent whose nodes hold a block. */
  lemma {:induction false} BodyScopeIndependent(e: Expr, sc: Scope, mx: Expander)
    requires e.Func? || e.While? || e.If?
    requires CallFree(e)
    decreases ExprSize(e), 0
    ensures ExprOut(e, sc, mx).text == ExprOut(e, {}, mx).text
    ensures ExprOut(e, sc, mx).scope == sc + ExprOut(e, {}, mx).scope
  {
    match e
    case Func(name, _, body) =>
      if name.Some? {
        BlockScopeIndependent(body, sc + {name.value}, mx);
        BlockScopeIndependent(body, {} + {name.value}, mx);
      }
    case While(c, body) =>
      ExprScopeIndependent(c, sc, mx);
      BlockScopeIndependent(body, ExprOut(c, sc, mx).scope, mx);
      BlockScopeIndependent(body, ExprOut(c, {}, mx).scope, mx);
    case If(c, cons, alt) =>
      ExprScopeIndependent(c, sc, mx);
      var s1, z1 := ExprOut(c, sc, mx).scope, ExprOut(c, {}, mx).scope;
      BlockScopeIndependent(cons, s1, mx);
      BlockScopeIndependent(cons, z1, mx);
      match alt
      case NoElse =>
      case Else(a) =>
        assert ElseSize(alt) == 1 + StmtsSize(a);
        BlockScopeIndependent(a, BlockOut(cons, s1, mx).scope, mx);
        BlockScopeIndependent(a, BlockOut(cons, z1, mx).scope, mx);
  }

  lemma {:induction false} BlockScopeIndependent(b: seq<Stmt>, sc: Scope, mx: Expander)
    requires StmtsCallFree(b)
    decreases StmtsSize(b)
    ensures BlockOut(b, sc, mx).text == BlockOut(b, {}, mx).text
    ensures BlockOut(b, sc, mx).scope == sc + BlockOut(b, {}, mx).scope
  {
    if |b| > 0 {
      match b[0]
      case ExprStmt(e) =>
        assert StmtSize(b[0]) == 1 + ExprSize(e);
        ExprScopeIndependent(e, sc, mx);
        BlockScopeIndependent(b[1..], ExprOut(e, sc, mx).scope, mx);
        BlockScopeIndependent(b[1..], ExprOut(e, {}, mx).scope, mx);
      case Return(e) =>
        assert StmtSize(b[0]) == 1 + ExprSize(e);
        ExprScopeIndependent(e, sc, mx);
        BlockScopeIndependent(b[1..], ExprOut(e, sc, mx).scope, mx);
        BlockScopeIndependent(b[1..], ExprOut(e, {}, mx).scope, mx);
      case Blank =>
      case Other =>
    }
  }

  lemma {:induction false} ArrayScopeIndependent(es: seq<Expr>, sc: Scope, mx: Expander)
    requires ExprsCallFree(es)
    decreases ExprsSize(es)
    ensures ArrayOut(es, sc, mx).text == ArrayOut(es, {}, mx).text
    ensures ArrayOut(es, sc, mx).scope == sc + ArrayOut(es, {}, mx).scope
  {
    if |es| > 0 {
      ExprScopeIndependent(es[0], sc, mx);
      ArrayScopeIndependent(es[1..], ExprOut(es[0], sc, mx).scope, mx);
      ArrayScopeIndependent(es[1..], ExprOut(es[0], {}, mx).scope, mx);
    }
  }

  lemma {:induction false} HashScopeIndependent(en: seq<Entry>, sc: Scope, mx: Expander)
    requires EntriesCallFree(en)
    decreases EntriesSize(en)
    ensures HashOut(en, sc, mx).text == HashOut(en, {}, mx).text
    ensures HashOut(en, sc, mx).scope == sc + HashOut(en, {}, mx).scope
  {
    if |en| > 0 {
      assert EntrySize(en[0]) < EntriesSize(en);
      var v, k := en[0].value, en[0].key;
      ExprScopeIndependent(v, sc, mx);
      var s1, z1 := ExprOut(v, sc, mx).scope, ExprOut(v, {}, mx).scope;
      ExprScopeIndependent(k, s1, mx);
      ExprScopeIndependent(k, z1, mx);
      HashScopeIndependent(en[1..], s1, mx);
      HashScopeIndependent(en[1..], z1, mx);
      HashScopeIndependent(en[1..], ExprOut(k, s1, mx).scope, mx);
      HashScopeIndependent(en[1..], ExprOut(k, z1, mx).scope, mx);
    }
  }

  lemma {:induction false} LitScopeIndependent(l: Literal, sc: Scope, mx: Expander)
    requires LitCallFree(l)
    decreases LitSize(l)
    ensures LiteralOut(l, sc, mx).text == LiteralOut(l, {}, mx).text
    ensures LiteralOut(l, sc, mx).scope == sc + LiteralOut(l, {}, mx).scope
  {
    match l
    case Array(es) => ArrayScopeIndependent(es, sc, mx);
    case Hash(en) => HashScopeIndependent(en, sc, mx);
    case _ =>
  }

}
