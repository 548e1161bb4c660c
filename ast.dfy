/** The syntax tree the code generator walks.

    The parser that builds these values is not part of this model; the
    variants are the ones the generator matches on. Operators and floats
    carry the text their display routine prints, since that routine lives
    outside the generator. */
module Ast {

  datatype Option<T> = None | Some(value: T)

  /** An operator token, as the text it displays as (`+`, `!`, `==`, ...). */
  datatype Op = Op(text: string)

  /** A numeric literal. A float keeps its display text, which is opaque here. */
  datatype Number = Int(i: int) | Float(display: string)

  /** The name segments of a member access. The generator reads the first
      one unconditionally, so an accessor always has at least one. */
  type Segments = s: seq<string> | |s| > 0 witness [""]

  /** Statement kinds. `Other` stands for every statement kind the generator
      has no arm for. */
  datatype Stmt =
    | ExprStmt(e: Expr)
    | Return(e: Expr)
    | Blank
    | Other

  datatype Expr =
    | Let(binder: string, value: Expr)
    | Assign(target: Expr, value: Expr)
    | Prefix(op: Op, operand: Expr)
    | Infix(op: Op, left: Expr, right: Expr)
    | Index(base: Expr, key: Expr)
    | Accessor(base: Expr, segments: Segments)
    | Lit(lit: Literal)
    | Ident(name: string)
    | Func(fname: Option<string>, params: seq<string>, body: seq<Stmt>)
    | Call(callee: Expr, args: seq<Expr>)
    | Macro(macroName: Expr, args: seq<Expr>)
    | Regexp(pattern: Expr, flags: Option<string>)
    | While(cond: Expr, body: seq<Stmt>)
    | If(cond: Expr, consequence: seq<Stmt>, alternative: ElseBranch)

  /** The optional `else` block of an `if`. */
  datatype ElseBranch = NoElse | Else(block: seq<Stmt>)

  datatype Literal =
    | Num(num: Number)
    | Str(s: string)
    | Bool(b: bool)
    | Array(elems: seq<Expr>)
    | Hash(entries: seq<Entry>)

  /** One `key: value` pair of a map literal, in insertion order. */
  datatype Entry = Entry(key: Expr, value: Expr)

  /** A program is its sequence of top-level statements. */
  type Program = seq<Stmt>

  /** The macro collaborator: given the rendered macro name and the
      unrendered arguments, it yields the expansion, or None when the name
      is unknown or the expansion fails. */
  type Expander = (string, seq<Expr>) -> Option<string>

  // Size measures, used only to prove that the mutually recursive
  // renderers terminate.

  ghost function ExprSize(e: Expr): nat
  {
    match e
    case Let(_, v) => 1 + ExprSize(v)
    case Assign(t, v) => 1 + ExprSize(t) + ExprSize(v)
    case Prefix(_, x) => 1 + ExprSize(x)
    case Infix(_, a, b) => 1 + ExprSize(a) + ExprSize(b)
    case Index(a, k) => 1 + ExprSize(a) + ExprSize(k)
    case Accessor(a, _) => 1 + ExprSize(a)
    case Lit(l) => 1 + LitSize(l)
    case Ident(_) => 1
    case Func(_, _, body) => 1 + StmtsSize(body)
    case Call(f, args) => 1 + ExprSize(f) + ExprsSize(args)
    case Macro(n, _) => 1 + ExprSize(n)
    case Regexp(p, _) => 1 + ExprSize(p)
    case While(c, body) => 1 + ExprSize(c) + StmtsSize(body)
    case If(c, cons, alt) => 1 + ExprSize(c) + StmtsSize(cons) + ElseSize(alt)
  }

  ghost function ElseSize(alt: ElseBranch): nat
  {
    match alt
    case NoElse => 0
    case Else(b) => 1 + StmtsSize(b)
  }

  ghost function StmtSize(s: Stmt): nat
  {
    match s
    case ExprStmt(e) => 1 + ExprSize(e)
    case Return(e) => 1 + ExprSize(e)
    case Blank => 1
    case Other => 1
  }

  ghost function StmtsSize(b: seq<Stmt>): nat
  {
    if b == [] then 0 else 1 + StmtSize(b[0]) + StmtsSize(b[1..])
  }

  ghost function ExprsSize(es: seq<Expr>): nat
  {
    if es == [] then 0 else 1 + ExprSize(es[0]) + ExprsSize(es[1..])
  }

  ghost function EntrySize(en: Entry): nat
  {
    1 + ExprSize(en.key) + ExprSize(en.value)
  }

  ghost function EntriesSize(en: seq<Entry>): nat
  {
    if en == [] then 0 else 1 + EntrySize(en[0]) + EntriesSize(en[1..])
  }

  ghost function LitSize(l: Literal): nat
  {
    match l
    case Array(es) => 1 + ExprsSize(es)
    case Hash(en) => 1 + EntriesSize(en)
    case _ => 1
  }

  lemma {:induction false} StmtsSizeAt(b: seq<Stmt>, i: nat)
    requires i < |b|
    ensures StmtSize(b[i]) < StmtsSize(b)
    ensures StmtsSize(b[i..]) <= StmtsSize(b)
  {
    if i > 0 {
      StmtsSizeAt(b[1..], i - 1);
      assert b[1..][i - 1] == b[i] && b[1..][i - 1..] == b[i..];
    }
  }

  lemma {:induction false} ExprsSizeAt(es: seq<Expr>, i: nat)
    requires i < |es|
    ensures ExprSize(es[i]) < ExprsSize(es)
    ensures ExprsSize(es[i..]) <= ExprsSize(es)
  {
    if i > 0 {
      ExprsSizeAt(es[1..], i - 1);
      assert es[1..][i - 1] == es[i] && es[1..][i - 1..] == es[i..];
    }
  }

  lemma {:induction false} EntriesSizeAt(en: seq<Entry>, i: nat)
    requires i < |en|
    ensures EntrySize(en[i]) < EntriesSize(en)
    ensures EntriesSize(en[i..]) <= EntriesSize(en)
  {
    if i > 0 {
      EntriesSizeAt(en[1..], i - 1);
      assert en[1..][i - 1] == en[i] && en[1..][i - 1..] == en[i..];
    }
  }

  // The names of the named function literals in a subtree: the only names
  // rendering that subtree can add to the scope.

  ghost function FuncNames(e: Expr): set<string>
    decreases ExprSize(e)
  {
    match e
    case Let(_, v) => FuncNames(v)
    case Assign(t, v) => FuncNames(t) + FuncNames(v)
    case Prefix(_, x) => FuncNames(x)
    case Infix(_, a, b) => FuncNames(a) + FuncNames(b)
    case Index(a, k) => FuncNames(a) + FuncNames(k)
    case Accessor(a, _) => FuncNames(a)
    case Lit(l) => LitFuncNames(l)
    case Ident(_) => {}
    case Func(name, _, body) =>
      (if name.Some? then {name.value} else {}) + StmtsFuncNames(body)
    case Call(f, args) => FuncNames(f) + ExprsFuncNames(args)
    case Macro(n, _) => FuncNames(n)
    case Regexp(p, _) => FuncNames(p)
    case While(c, body) => FuncNames(c) + StmtsFuncNames(body)
    case If(c, cons, alt) => FuncNames(c) + StmtsFuncNames(cons) + ElseFuncNames(alt)
  }

  ghost function ElseFuncNames(alt: ElseBranch): set<string>
    decreases ElseSize(alt)
  {
    match alt
    case NoElse => {}
    case Else(b) => StmtsFuncNames(b)
  }

  ghost function StmtsFuncNames(b: seq<Stmt>): set<string>
    decreases StmtsSize(b)
  {
    if b == [] then {}
    else
      (match b[0]
       case ExprStmt(e) => assert StmtSize(b[0]) == 1 + ExprSize(e); FuncNames(e)
       case Return(e) => assert StmtSize(b[0]) == 1 + ExprSize(e); FuncNames(e)
       case _ => {})
      + StmtsFuncNames(b[1..])
  }

  ghost function ExprsFuncNames(es: seq<Expr>): set<string>
    decreases ExprsSize(es)
  {
    if es == [] then {} else FuncNames(es[0]) + ExprsFuncNames(es[1..])
  }

  ghost function EntriesFuncNames(en: seq<Entry>): set<string>
    decreases EntriesSize(en)
  {
    if en == [] then {}
    else
      assert EntrySize(en[0]) < EntriesSize(en);
      FuncNames(en[0].key) + FuncNames(en[0].value) + EntriesFuncNames(en[1..])
  }

  ghost function LitFuncNames(l: Literal): set<string>
    decreases LitSize(l)
  {
    match l
    case Array(es) => ExprsFuncNames(es)
    case Hash(en) => EntriesFuncNames(en)
    case _ => {}
  }
}
