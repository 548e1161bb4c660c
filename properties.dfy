/** Properties of the code generator, stated over the functions of module
    Render (which the methods of Codegen.Compiler are proved to follow). */
module Properties {
  import opened Ast
  import opened Text
  import opened Render
  import opened Scoping

  /** No statement of the sequence is the Blank terminator. */
  predicate NoBlank(stmts: seq<Stmt>)
  {
    forall k :: 0 <= k < |stmts| ==> !stmts[k].Blank?
  }

  // ---------------------------------------------------------------------
  // Top-level driver

  /** Before any Blank, the driver renders a concatenation piece by piece,
      handing the scope from one piece to the next. */
  lemma {:induction false} ProgramConcat(pre: seq<Stmt>, post: seq<Stmt>, sc: Scope, mx: Expander)
    requires NoBlank(pre)
    ensures ProgramOut(pre + post, sc, mx).text ==
            ProgramOut(pre, sc, mx).text + ProgramOut(post, ProgramOut(pre, sc, mx).scope, mx).text
    ensures ProgramOut(pre + post, sc, mx).scope == ProgramOut(post, ProgramOut(pre, sc, mx).scope, mx).scope
  {
    if |pre| == 0 {
      assert pre + post == post;
      assert "" + ProgramOut(post, sc, mx).text == ProgramOut(post, sc, mx).text;
    } else {
      assert (pre + post)[0] == pre[0] && (pre + post)[1..] == pre[1..] + post;
      assert NoBlank(pre[1..]) by {
        forall k | 0 <= k < |pre[1..]| ensures !pre[1..][k].Blank? {
          assert pre[1..][k] == pre[k + 1];
        }
      }
      assert !pre[0].Blank? by { assert 0 < |pre|; }
      match pre[0]
      case ExprStmt(e) =>
        var oe := ExprOut(e, sc, mx);
        ProgramConcat(pre[1..], post, oe.scope, mx);
        var head := if oe.text.Some? then oe.text.value else "";
        var mid := ProgramOut(pre[1..], oe.scope, mx);
        var tail := ProgramOut(post, mid.scope, mx);
        assert head + (mid.text + tail.text) == (head + mid.text) + tail.text;
      case Return(_) =>
        ProgramConcat(pre[1..], post, sc, mx);
      case Other =>
        ProgramConcat(pre[1..], post, sc, mx);
    }
  }

  /** A top-level Blank appends exactly one newline and nothing after it is
      rendered. */
  lemma ProgramStopsAtBlank(pre: seq<Stmt>, post: seq<Stmt>, sc: Scope, mx: Expander)
    requires NoBlank(pre)
    ensures ProgramOut(pre + [Blank] + post, sc, mx) ==
            Listing(ProgramOut(pre, sc, mx).text + "\n", ProgramOut(pre, sc, mx).scope)
  {
    assert pre + [Blank] + post == pre + ([Blank] + post);
    ProgramConcat(pre, [Blank] + post, sc, mx);
  }

  /** A top-level statement that is neither an expression nor Blank adds
      nothing and changes nothing. */
  lemma {:induction false} ProgramSkipsNonExpr(pre: seq<Stmt>, s: Stmt, post: seq<Stmt>, sc: Scope, mx: Expander)
    requires s.Return? || s.Other?
    ensures ProgramOut(pre + [s] + post, sc, mx) == ProgramOut(pre + post, sc, mx)
  {
    if |pre| == 0 {
      assert pre + [s] + post == [s] + post && ([s] + post)[1..] == post && pre + post == post;
    } else {
      var rest := pre[1..] + [s] + post;
      assert (pre + [s] + post)[0] == pre[0] && (pre + [s] + post)[1..] == rest;
      assert (pre + post)[0] == pre[0] && (pre + post)[1..] == pre[1..] + post;
      match pre[0]
      case Blank =>
      case ExprStmt(e) =>
        ProgramSkipsNonExpr(pre[1..], s, post, ExprOut(e, sc, mx).scope, mx);
      case _ =>
        ProgramSkipsNonExpr(pre[1..], s, post, sc, mx);
    }
  }

  /** A top-level expression that cannot be rendered adds no text; names it
      registered before failing stay registered. */
  lemma ProgramDropsFailedExpr(pre: seq<Stmt>, e: Expr, post: seq<Stmt>, sc: Scope, mx: Expander)
    requires NoBlank(pre)
    requires ExprOut(e, ProgramOut(pre, sc, mx).scope, mx).text.None?
    ensures ProgramOut(pre + [ExprStmt(e)] + post, sc, mx).text ==
            ProgramOut(pre, sc, mx).text
            + ProgramOut(post, ExprOut(e, ProgramOut(pre, sc, mx).scope, mx).scope, mx).text
  {
    assert pre + [ExprStmt(e)] + post == pre + ([ExprStmt(e)] + post);
    ProgramConcat(pre, [ExprStmt(e)] + post, sc, mx);
    assert ([ExprStmt(e)] + post)[0] == ExprStmt(e) && ([ExprStmt(e)] + post)[1..] == post;
    var rest := ProgramOut(post, ExprOut(e, ProgramOut(pre, sc, mx).scope, mx).scope, mx);
    assert "" + rest.text == rest.text;
  }

  /** Where a block renders and holds no return statement, the top-level
      driver renders the same statements to the same text: the two differ
      only in how they treat failure and returns. */
  lemma {:induction false} ProgramAgreesWithBlock(stmts: seq<Stmt>, sc: Scope, mx: Expander)
    requires forall k :: 0 <= k < |stmts| ==> !stmts[k].Return?
    requires BlockOut(stmts, sc, mx).text.Some?
    ensures ProgramOut(stmts, sc, mx) == Listing(BlockOut(stmts, sc, mx).text.value, BlockOut(stmts, sc, mx).scope)
  {
    if |stmts| > 0 {
      match stmts[0]
      case ExprStmt(e) =>
        var oe := ExprOut(e, sc, mx);
        assert forall k :: 0 <= k < |stmts[1..]| ==> stmts[1..][k] == stmts[k + 1];
        ProgramAgreesWithBlock(stmts[1..], oe.scope, mx);
      case Blank =>
      case Return(_) =>
        assert false;
      case Other =>
    }
  }

  // ---------------------------------------------------------------------
  // Blocks

  /** Before any Blank, a block renders a concatenation piece by piece, and
      fails as soon as one piece fails. */
  lemma {:induction false} BlockConcat(pre: seq<Stmt>, post: seq<Stmt>, sc: Scope, mx: Expander)
    requires NoBlank(pre)
    ensures BlockOut(pre + post, sc, mx) ==
            (var o := BlockOut(pre, sc, mx);
             if o.text.None? then o else Prepend(o.text.value, BlockOut(post, o.scope, mx)))
  {
    if |pre| == 0 {
      assert pre + post == post;
      PrependNothing(BlockOut(post, sc, mx));
    } else {
      assert (pre + post)[0] == pre[0] && (pre + post)[1..] == pre[1..] + post;
      assert NoBlank(pre[1..]) by {
        forall k | 0 <= k < |pre[1..]| ensures !pre[1..][k].Blank? {
          assert pre[1..][k] == pre[k + 1];
        }
      }
      assert !pre[0].Blank? by { assert 0 < |pre|; }
      match pre[0]
      case ExprStmt(e) =>
        var oe := ExprOut(e, sc, mx);
        if oe.text.Some? {
          BlockConcat(pre[1..], post, oe.scope, mx);
          var mid := BlockOut(pre[1..], oe.scope, mx);
          if mid.text.Some? {
            PrependTwice(oe.text.value, mid.text.value, BlockOut(post, mid.scope, mx));
          }
        }
      case Return(e) =>
        var oe := ExprOut(e, sc, mx);
        if oe.text.Some? {
          BlockConcat(pre[1..], post, oe.scope, mx);
          var mid := BlockOut(pre[1..], oe.scope, mx);
          if mid.text.Some? {
            PrependTwice("return " + oe.text.value, mid.text.value, BlockOut(post, mid.scope, mx));
          }
        }
      case Other =>
    }
  }

  /** A Blank inside a block appends exactly one newline and ends the block
      successfully; later statements are not rendered. */
  lemma BlockStopsAtBlank(pre: seq<Stmt>, post: seq<Stmt>, sc: Scope, mx: Expander)
    requires NoBlank(pre)
    ensures BlockOut(pre + [Blank] + post, sc, mx) == Append(BlockOut(pre, sc, mx), "\n")
  {
    assert pre + [Blank] + post == pre + ([Blank] + post);
    BlockConcat(pre, [Blank] + post, sc, mx);
  }

  /** A statement kind other than expression, return or Blank, reached
      before any Blank, fails the whole block. */
  lemma BlockFailsOnOther(pre: seq<Stmt>, post: seq<Stmt>, sc: Scope, mx: Expander)
    requires NoBlank(pre)
    ensures BlockOut(pre + [Other] + post, sc, mx).text.None?
  {
    assert pre + [Other] + post == pre + ([Other] + post);
    BlockConcat(pre, [Other] + post, sc, mx);
  }

  /** A statement whose expression fails, reached before any Blank, fails
      the whole block. */
  lemma BlockFailurePropagates(pre: seq<Stmt>, s: Stmt, post: seq<Stmt>, sc: Scope, mx: Expander)
    requires NoBlank(pre)
    requires s.ExprStmt? || s.Return?
    requires ExprOut(s.e, BlockOut(pre, sc, mx).scope, mx).text.None?
    ensures BlockOut(pre + [s] + post, sc, mx).text.None?
  {
    assert pre + [s] + post == pre + ([s] + post);
    BlockConcat(pre, [s] + post, sc, mx);
    assert ([s] + post)[0] == s;
  }

  /** `return e` renders as the word return, one space, and e. */
  lemma ReturnRendersWithPrefix(e: Expr, sc: Scope, mx: Expander)
    ensures BlockOut([Return(e)], sc, mx).text ==
            (if ExprOut(e, sc, mx).text.Some? then Some("return " + ExprOut(e, sc, mx).text.value) else None)
  {
    var oe := ExprOut(e, sc, mx);
    assert [Return(e)][1..] == [];
    if oe.text.Some? {
      assert ("return " + oe.text.value) + "" == "return " + oe.text.value;
    }
  }

  // ---------------------------------------------------------------------
  // Function literals and the call gate

  /** A named function literal registers its name before its body is
      rendered, keeps it registered when the body fails, and renders as
      `function name(p0,p1,...){body}`. */
  lemma NamedFunctionLiteral(n: string, params: seq<string>, body: seq<Stmt>, sc: Scope, mx: Expander)
    ensures var o := ExprOut(Func(Some(n), params, body), sc, mx);
            var ob := BlockOut(body, sc + {n}, mx);
            n in o.scope && o.scope == ob.scope &&
            (o.text.Some? <==> ob.text.Some?) &&
            (o.text.Some? ==> o.text.value == "function " + n + "(" + Join(params, ",") + "){" + ob.text.value + "}")
  {
    BlockScopeBounds(body, sc + {n}, mx);
  }

  /** An anonymous function literal renders as the empty text and leaves
      the scope alone. */
  lemma AnonymousFunctionVanishes(params: seq<string>, body: seq<Stmt>, sc: Scope, mx: Expander)
    ensures ExprOut(Func(None, params, body), sc, mx) == Outcome(Some(""), sc)
  {
  }

  /** A function may call itself: its name is registered before its body. */
  lemma SelfCallPassesGate(n: string, params: seq<string>, sc: Scope, mx: Expander)
    ensures ExprOut(Func(Some(n), params, [Return(Call(Ident(n), []))]), sc, mx).text ==
            Some("function " + n + "(" + Join(params, ",") + "){return " + n + "();}")
  {
    var call := Call(Ident(n), []);
    assert ExprOut(call, sc + {n}, mx).text == Some(n + "(" + ("" + ");"));
    assert n + "(" + ("" + ");") == n + "();";
    ReturnRendersWithPrefix(call, sc + {n}, mx);
    var j := Join(params, ",");
    assert "function " + n + "(" + j + "){" + ("return " + (n + "();")) + "}" ==
           "function " + n + "(" + j + "){return " + n + "();}";
  }

  /** The call gate: a call renders exactly when its callee renders, the
      callee's text is a registered name at that moment, and every argument
      renders; it then reads `callee(a0,a1,...);`. */
  lemma CallGate(f: Expr, args: seq<Expr>, sc: Scope, mx: Expander)
    ensures var of := ExprOut(f, sc, mx);
            var o := ExprOut(Call(f, args), sc, mx);
            (o.text.Some? <==>
               of.text.Some? && of.text.value in of.scope && ArgsOut(args, of.scope, mx).text.Some?) &&
            (o.text.Some? ==>
               o.text.value == of.text.value + "(" + ArgsOut(args, of.scope, mx).text.value + ");")
  {
    var of := ExprOut(f, sc, mx);
    if of.text.Some? && of.text.value in of.scope {
      var oa := ArgsOut(args, of.scope, mx);
      PrependAppend(of.text.value + "(", oa, ");");
    }
  }

  /** A call to a name that is not registered renders to nothing. */
  lemma UnregisteredCallFails(n: string, args: seq<Expr>, sc: Scope, mx: Expander)
    requires n !in sc
    ensures ExprOut(Call(Ident(n), args), sc, mx) == Outcome(None, sc)
  {
  }

  /** Once a named function literal has been rendered, a call to that name
      passes the gate at every later point, since the scope only grows. */
  lemma CallAfterDefinitionPassesGate(n: string, params: seq<string>, body: seq<Stmt>, sc: Scope,
                                      later: Scope, args: seq<Expr>, mx: Expander)
    requires ExprOut(Func(Some(n), params, body), sc, mx).scope <= later
    ensures ExprOut(Call(Ident(n), args), later, mx).text.Some? <==> ArgsOut(args, later, mx).text.Some?
  {
    NamedFunctionLiteral(n, params, body, sc, mx);
  }

  /** At the top level, a named function literal at position j makes its
      name visible to every statement after it (up to the first Blank). */
  lemma DefinedNameVisibleLater(stmts: seq<Stmt>, j: nat, k: nat, sc: Scope, mx: Expander)
    requires j < k <= |stmts|
    requires NoBlank(stmts[..k])
    requires stmts[j].ExprStmt? && stmts[j].e.Func? && stmts[j].e.fname.Some?
    ensures stmts[j].e.fname.value in ProgramOut(stmts[..k], sc, mx).scope
  {
    var n := stmts[j].e.fname.value;
    var pre, here, post := stmts[..j], [stmts[j]], stmts[j + 1..k];
    assert stmts[..k] == pre + (here + post);
    assert NoBlank(pre) by {
      forall i | 0 <= i < |pre| ensures !pre[i].Blank? {
        assert pre[i] == stmts[..k][i];
      }
    }
    ProgramConcat(pre, here + post, sc, mx);
    var s1 := ProgramOut(pre, sc, mx).scope;
    ProgramConcat(here, post, s1, mx);
    var e := stmts[j].e;
    NamedFunctionLiteral(n, e.params, e.body, s1, mx);
    assert here[1..] == [];
    assert n in ProgramOut(here, s1, mx).scope;
    ProgramScopeBounds(post, ProgramOut(here, s1, mx).scope, mx);
  }

  /** At the top level, a call to a name that neither the initial scope nor
      any earlier statement declares renders to nothing and changes nothing:
      the program renders as if the call were absent. */
  lemma UndeclaredTopLevelCallVanishes(pre: seq<Stmt>, n: string, args: seq<Expr>, post: seq<Stmt>,
                                       sc: Scope, mx: Expander)
    requires NoBlank(pre)
    requires n !in sc && n !in StmtsFuncNames(pre)
    ensures ProgramOut(pre + [ExprStmt(Call(Ident(n), args))] + post, sc, mx) == ProgramOut(pre + post, sc, mx)
  {
    var s := ExprStmt(Call(Ident(n), args));
    assert pre + [s] + post == pre + ([s] + post);
    ProgramConcat(pre, [s] + post, sc, mx);
    ProgramConcat(pre, post, sc, mx);
    var s1 := ProgramOut(pre, sc, mx).scope;
    ProgramScopeBounds(pre, sc, mx);
    assert n !in s1;
    UnregisteredCallFails(n, args, s1, mx);
    assert ([s] + post)[0] == s && ([s] + post)[1..] == post;
    assert "" + ProgramOut(post, s1, mx).text == ProgramOut(post, s1, mx).text;
  }

  // ---------------------------------------------------------------------
  // Call arguments, array and map literals

  /** The texts of a sequence of expressions rendered one after another,
      or None as soon as one fails. */
  datatype Items = Items(texts: Option<seq<string>>, scope: Scope)

  function RenderAll(es: seq<Expr>, sc: Scope, mx: Expander): Items
  {
    if |es| == 0 then Items(Some([]), sc)
    else
      var o := ExprOut(es[0], sc, mx);
      if o.text.None? then Items(None, o.scope)
      else
        var rest := RenderAll(es[1..], o.scope, mx);
        if rest.texts.None? then rest else Items(Some([o.text.value] + rest.texts.value), rest.scope)
  }

  /** Call arguments are the rendered arguments joined by commas, with no
      comma after the last, and fail exactly when some argument fails. */
  lemma {:induction false} ArgsAreJoined(args: seq<Expr>, sc: Scope, mx: Expander)
    ensures ArgsOut(args, sc, mx).scope == RenderAll(args, sc, mx).scope
    ensures ArgsOut(args, sc, mx).text.Some? <==> RenderAll(args, sc, mx).texts.Some?
    ensures ArgsOut(args, sc, mx).text.Some? ==>
              ArgsOut(args, sc, mx).text.value == Join(RenderAll(args, sc, mx).texts.value, ",")
  {
    if |args| > 0 {
      var o := ExprOut(args[0], sc, mx);
      if o.text.Some? {
        ArgsAreJoined(args[1..], o.scope, mx);
        if |args| == 1 {
          assert args[1..] == [];
          assert [o.text.value] + [] == [o.text.value];
        }
      }
    }
  }

  /** When every element renders, an array literal's inside is exactly the
      comma-joined list of call arguments: no trailing comma. */
  lemma {:induction false} ArrayMatchesArgs(es: seq<Expr>, sc: Scope, mx: Expander)
    requires ArgsOut(es, sc, mx).text.Some?
    ensures ArrayOut(es, sc, mx) == ArgsOut(es, sc, mx)
  {
    if |es| > 1 {
      ArrayMatchesArgs(es[1..], ExprOut(es[0], sc, mx).scope, mx);
    }
  }

  /** An array literal never fails; it is its elements between brackets. */
  lemma ArrayLiteralNeverFails(es: seq<Expr>, sc: Scope, mx: Expander)
    ensures ExprOut(Lit(Array(es)), sc, mx) ==
            Outcome(Some("[" + ArrayOut(es, sc, mx).text.value + "]"), ArrayOut(es, sc, mx).scope)
  {
    var a := ArrayOut(es, sc, mx).text.value;
    assert "[" + (a + "]") == "[" + a + "]";
  }

  /** A map literal whose keys are all identifiers never fails. */
  lemma {:induction false} IdentKeysNeverFail(en: seq<Entry>, sc: Scope, mx: Expander)
    requires forall i :: 0 <= i < |en| ==> en[i].key.Ident?
    ensures HashOut(en, sc, mx).text.Some?
  {
    if |en| > 0 {
      var ov := ExprOut(en[0].value, sc, mx);
      assert en[0].key.Ident?;
      assert forall i :: 0 <= i < |en[1..]| ==> en[1..][i] == en[i + 1];
      if ov.text.None? {
        IdentKeysNeverFail(en[1..], ov.scope, mx);
      } else {
        IdentKeysNeverFail(en[1..], ExprOut(en[0].key, ov.scope, mx).scope, mx);
      }
    }
  }

  /** A map entry whose value renders but whose key does not fails the
      whole literal, whatever follows. */
  lemma KeyFailureFailsMap(k: Expr, v: Expr, rest: seq<Entry>, sc: Scope, mx: Expander)
    requires ExprOut(v, sc, mx).text.Some?
    requires ExprOut(k, ExprOut(v, sc, mx).scope, mx).text.None?
    ensures ExprOut(Lit(Hash([Entry(k, v)] + rest)), sc, mx).text.None?
  {
    var en := [Entry(k, v)] + rest;
    assert en[0] == Entry(k, v);
    assert HashOut(en, sc, mx).text.None?;
    assert LiteralOut(Hash(en), sc, mx).text.None?;
  }

  /** A map entry at any position whose value renders but whose key then
      fails makes the whole literal fail, whatever precedes or follows it. */
  lemma {:induction false} KeyFailureFailsMapAnywhere(pre: seq<Entry>, k: Expr, v: Expr, rest: seq<Entry>,
                                                      sc: Scope, mx: Expander)
    requires var s := HashOut(pre, sc, mx).scope;
             ExprOut(v, s, mx).text.Some? && ExprOut(k, ExprOut(v, s, mx).scope, mx).text.None?
    ensures HashOut(pre + [Entry(k, v)] + rest, sc, mx).text.None?
  {
    var en := pre + [Entry(k, v)] + rest;
    if |pre| == 0 {
      assert en == [Entry(k, v)] + rest;
      assert en[0] == Entry(k, v);
    } else {
      assert en[0] == pre[0] && en[1..] == pre[1..] + [Entry(k, v)] + rest;
      var ov := ExprOut(pre[0].value, sc, mx);
      if ov.text.None? {
        KeyFailureFailsMapAnywhere(pre[1..], k, v, rest, ov.scope, mx);
      } else {
        var ok := ExprOut(pre[0].key, ov.scope, mx);
        if ok.text.Some? {
          if |pre| == 1 {
            assert pre[1..] == [];
          }
          KeyFailureFailsMapAnywhere(pre[1..], k, v, rest, ok.scope, mx);
        }
      }
    }
  }

  /** The `key:value` texts of map entries rendered one after another, each
      value before its key, or None as soon as a value or a key fails. */
  function RenderEntries(en: seq<Entry>, sc: Scope, mx: Expander): Items
    decreases |en|
  {
    if |en| == 0 then Items(Some([]), sc)
    else
      var ov := ExprOut(en[0].value, sc, mx);
      if ov.text.None? then Items(None, ov.scope)
      else
        var ok := ExprOut(en[0].key, ov.scope, mx);
        if ok.text.None? then Items(None, ok.scope)
        else
          var rest := RenderEntries(en[1..], ok.scope, mx);
          if rest.texts.None? then rest
          else Items(Some([ok.text.value + ":" + ov.text.value] + rest.texts.value), rest.scope)
  }

  /** When every entry renders, a map literal's inside is its `key:value`
      items joined by commas, with no comma after the last. */
  lemma {:induction false} EntriesAreJoined(en: seq<Entry>, sc: Scope, mx: Expander)
    requires RenderEntries(en, sc, mx).texts.Some?
    ensures HashOut(en, sc, mx) ==
            Outcome(Some(Join(RenderEntries(en, sc, mx).texts.value, ",")), RenderEntries(en, sc, mx).scope)
  {
    if |en| > 0 {
      var ov := ExprOut(en[0].value, sc, mx);
      var ok := ExprOut(en[0].key, ov.scope, mx);
      EntriesAreJoined(en[1..], ok.scope, mx);
      var item := ok.text.value + ":" + ov.text.value;
      if |en| == 1 {
        assert en[1..] == [];
        assert [item] + [] == [item];
      } else {
        var tail := RenderEntries(en[1..], ok.scope, mx).texts.value;
        assert ([item] + tail)[1..] == tail;
        assert item + "," + Join(tail, ",") == (item + ",") + Join(tail, ",");
      }
    }
  }

  /** A leading map entry whose value fails is skipped: the literal renders
      as the remaining entries would from the scope the value left. */
  lemma ValueFailureSkipsEntry(k: Expr, v: Expr, rest: seq<Entry>, sc: Scope, mx: Expander)
    requires ExprOut(v, sc, mx).text.None?
    ensures HashOut([Entry(k, v)] + rest, sc, mx) == HashOut(rest, ExprOut(v, sc, mx).scope, mx)
  {
    var en := [Entry(k, v)] + rest;
    assert en[0] == Entry(k, v) && en[1..] == rest;
  }

  /** The texts of the array elements or map entries that render, in order,
      with the scope threaded through every one of them; None once a map key
      fails after its value rendered. `lastSkipped` records whether the
      element or entry at the last index was skipped. */
  datatype Kept = Kept(texts: Option<seq<string>>, lastSkipped: bool, scope: Scope)

  /** The separator-joined kept texts, with the comma that a skipped last
      element leaves behind after the final kept one. */
  function KeptText(k: Kept): string
    requires k.texts.Some?
  {
    Join(k.texts.value, ",") + (if k.lastSkipped && |k.texts.value| > 0 then "," else "")
  }

  function KeptElems(es: seq<Expr>, sc: Scope, mx: Expander): (k: Kept)
    ensures k.texts.Some?
    ensures |es| > 0 && |k.texts.value| == 0 ==> k.lastSkipped
    decreases |es|
  {
    if |es| == 0 then Kept(Some([]), false, sc)
    else
      var o := ExprOut(es[0], sc, mx);
      var rest := KeptElems(es[1..], o.scope, mx);
      if o.text.None? then Kept(rest.texts, |es| == 1 || rest.lastSkipped, rest.scope)
      else Kept(Some([o.text.value] + rest.texts.value), rest.lastSkipped, rest.scope)
  }

  function KeptEntries(en: seq<Entry>, sc: Scope, mx: Expander): (k: Kept)
    ensures |en| > 0 && k.texts.Some? && |k.texts.value| == 0 ==> k.lastSkipped
    decreases |en|
  {
    if |en| == 0 then Kept(Some([]), false, sc)
    else
      var ov := ExprOut(en[0].value, sc, mx);
      if ov.text.None? then
        var rest := KeptEntries(en[1..], ov.scope, mx);
        Kept(rest.texts, |en| == 1 || rest.lastSkipped, rest.scope)
      else
        var ok := ExprOut(en[0].key, ov.scope, mx);
        if ok.text.None? then Kept(None, false, ok.scope)
        else
          var rest := KeptEntries(en[1..], ok.scope, mx);
          if rest.texts.None? then rest
          else Kept(Some([ok.text.value + ":" + ov.text.value] + rest.texts.value), rest.lastSkipped, rest.scope)
  }

  /** Joining a text in front of a non-empty list. */
  lemma JoinCons(t: string, ts: seq<string>)
    requires |ts| > 0
    ensures Join([t] + ts, ",") == t + "," + Join(ts, ",")
  {
    assert ([t] + ts)[1..] == ts;
  }

  /** An array literal's inside, for any elements: the texts of the elements
      that render, at any positions, joined by commas, plus one trailing
      comma exactly when the last element was skipped after a kept one. */
  lemma {:induction false} ArrayIsKeptJoined(es: seq<Expr>, sc: Scope, mx: Expander)
    ensures var k := KeptElems(es, sc, mx);
            ArrayOut(es, sc, mx) == Outcome(Some(KeptText(k)), k.scope)
  {
    if |es| > 0 {
      var o := ExprOut(es[0], sc, mx);
      var rest := KeptElems(es[1..], o.scope, mx);
      ArrayIsKeptJoined(es[1..], o.scope, mx);
      if o.text.Some? {
        var t := o.text.value;
        if |es| == 1 {
          assert es[1..] == [];
          assert [t] + [] == [t];
          assert t + "" == t;
        } else {
          var k := KeptElems(es, sc, mx);
          assert k == Kept(Some([t] + rest.texts.value), rest.lastSkipped, rest.scope);
          assert ArrayOut(es, sc, mx) == Outcome(Some((t + ",") + KeptText(rest)), rest.scope);
          if |rest.texts.value| == 0 {
            assert [t] + rest.texts.value == [t];
            assert KeptText(rest) == "";
            assert KeptText(k) == t + ",";
            assert (t + ",") + "" == t + ",";
          } else {
            JoinCons(t, rest.texts.value);
            assert (t + ",") + (Join(rest.texts.value, ",") + (if rest.lastSkipped then "," else "")) ==
                   t + "," + Join(rest.texts.value, ",") + (if rest.lastSkipped then "," else "");
          }
        }
      } else if |es| == 1 {
        assert es[1..] == [];
        assert KeptText(KeptElems(es, sc, mx)) == "" + "";
      }
    } else {
      assert KeptText(KeptElems(es, sc, mx)) == "" + "";
    }
  }

  /** A map literal's inside, for any entries: it fails exactly when some
      key fails after its value rendered; otherwise it is the `key:value`
      texts of the entries whose values render, at any positions, joined by
      commas, plus one trailing comma exactly when the last entry was skipped
      after a kept one. */
  lemma {:induction false} HashIsKeptJoined(en: seq<Entry>, sc: Scope, mx: Expander)
    ensures var k := KeptEntries(en, sc, mx);
            HashOut(en, sc, mx) ==
              (if k.texts.None? then Outcome(None, k.scope) else Outcome(Some(KeptText(k)), k.scope))
  {
    if |en| > 0 {
      var ov := ExprOut(en[0].value, sc, mx);
      if ov.text.None? {
        HashIsKeptJoined(en[1..], ov.scope, mx);
        if |en| == 1 {
          assert en[1..] == [];
          assert KeptText(KeptEntries(en, sc, mx)) == "" + "";
        }
      } else {
        var ok := ExprOut(en[0].key, ov.scope, mx);
        if ok.text.Some? {
          var rest := KeptEntries(en[1..], ok.scope, mx);
          HashIsKeptJoined(en[1..], ok.scope, mx);
          var t := ok.text.value + ":" + ov.text.value;
          if |en| == 1 {
            assert en[1..] == [];
            assert [t] + [] == [t];
            assert t + "" == t;
          } else if rest.texts.Some? {
            var k := KeptEntries(en, sc, mx);
            assert k == Kept(Some([t] + rest.texts.value), rest.lastSkipped, rest.scope);
            assert HashOut(en, sc, mx) == Outcome(Some((t + ",") + KeptText(rest)), rest.scope);
            if |rest.texts.value| == 0 {
              assert [t] + rest.texts.value == [t];
              assert KeptText(rest) == "";
              assert KeptText(k) == t + ",";
              assert (t + ",") + "" == t + ",";
            } else {
              JoinCons(t, rest.texts.value);
              assert (t + ",") + (Join(rest.texts.value, ",") + (if rest.lastSkipped then "," else "")) ==
                     t + "," + Join(rest.texts.value, ",") + (if rest.lastSkipped then "," else "");
            }
          }
        }
      }
    } else {
      assert KeptText(KeptEntries(en, sc, mx)) == "" + "";
    }
  }

  // ---------------------------------------------------------------------
  // Expression shapes

  /** Operators are glued to their operands with no whitespace. */
  lemma OperatorsAddNoSpace(op: Op, a: Expr, b: Expr, sc: Scope, mx: Expander)
    ensures var oa := ExprOut(a, sc, mx);
            var ob := ExprOut(b, oa.scope, mx);
            ExprOut(Infix(op, a, b), sc, mx).text ==
              (if oa.text.Some? && ob.text.Some? then Some(oa.text.value + op.text + ob.text.value) else None)
    ensures ExprOut(Prefix(op, a), sc, mx).text ==
              (if ExprOut(a, sc, mx).text.Some? then Some(op.text + ExprOut(a, sc, mx).text.value) else None)
  {
  }

  /** `if(c){..}` gains `else{..}` exactly when an alternative exists, and
      fails when the condition or a present branch fails. */
  lemma IfShape(c: Expr, cons: seq<Stmt>, alt: ElseBranch, sc: Scope, mx: Expander)
    ensures var oc := ExprOut(c, sc, mx);
            var ob := BlockOut(cons, oc.scope, mx);
            var o := ExprOut(If(c, cons, alt), sc, mx);
            (o.text.Some? <==>
               oc.text.Some? && ob.text.Some? &&
               (alt.Else? ==> BlockOut(alt.block, ob.scope, mx).text.Some?)) &&
            (o.text.Some? && alt.NoElse? ==>
               o.text.value == "if(" + oc.text.value + "){" + ob.text.value + "}") &&
            (o.text.Some? && alt.Else? ==>
               o.text.value == "if(" + oc.text.value + "){" + ob.text.value + "}else{"
                               + BlockOut(alt.block, ob.scope, mx).text.value + "}")
  {
  }

  /** A member access uses only the first name segment. */
  lemma AccessorUsesFirstSegment(a: Expr, segments: Segments, sc: Scope, mx: Expander)
    ensures ExprOut(Accessor(a, segments), sc, mx).text ==
            (if ExprOut(a, sc, mx).text.Some? then Some(ExprOut(a, sc, mx).text.value + "." + segments[0]) else None)
  {
  }

  /** `let n = v; \n`, failing when the value fails. */
  lemma LetShape(n: string, v: Expr, sc: Scope, mx: Expander)
    ensures var ov := ExprOut(v, sc, mx);
            ExprOut(Let(n, v), sc, mx) ==
              (if ov.text.Some? then Outcome(Some("let " + n + " = " + ov.text.value + "; \n"), ov.scope) else ov)
  {
  }

  /** `t = v; \n`: the value is rendered first and the target from the
      scope the value leaves; either failing fails the assignment. */
  lemma AssignShape(t: Expr, v: Expr, sc: Scope, mx: Expander)
    ensures var ov := ExprOut(v, sc, mx);
            var ot := ExprOut(t, ov.scope, mx);
            var o := ExprOut(Assign(t, v), sc, mx);
            (o.text.Some? <==> ov.text.Some? && ot.text.Some?) &&
            (o.text.Some? ==> o.text.value == ot.text.value + " = " + ov.text.value + "; \n" && o.scope == ot.scope)
  {
  }

  /** `a[k]`, with the base rendered before the key. */
  lemma IndexShape(a: Expr, k: Expr, sc: Scope, mx: Expander)
    ensures var oa := ExprOut(a, sc, mx);
            var ok := ExprOut(k, oa.scope, mx);
            ExprOut(Index(a, k), sc, mx).text ==
              (if oa.text.Some? && ok.text.Some? then Some(oa.text.value + "[" + ok.text.value + "]") else None)
  {
  }

  /** `/pattern/flags`, with no flags text when there are none. */
  lemma RegexpShape(p: Expr, flags: Option<string>, sc: Scope, mx: Expander)
    ensures var op := ExprOut(p, sc, mx);
            ExprOut(Regexp(p, flags), sc, mx).text ==
              (if op.text.None? then None
               else if flags.Some? then Some("/" + op.text.value + "/" + flags.value)
               else Some("/" + op.text.value + "/"))
  {
    var op := ExprOut(p, sc, mx);
    if op.text.Some? && flags.None? {
      assert "/" + op.text.value + "/" + "" == "/" + op.text.value + "/";
    }
  }

  /** `while(c){body}`, failing when the condition or the body fails. */
  lemma WhileShape(c: Expr, body: seq<Stmt>, sc: Scope, mx: Expander)
    ensures var oc := ExprOut(c, sc, mx);
            var ob := BlockOut(body, oc.scope, mx);
            var o := ExprOut(While(c, body), sc, mx);
            (o.text.Some? <==> oc.text.Some? && ob.text.Some?) &&
            (o.text.Some? ==> o.text.value == "while(" + oc.text.value + "){" + ob.text.value + "}")
  {
  }

  /** A macro call renders its name and splices the collaborator's
      expansion verbatim; an unknown macro fails the call. */
  lemma MacroSplicesExpansion(n: Expr, args: seq<Expr>, sc: Scope, mx: Expander)
    ensures var on := ExprOut(n, sc, mx);
            ExprOut(Macro(n, args), sc, mx).text ==
              (if on.text.Some? then mx(on.text.value, args) else None)
  {
  }

  /** An identifier renders as its name verbatim and changes nothing. */
  lemma IdentVerbatim(n: string, sc: Scope, mx: Expander)
    ensures ExprOut(Ident(n), sc, mx) == Outcome(Some(n), sc)
  {
  }
}
