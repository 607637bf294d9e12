/** Where the caret of an error can fall.  Every underline the lexer or
    the parser asks for lies within the declaration text, or is the one
    column just after its end (a token missing at the end of the input). */
module ErrorSpans {
  import opened Base
  import opened Tokens
  import opened Ast
  import opened LexSpec
  import opened ParseSpec
  import LexProps

  /** A span inside a text of `n` characters, or the column after it. */
  predicate SpanWithin(sp: Span, n: nat) {
    sp.start + sp.length <= n || (sp.start == n && sp.length == 1)
  }

  /** An error whose underline, if any, falls within a text of `n` characters. */
  predicate ErrorWithin(e: Error, n: nat) {
    match e
    case LexerError(_, at) => at.Some? ==> SpanWithin(at.value, n)
    case ParserError(_, at) => at.Some? ==> SpanWithin(at.value, n)
    case InternalError => true
  }

  /** Every span recorded in a token tree ends within `n`. */
  ghost predicate TokenWithin(t: Token, n: nat) {
    match t
    case Leaf(start, _, length, _) => start + length <= n
    case Group(span, items) =>
      (span.Some? ==> span.value.start + span.value.length <= n)
      && forall k :: 0 <= k < |items| ==> TokenWithin(items[k], n)
  }

  ghost predicate ItemsWithin(items: seq<Token>, n: nat) {
    forall k :: 0 <= k < |items| ==> TokenWithin(items[k], n)
  }

  // ---------------------------------------------------------------------
  // The lexer
  // ---------------------------------------------------------------------

  /** Attaching a run of modifiers can only fail with an internal error. */
  lemma {:induction false} AddModifiersFails(mods: seq<string>, more: seq<string>)
    ensures AddModifiers(mods, more).Err? ==> AddModifiers(mods, more).error == InternalError
    decreases |more|
  {
    if more != [] && AddModifier(mods, more[0]).Ok? {
      AddModifiersFails(AddModifier(mods, more[0]).value, more[1..]);
    }
  }

  lemma StructTagWithin(s: seq<char>, tok: Token, i: nat)
    requires tok.Leaf? && tok.start <= i <= |s|
    ensures StructTag(s, tok, i).Err? ==> ErrorWithin(StructTag(s, tok, i).error, |s|)
  {
  }

  lemma RunTypeNameWithin(mods: seq<string>, before: nat, next: Option<Token>, cur: nat, n: nat)
    requires before <= cur <= n && |mods| > 0
    requires next.Some? ==> next.value.Leaf? && End(next.value) <= n
    ensures RunTypeName(mods, before, next, cur).Err? ==> ErrorWithin(RunTypeName(mods, before, next, cur).error, n)
  {
  }

  lemma ResolveRunWithin(s: seq<char>, tok: Token, mods: seq<string>, before: nat, next: Option<Token>, cur: nat)
    requires tok.Leaf? && tok.start <= before <= cur <= |s| && |mods| > 0
    requires next.Some? ==> next.value.Leaf? && End(next.value) <= |s|
    ensures ResolveRun(s, tok, mods, before, next, cur).Err? ==>
              ErrorWithin(ResolveRun(s, tok, mods, before, next, cur).error, |s|)
  {
    RunTypeNameWithin(mods, before, next, cur, |s|);
    var named := RunTypeName(mods, before, next, cur);
    if named.Ok? {
      AddModifiersFails(tok.mods, mods);
    }
  }

  lemma {:induction false} ModifierRunWithin(s: seq<char>, tok: Token, mods: seq<string>, before: nat,
                                            next: Option<Token>, cur: nat)
    requires tok.Leaf? && tok.start <= before <= cur <= |s| && |mods| > 0
    requires next.Some? ==> next.value.Leaf? && before < cur && End(next.value) <= |s|
    ensures ModifierRun(s, tok, mods, before, next, cur).Err? ==>
              ErrorWithin(ModifierRun(s, tok, mods, before, next, cur).error, |s|)
    decreases |s| - before
  {
    if next.Some? && next.value.text in MODIFIERS {
      var w := next.value.text;
      if w == "struct" {
        if |mods| == 1 && mods[0] == "const" {
          var m := AddModifier(tok.mods, "const");
          if m.Ok? {
            StructTagWithin(s, Leaf(tok.start, "struct", cur - tok.start, m.value), cur);
          }
        }
      } else if !((w == "signed" || w == "unsigned") && ("signed" in mods || "unsigned" in mods)) {
        var (next', cur') := ReadIdent(s, cur);
        ModifierRunWithin(s, tok, mods + [w], cur, next', cur');
      }
    } else {
      ResolveRunWithin(s, tok, mods, before, next, cur);
    }
  }

  lemma ParseTypeWithin(s: seq<char>, tok: Token, i: nat)
    requires tok.Leaf? && tok.start <= i <= |s| && tok.text in KEYWORDS
    ensures ParseTypeSpec(s, tok, i).Err? ==> ErrorWithin(ParseTypeSpec(s, tok, i).error, |s|)
  {
    if tok.text == "struct" {
      StructTagWithin(s, tok, i);
    } else if tok.text !in PRIMTYPES {
      var (next, c) := ReadIdent(s, i);
      ModifierRunWithin(s, tok, [tok.text], i, next, c);
    }
  }

  lemma WordOrNumberWithin(s: seq<char>, j: nat)
    requires j < |s|
    ensures WordOrNumber(s, j).Err? ==> ErrorWithin(WordOrNumber(s, j).error, |s|)
  {
    var (ident, c) := ReadIdent(s, j);
    if ident.Some? && ident.value.text in KEYWORDS {
      ParseTypeWithin(s, ident.value, c);
    }
  }

  lemma {:induction false} NextTokenWithin(s: seq<char>, i: nat)
    requires i <= |s|
    ensures NextTokenSpec(s, i).Err? ==> ErrorWithin(NextTokenSpec(s, i).error, |s|)
    decreases |s| - i, 0
  {
    var j := SkipSpaces(s, i);
    if j < |s| && s[j] !in PUNCTUATION {
      WordOrNumberWithin(s, j);
      var w := WordOrNumber(s, j);
      if w.Ok? && w.value.None? && s[j] == '(' {
        GroupWithin(s, j, true, [], j + 1);
      }
    }
  }

  lemma {:induction false} GroupWithin(s: seq<char>, start: nat, nested: bool, acc: seq<Token>, i: nat)
    requires start <= i <= |s|
    ensures GroupSpec(s, start, nested, acc, i).Err? ==> ErrorWithin(GroupSpec(s, start, nested, acc, i).error, |s|)
    decreases |s| - i, 1
  {
    if !(nested && CharAt(s, i) == Some(')')) {
      NextTokenWithin(s, i);
      var n := NextTokenSpec(s, i);
      if n.Ok? && n.value.0.Some? {
        GroupWithin(s, start, nested, acc + [n.value.0.value], n.value.1);
      }
    }
  }

  /** Every lexer error underlines text of the declaration, or the column
      just after it. */
  lemma LexErrorWithin(s: seq<char>)
    ensures Lex(s).Err? ==> ErrorWithin(Lex(s).error, |s|)
  {
    GroupWithin(s, 0, false, [], 0);
  }

  // ---------------------------------------------------------------------
  // The tokens the lexer produces
  // ---------------------------------------------------------------------

  lemma {:induction false} CoversWithin(s: seq<char>, t: Token, lo: nat, hi: nat)
    requires LexProps.Covers(s, t, lo, hi)
    ensures TokenWithin(t, |s|)
    decreases Size(t), 0
  {
    if t.Group? {
      ItemsCoverWithin(s, t.items, lo + 1, hi - 1);
    }
  }

  lemma {:induction false} ItemsCoverWithin(s: seq<char>, items: seq<Token>, lo: nat, hi: nat)
    requires LexProps.ItemsCover(s, items, lo, hi)
    ensures ItemsWithin(items, |s|)
    decreases SizeAll(items), 1
  {
    if items != [] {
      CoversWithin(s, items[0], SkipSpaces(s, lo), End(items[0]));
      ItemsCoverWithin(s, items[1..], End(items[0]), hi);
      forall k | 0 < k < |items|
        ensures TokenWithin(items[k], |s|)
      {
        assert items[k] == items[1..][k - 1];
      }
    }
  }

  /** The tokens of a lexed declaration all lie within its text. */
  lemma LexedWithin(s: seq<char>, g: Token)
    requires LexProps.Lexed(s, g)
    ensures TokenWithin(g, |s|)
  {
    var e: nat :| e <= |s| && LexProps.ItemsCover(s, g.items, 0, e) && SkipSpaces(s, e) == |s|;
    ItemsCoverWithin(s, g.items, 0, e);
  }

  // ---------------------------------------------------------------------
  // The parser
  // ---------------------------------------------------------------------

  lemma TokSpanWithin(t: Token, n: nat)
    requires TokenWithin(t, n)
    ensures TokSpan(t).Some? ==> SpanWithin(TokSpan(t).value, n)
  {
  }

  lemma ErrorAtWithin(items: seq<Token>, i: nat, msg: string, n: nat)
    requires |items| > 0 && ItemsWithin(items, n)
    ensures ErrorWithin(ErrorAt(items, i, msg), n)
  {
    if i < |items| {
      TokSpanWithin(items[i], n);
    } else {
      TokSpanWithin(items[|items| - 1], n);
    }
  }

  lemma CheckVoidWithin(child: Option<Node>, voidTok: Option<Token>, n: nat)
    requires voidTok.Some? ==> TokenWithin(voidTok.value, n)
    ensures CheckVoid(child, voidTok).Err? ==> ErrorWithin(CheckVoid(child, voidTok).error, n)
  {
    if voidTok.Some? {
      TokSpanWithin(voidTok.value, n);
    }
  }

  lemma NameOrGroupWithin(items: seq<Token>, i: nat, n: nat)
    requires 0 < |items| && i <= |items| && ItemsWithin(items, n)
    ensures NameOrGroup(items, i).Err? ==> ErrorWithin(NameOrGroup(items, i).error, n)
  {
    if i < |items| && IsName(items[i]) && items[i].text in KEYWORDS {
      ErrorAtWithin(items, i, "cannot use '" + items[i].text + "' as an identifier", n);
    }
  }

  lemma {:induction false} DimensionsWithin(items: seq<Token>, i: nat, dims: seq<Option<nat>>, n: nat)
    requires 0 < |items| && i <= |items| && ItemsWithin(items, n)
    ensures Dimensions(items, i, dims).Err? ==> ErrorWithin(Dimensions(items, i, dims).error, n)
    decreases |items| - i
  {
    if i < |items| && IsPunct(items[i], "[") {
      var j := i + 1;
      ErrorAtWithin(items, j, "expected another token", n);
      if j < |items| {
        if IsNum(items[j]) {
          ErrorAtWithin(items, j + 1, "expected another token", n);
          ErrorAtWithin(items, j + 1, "expected ]", n);
          var num := GetNum(items[j]);
          if num.Ok? && j + 1 < |items| && IsPunct(items[j + 1], "]") {
            DimensionsWithin(items, j + 2, dims + [Some(num.value)], n);
          }
        } else {
          ErrorAtWithin(items, j, "expected ]", n);
          if IsPunct(items[j], "]") {
            DimensionsWithin(items, j + 1, dims + [None], n);
          }
        }
      }
    }
  }

  lemma {:induction false} WrapArraysWithin(dims: seq<Option<nat>>, child: Option<Node>, voidTok: Option<Token>, n: nat)
    requires voidTok.Some? ==> TokenWithin(voidTok.value, n)
    ensures WrapArrays(dims, child, voidTok).Err? ==> ErrorWithin(WrapArrays(dims, child, voidTok).error, n)
    decreases |dims|
  {
    if dims != [] {
      if child.None? {
        if voidTok.Some? {
          TokSpanWithin(voidTok.value, n);
        }
      } else {
        var arr := ArrayNode(child, dims[|dims| - 1]);
        var arr' := if child.value.Function? then AddWarning(arr, ARRAY_OF_FUNCTIONS) else arr;
        WrapArraysWithin(dims[..|dims| - 1], Some(arr'), voidTok, n);
      }
    }
  }

  lemma {:induction false} GroupErrorWithin(t: Token, child: Option<Node>, n: nat)
    requires t.Group? && TokenWithin(t, n)
    ensures ParseGroup(t, child).Err? ==> ErrorWithin(ParseGroup(t, child).error, n)
    decreases Size(t), 4, 0
  {
    if |t.items| > 0 {
      ItemsErrorWithin(t.items, child, n);
    }
  }

  lemma {:induction false} ItemsErrorWithin(items: seq<Token>, child: Option<Node>, n: nat)
    requires |items| > 0 && ItemsWithin(items, n)
    ensures ParseItems(items, child).Err? ==> ErrorWithin(ParseItems(items, child).error, n)
    decreases SizeAll(items) + 1, 3, 0
  {
    if child.None? {
      var t := items[0];
      if !IsType(t) {
        ErrorAtWithin(items, 0, "expected a type name", n);
      } else {
        var voidTok := if t.text == "void" then Some(t) else None;
        var base := if t.text == "void" then None else Some(TypeNode(t));
        if |items| == 1 {
          CheckVoidWithin(base, voidTok, n);
        } else {
          DeclaratorErrorWithin(items, 1, base, voidTok, n);
        }
      }
    } else {
      DeclaratorErrorWithin(items, 0, child, None, n);
    }
  }

  lemma {:induction false} DeclaratorErrorWithin(items: seq<Token>, i: nat, child: Option<Node>,
                                                voidTok: Option<Token>, n: nat)
    requires 0 < |items| && i <= |items| && ItemsWithin(items, n)
    requires voidTok.Some? ==> TokenWithin(voidTok.value, n)
    ensures Declarator(items, i, child, voidTok).Err? ==> ErrorWithin(Declarator(items, i, child, voidTok).error, n)
    decreases SizeAll(items) + 1, 2, 0
  {
    var (j, pointed) := Pointers(items, i, child);
    NameOrGroupWithin(items, j, n);
    var nr := NameOrGroup(items, j);
    if nr.Ok? {
      var (k, parent) := nr.value;
      ParamListWithin(items, k, n);
      var pr := ParamList(items, k);
      if pr.Ok? {
        var (l, params) := pr.value;
        DimensionsWithin(items, l, [], n);
        var dr := Dimensions(items, l, []);
        if dr.Ok? {
          var (m, dims) := dr.value;
          WrapArraysWithin(dims, pointed, voidTok, n);
          ErrorAtWithin(items, m, "unexpected tokens", n);
          var ar := WrapArrays(dims, pointed, voidTok);
          if ar.Ok? && m >= |items| {
            var func := if params.Some? then Some(WrapFunction(ar.value, params.value)) else ar.value;
            if parent.Some? {
              var g :| 0 <= g < |items| && items[g] == parent.value;
              MemberSize(items, parent.value);
              GroupErrorWithin(parent.value, func, n);
              var r := ParseGroup(parent.value, func);
              if r.Ok? {
                CheckVoidWithin(Some(r.value), voidTok, n);
              }
            } else {
              CheckVoidWithin(func, voidTok, n);
            }
          }
        }
      }
    }
  }

  lemma {:induction false} ParamListWithin(items: seq<Token>, k: nat, n: nat)
    requires 0 < |items| && k <= |items| && ItemsWithin(items, n)
    ensures ParamList(items, k).Err? ==> ErrorWithin(ParamList(items, k).error, n)
    decreases SizeAll(items) + 1, 1, 0
  {
    if k < |items| && IsGroup(items[k]) {
      var pg := items[k].items;
      assert TokenWithin(items[k], n);
      if |pg| > 0 && !(|pg| == 1 && IsPunct(pg[0], "void")) {
        SizeAllSlice(items, k, |items|);
        ParamsWithin(pg, 0, [], n);
      }
    }
  }

  lemma {:induction false} ParamsWithin(pg: seq<Token>, i: nat, acc: seq<Node>, n: nat)
    requires i <= |pg| && ItemsWithin(pg, n)
    ensures ParseParams(pg, i, acc).Err? ==> ErrorWithin(ParseParams(pg, i, acc).error, n)
    decreases SizeAll(pg) + 1, 6, |pg| - i
  {
    if i < |pg| {
      var j := CommaAt(pg, i);
      SizeAllSlice(pg, i, j);
      ParamWithin(pg[i..j], n);
      var nr := ParseParam(pg[i..j]);
      if nr.Ok? {
        ParamsWithin(pg, if j < |pg| then j + 1 else j, acc + [nr.value], n);
      }
    }
  }

  lemma {:induction false} ParamWithin(param: seq<Token>, n: nat)
    requires ItemsWithin(param, n)
    ensures ParseParam(param).Err? ==> ErrorWithin(ParseParam(param).error, n)
    decreases SizeAll(param) + 1, 5, 0
  {
    GroupErrorWithin(Group(None, param), None, n);
  }

  /** Every error from a declaration, the lexer's or the parser's,
      underlines text of the declaration or the column just after it. */
  lemma DeclarationErrorWithin(s: string)
    ensures Declaration(s).Err? ==> ErrorWithin(Declaration(s).error, |s|)
  {
    LexErrorWithin(s);
    if Lex(s).Ok? {
      LexProps.LexCovers(s);
      LexedWithin(s, Lex(s).value);
      GroupErrorWithin(Lex(s).value, None, |s|);
    }
  }
}
