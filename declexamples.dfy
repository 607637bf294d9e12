/** Whole declarations, from the text to the tree: lexing the text yields
    exactly the token group that `ParseExamples` parses, so the trees and
    errors there are those of the declaration itself.  The first lemmas
    are the steps of `next_token` on the kinds of token these texts
    contain. */
module DeclarationExamples {
  import opened Base
  import opened Tokens
  import opened Ast
  import opened LexSpec
  import opened ParseSpec
  import LexFacts
  import ModifierFacts
  import Lexing
  import opened ParseExamples

  // ---------------------------------------------------------------------
  // One token each
  // ---------------------------------------------------------------------

  /** Whitespace before a token does not change what `next_token` reads. */
  lemma SpaceToken(s: seq<char>, i: nat)
    requires i < |s| && IsSpace(s[i])
    ensures NextTokenSpec(s, i) == NextTokenSpec(s, i + 1)
  {
    assert SkipSpaces(s, i) == SkipSpaces(s, i + 1);
  }

  /** A word with no whitespace before it is read as it is spelled. */
  lemma WordRead(s: seq<char>, i: nat, e: nat)
    requires i < e <= |s| && IsIdentStart(s[i]) && (e == |s| || !IsIdentChar(s[e]))
    requires forall k :: i < k < e ==> IsIdentChar(s[k])
    ensures SkipSpaces(s, i) == i && ReadIdent(s, i) == (Some(NewLeaf(i, s[i..e])), e)
  {
    assert SkipSpaces(s, i) == i;
    LexFacts.IdentEndAt(s, i + 1, e);
  }

  /** A primitive type other than `long`, read from where it starts, is a
      token of its own. */
  lemma PrimToken(s: seq<char>, i: nat, w: string, c: nat)
    requires i < |s| && SkipSpaces(s, i) == i && ReadIdent(s, i) == (Some(NewLeaf(i, w)), c)
    requires w in PRIMTYPES && w != "long"
    ensures NextTokenSpec(s, i) == Ok((Some(NewLeaf(i, w)), c))
  {
    assert w in KEYWORDS;
    ModifierFacts.KeywordToken(s, i);
    ModifierFacts.PrimKept(s, NewLeaf(i, w), c);
  }

  /** A one-letter name is a token of its own: no keyword is that short. */
  lemma LetterToken(s: seq<char>, i: nat)
    requires i < |s| && IsAlpha(s[i]) && (i + 1 == |s| || !IsIdentChar(s[i + 1]))
    ensures NextTokenSpec(s, i) == Ok((Some(NewLeaf(i, [s[i]])), i + 1))
  {
    assert SkipSpaces(s, i) == i;
    assert ReadIdent(s, i) == (Some(NewLeaf(i, [s[i]])), i + 1) by {
      assert IdentEnd(s, i + 1) == i + 1;
      assert s[i..i + 1] == [s[i]];
    }
    assert [s[i]] !in KEYWORDS by {
      assert forall k :: 0 <= k < |KEYWORDS| ==> |KEYWORDS[k]| > 1;
    }
    NameNext(s, i, NewLeaf(i, [s[i]]), i + 1);
  }

  /** A word that is not a keyword, read from where it starts, is the
      token `next_token` returns. */
  lemma NameNext(s: seq<char>, i: nat, t: Token, c: nat)
    requires i < |s| && SkipSpaces(s, i) == i && ReadIdent(s, i) == (Some(t), c) && t.text !in KEYWORDS
    ensures NextTokenSpec(s, i) == Ok((Some(t), c))
  {
    ModifierFacts.WordAtCursor(s, i);
    NameIsToken(s, i, t, c);
    ModifierFacts.NextIsWord(s, i);
  }

  lemma NameIsToken(s: seq<char>, j: nat, t: Token, c: nat)
    requires j < |s| && ReadIdent(s, j) == (Some(t), c) && t.text !in KEYWORDS
    ensures WordOrNumber(s, j) == Ok(Some((t, c)))
  {
  }

  /** A punctuation character is a token of its own, unless it is a `*`
      that `const` follows. */
  lemma PunctToken(s: seq<char>, i: nat)
    requires i < |s| && s[i] in PUNCTUATION
    requires s[i] == '*' ==> i + 1 == |s| || (!IsSpace(s[i + 1]) && s[i + 1] != 'c')
    ensures NextTokenSpec(s, i) == Ok((Some(NewLeaf(i, [s[i]])), i + 1))
  {
    assert SkipSpaces(s, i) == i;
    if s[i] == '*' {
      if i + 1 < |s| {
        assert SkipSpaces(s, i + 1) == i + 1;
        assert !LexFacts.WordAt(s, i + 1, "const") by {
          if i + 6 <= |s| { assert s[i + 1..i + 6][0] == s[i + 1]; }
        }
      }
      LexFacts.StarConst(s, i);
    }
  }

  /** A run of digits is a number token. */
  lemma NumberToken(s: seq<char>, i: nat, e: nat)
    requires i < |s| && IsDigit(s[i]) && i < e && DigitsEnd(s, i + 1) == e
    ensures NextTokenSpec(s, i) == Ok((Some(NewLeaf(i, s[i..e])), e))
  {
    assert SkipSpaces(s, i) == i;
  }

  /** A `(` is a token: the whole group up to its `)`. */
  lemma NestedToken(s: seq<char>, j: nat, g: Token, c: nat)
    requires j < |s| && s[j] == '(' && GroupSpec(s, j, true, [], j + 1) == Ok((g, c))
    ensures NextTokenSpec(s, j) == Ok((Some(g), c))
  {
    assert SkipSpaces(s, j) == j;
    NoWord(s, j);
  }

  /** Neither a word nor a number starts at a character that cannot
      begin one. */
  lemma NoWord(s: seq<char>, j: nat)
    requires j < |s| && !IsSpace(s[j]) && !IsIdentStart(s[j]) && !IsDigit(s[j])
    ensures WordOrNumber(s, j) == Ok(None)
  {
    assert SkipSpaces(s, j) == j;
    assert ReadIdent(s, j).0.None?;
  }

  // ---------------------------------------------------------------------
  // A run of tokens
  // ---------------------------------------------------------------------

  /** `next_token` at `i` reads `t` and stops at `c`, and `i` is not a `)`
      that would close the group first. */
  ghost predicate ReadAt(s: seq<char>, nested: bool, i: nat, t: Token, c: nat) {
    i <= |s| && !(nested && CharAt(s, i) == Some(')')) && NextTokenSpec(s, i) == Ok((Some(t), c))
  }

  /** A token read where the group has got to joins the group. */
  lemma StepRead(s: seq<char>, start: nat, nested: bool, acc: seq<Token>, i: nat, t: Token, c: nat,
                 acc': seq<Token>)
    requires start <= i && ReadAt(s, nested, i, t, c) && acc' == acc + [t]
    ensures start <= c <= |s|
    ensures GroupSpec(s, start, nested, acc, i) == GroupSpec(s, start, nested, acc', c)
  {
    Lexing.GroupStep(s, start, nested, acc, i);
  }

  /** Two tokens read one after the other join the group in that order. */
  lemma TwoReads(s: seq<char>, start: nat, nested: bool, acc: seq<Token>, i: nat,
                 t1: Token, c1: nat, t2: Token, c2: nat, acc': seq<Token>)
    requires start <= i && ReadAt(s, nested, i, t1, c1) && ReadAt(s, nested, c1, t2, c2)
    requires acc' == acc + [t1, t2]
    ensures start <= c2 <= |s|
    ensures GroupSpec(s, start, nested, acc, i) == GroupSpec(s, start, nested, acc', c2)
  {
    StepRead(s, start, nested, acc, i, t1, c1, acc + [t1]);
    StepRead(s, start, nested, acc + [t1], c1, t2, c2, acc');
  }

  /** Whitespace before a token is skipped. */
  lemma SpaceRead(s: seq<char>, nested: bool, i: nat, t: Token, c: nat)
    requires i < |s| && IsSpace(s[i]) && ReadAt(s, nested, i + 1, t, c)
    ensures ReadAt(s, nested, i, t, c)
  {
    SpaceToken(s, i);
  }

  /** A parenthesised group is read as one token. */
  lemma GroupRead(s: seq<char>, i: nat, g: Token, c: nat)
    requires i < |s| && s[i] == '(' && GroupSpec(s, i, true, [], i + 1) == Ok((g, c))
    ensures ReadAt(s, false, i, g, c)
  {
    NestedToken(s, i, g, c);
  }

  /** A nested group ends at its `)`. */
  lemma CloseGroup(s: seq<char>, start: nat, acc: seq<Token>, i: nat)
    requires start <= i < |s| && s[i] == ')'
    ensures GroupSpec(s, start, true, acc, i) == Ok((Group(Some(Span(start, i + 1 - start)), acc), i + 1))
  {
  }

  /** The top-level group ends where the text does. */
  lemma TopEnd(s: seq<char>, ts: seq<Token>)
    ensures GroupSpec(s, 0, false, ts, |s|) == Ok((Group(Some(Span(0, |s|)), ts), |s|))
  {
    assert SkipSpaces(s, |s|) == |s|;
    Lexing.GroupStep(s, 0, false, ts, |s|);
  }

  // ---------------------------------------------------------------------
  // Lexing the declarations
  // ---------------------------------------------------------------------

  /** `s` has the characters of `w`, one by one.  The lemmas below read
      their text through this rather than through `s == w`, so that each
      step of the lexer is taken on the characters it looks at. */
  ghost predicate Spells(s: seq<char>, w: string) {
    |s| == |w| && forall k :: 0 <= k < |w| ==> s[k] == w[k]
  }

  const VOID_PTR: string := "void *p"
  const CHAR_PTR_ARRAY: string := "char *p[10]"
  const FUNC_PTR: string := "int (*f)(char, int*)"

  lemma LexVoid(s: string)
    requires s == "void"
    ensures Lex(s) == Ok(Group(Some(Span(0, 4)), [L(0, "void")]))
  {
    WordRead(s, 0, 4);
    assert s[0..4] == "void";
    PrimToken(s, 0, "void", 4);
    StepRead(s, 0, false, [], 0, L(0, "void"), 4, [L(0, "void")]);
    TopEnd(s, [L(0, "void")]);
  }

  lemma VoidPointerVoid(s: string)
    requires Spells(s, VOID_PTR)
    ensures ReadAt(s, false, 0, L(0, "void"), 4)
  {
    WordRead(s, 0, 4);
    assert s[0..4] == "void";
    PrimToken(s, 0, "void", 4);
  }

  lemma VoidPointerStar(s: string)
    requires Spells(s, VOID_PTR)
    ensures ReadAt(s, false, 4, L(5, "*"), 6) && ReadAt(s, false, 6, L(6, "p"), 7)
  {
    SpaceToken(s, 4);
    PunctToken(s, 5);
    LetterToken(s, 6);
  }

  /** The tokens of `void *p`, one after another, make its group. */
  lemma VoidPointerJoin(s: seq<char>)
    requires ReadAt(s, false, 0, L(0, "void"), 4) && ReadAt(s, false, 4, L(5, "*"), 6)
    requires ReadAt(s, false, 6, L(6, "p"), 7) && |s| == 7
    ensures Lex(s) == Ok(Group(Some(Span(0, 7)), [L(0, "void"), L(5, "*"), L(6, "p")]))
  {
    StepRead(s, 0, false, [], 0, L(0, "void"), 4, [L(0, "void")]);
    TwoReads(s, 0, false, [L(0, "void")], 4, L(5, "*"), 6, L(6, "p"), 7, [L(0, "void"), L(5, "*"), L(6, "p")]);
    TopEnd(s, [L(0, "void"), L(5, "*"), L(6, "p")]);
  }

  lemma LexVoidPointer(s: string)
    requires Spells(s, VOID_PTR)
    ensures Lex(s) == Ok(Group(Some(Span(0, 7)), [L(0, "void"), L(5, "*"), L(6, "p")]))
  {
    VoidPointerVoid(s);
    VoidPointerStar(s);
    VoidPointerJoin(s);
  }

  lemma CharPointerArrayChar(s: string)
    requires Spells(s, CHAR_PTR_ARRAY)
    ensures ReadAt(s, false, 0, L(0, "char"), 4)
  {
    WordRead(s, 0, 4);
    assert s[0..4] == "char";
    PrimToken(s, 0, "char", 4);
  }

  lemma CharPointerArrayStar(s: string)
    requires Spells(s, CHAR_PTR_ARRAY)
    ensures ReadAt(s, false, 4, L(5, "*"), 6) && ReadAt(s, false, 6, L(6, "p"), 7)
  {
    SpaceToken(s, 4);
    PunctToken(s, 5);
    LetterToken(s, 6);
  }

  lemma CharPointerArrayDimension(s: string)
    requires Spells(s, CHAR_PTR_ARRAY)
    ensures ReadAt(s, false, 7, L(7, "["), 8) && ReadAt(s, false, 8, L(8, "10"), 10)
    ensures ReadAt(s, false, 10, L(10, "]"), 11)
  {
    PunctToken(s, 7);
    assert DigitsEnd(s, 9) == 10;
    NumberToken(s, 8, 10);
    assert s[8..10] == "10";
    PunctToken(s, 10);
  }

  /** The tokens of `char *p[10]`, one after another, make its group. */
  lemma CharPointerArrayJoin(s: seq<char>)
    requires ReadAt(s, false, 0, L(0, "char"), 4) && ReadAt(s, false, 4, L(5, "*"), 6)
    requires ReadAt(s, false, 6, L(6, "p"), 7) && ReadAt(s, false, 7, L(7, "["), 8)
    requires ReadAt(s, false, 8, L(8, "10"), 10) && ReadAt(s, false, 10, L(10, "]"), 11)
    requires |s| == 11
    ensures Lex(s) == Ok(Group(Some(Span(0, 11)), [L(0, "char"), L(5, "*"), L(6, "p"), L(7, "["), L(8, "10"), L(10, "]")]))
  {
    TwoReads(s, 0, false, [], 0, L(0, "char"), 4, L(5, "*"), 6, [L(0, "char"), L(5, "*")]);
    TwoReads(s, 0, false, [L(0, "char"), L(5, "*")], 6, L(6, "p"), 7, L(7, "["), 8,
             [L(0, "char"), L(5, "*"), L(6, "p"), L(7, "[")]);
    TwoReads(s, 0, false, [L(0, "char"), L(5, "*"), L(6, "p"), L(7, "[")], 8, L(8, "10"), 10, L(10, "]"), 11,
             [L(0, "char"), L(5, "*"), L(6, "p"), L(7, "["), L(8, "10"), L(10, "]")]);
    TopEnd(s, [L(0, "char"), L(5, "*"), L(6, "p"), L(7, "["), L(8, "10"), L(10, "]")]);
  }

  lemma LexCharPointerArray(s: string)
    requires Spells(s, CHAR_PTR_ARRAY)
    ensures Lex(s) == Ok(Group(Some(Span(0, 11)), [L(0, "char"), L(5, "*"), L(6, "p"), L(7, "["), L(8, "10"), L(10, "]")]))
  {
    CharPointerArrayChar(s);
    CharPointerArrayStar(s);
    CharPointerArrayDimension(s);
    CharPointerArrayJoin(s);
  }

  lemma FunctionPointerStarF(s: string)
    requires Spells(s, FUNC_PTR)
    ensures ReadAt(s, true, 5, L(5, "*"), 6) && ReadAt(s, true, 6, L(6, "f"), 7)
    ensures s[4] == '(' && s[7] == ')'
  {
    PunctToken(s, 5);
    LetterToken(s, 6);
  }

  /** The tokens of `(*f)`, one after another, make the group `(*f)` of
      `int (*f)(char, int*)`. */
  lemma FunctionPointerNameJoin(s: seq<char>)
    requires ReadAt(s, true, 5, L(5, "*"), 6) && ReadAt(s, true, 6, L(6, "f"), 7)
    requires 7 < |s| && s[7] == ')'
    ensures GroupSpec(s, 4, true, [], 5) == Ok((Group(Some(Span(4, 4)), [L(5, "*"), L(6, "f")]), 8))
  {
    TwoReads(s, 4, true, [], 5, L(5, "*"), 6, L(6, "f"), 7, [L(5, "*"), L(6, "f")]);
    CloseGroup(s, 4, [L(5, "*"), L(6, "f")], 7);
  }

  lemma FunctionPointerChar(s: string)
    requires Spells(s, FUNC_PTR)
    ensures ReadAt(s, true, 9, L(9, "char"), 13) && ReadAt(s, true, 13, L(13, ","), 14)
  {
    WordRead(s, 9, 13);
    assert s[9..13] == "char";
    PrimToken(s, 9, "char", 13);
    PunctToken(s, 13);
  }

  lemma FunctionPointerInt(s: string)
    requires Spells(s, FUNC_PTR)
    ensures ReadAt(s, true, 14, L(15, "int"), 18)
  {
    WordRead(s, 15, 18);
    assert s[15..18] == "int";
    PrimToken(s, 15, "int", 18);
    SpaceRead(s, true, 14, L(15, "int"), 18);
  }

  lemma FunctionPointerStar(s: string)
    requires Spells(s, FUNC_PTR)
    ensures ReadAt(s, true, 18, L(18, "*"), 19)
    ensures s[8] == '(' && s[19] == ')'
  {
    PunctToken(s, 18);
  }

  /** The tokens of `(char, int*)`, one after another, make the parameter
      group of `int (*f)(char, int*)`. */
  lemma FunctionPointerParamsJoin(s: seq<char>)
    requires ReadAt(s, true, 9, L(9, "char"), 13) && ReadAt(s, true, 13, L(13, ","), 14)
    requires ReadAt(s, true, 14, L(15, "int"), 18) && ReadAt(s, true, 18, L(18, "*"), 19)
    requires 19 < |s| && s[19] == ')'
    ensures GroupSpec(s, 8, true, [], 9)
         == Ok((Group(Some(Span(8, 12)), [L(9, "char"), L(13, ","), L(15, "int"), L(18, "*")]), 20))
  {
    TwoReads(s, 8, true, [], 9, L(9, "char"), 13, L(13, ","), 14, [L(9, "char"), L(13, ",")]);
    TwoReads(s, 8, true, [L(9, "char"), L(13, ",")], 14, L(15, "int"), 18, L(18, "*"), 19,
             [L(9, "char"), L(13, ","), L(15, "int"), L(18, "*")]);
    CloseGroup(s, 8, [L(9, "char"), L(13, ","), L(15, "int"), L(18, "*")], 19);
  }

  lemma FunctionPointerInt0(s: string)
    requires Spells(s, FUNC_PTR)
    ensures ReadAt(s, false, 0, L(0, "int"), 3)
    ensures |s| == 20 && IsSpace(s[3])
  {
    WordRead(s, 0, 3);
    assert s[0..3] == "int";
    PrimToken(s, 0, "int", 3);
  }

  /** The tokens of `int (*f)(char, int*)`, one after another, make its
      group: the type, then the two parenthesised groups. */
  lemma FunctionPointerJoin(s: seq<char>, g1: Token, g2: Token)
    requires ReadAt(s, false, 0, L(0, "int"), 3) && |s| == 20 && IsSpace(s[3]) && s[4] == '(' && s[8] == '('
    requires ReadAt(s, true, 5, L(5, "*"), 6) && ReadAt(s, true, 6, L(6, "f"), 7) && s[7] == ')'
    requires ReadAt(s, true, 9, L(9, "char"), 13) && ReadAt(s, true, 13, L(13, ","), 14)
    requires ReadAt(s, true, 14, L(15, "int"), 18) && ReadAt(s, true, 18, L(18, "*"), 19) && s[19] == ')'
    requires g1 == Group(Some(Span(4, 4)), [L(5, "*"), L(6, "f")])
    requires g2 == Group(Some(Span(8, 12)), [L(9, "char"), L(13, ","), L(15, "int"), L(18, "*")])
    ensures Lex(s) == Ok(Group(Some(Span(0, 20)), [L(0, "int"), g1, g2]))
  {
    FunctionPointerNameJoin(s);
    FunctionPointerParamsJoin(s);
    GroupRead(s, 4, g1, 8);
    SpaceRead(s, false, 3, g1, 8);
    GroupRead(s, 8, g2, 20);
    StepRead(s, 0, false, [], 0, L(0, "int"), 3, [L(0, "int")]);
    TwoReads(s, 0, false, [L(0, "int")], 3, g1, 8, g2, 20, [L(0, "int"), g1, g2]);
    TopEnd(s, [L(0, "int"), g1, g2]);
  }

  lemma LexFunctionPointer(s: string)
    requires Spells(s, FUNC_PTR)
    ensures Lex(s)
         == Ok(Group(Some(Span(0, 20)), [L(0, "int"), Group(Some(Span(4, 4)), [L(5, "*"), L(6, "f")]),
                                         Group(Some(Span(8, 12)), [L(9, "char"), L(13, ","), L(15, "int"), L(18, "*")])]))
  {
    var g1 := Group(Some(Span(4, 4)), [L(5, "*"), L(6, "f")]);
    var g2 := Group(Some(Span(8, 12)), [L(9, "char"), L(13, ","), L(15, "int"), L(18, "*")]);
    FunctionPointerInt0(s);
    FunctionPointerStarF(s);
    FunctionPointerChar(s);
    FunctionPointerInt(s);
    FunctionPointerStar(s);
    FunctionPointerJoin(s, g1, g2);
  }

  // ---------------------------------------------------------------------
  // From the text to the tree
  // ---------------------------------------------------------------------

  /** `void` alone is refused, underlining it. */
  lemma DeclareVoid()
    ensures Declaration("void") == Err(ParserError("void on its own is not a valid type", Some(Span(0, 4))))
  {
    LexVoid("void");
    ParseExamples.VoidAlone();
  }

  /** `void *p` is a pointer to void. */
  lemma DeclareVoidPointer()
    ensures Declaration(VOID_PTR) == Ok(Pointer(None, false, []))
  {
    LexVoidPointer(VOID_PTR);
    ParseExamples.VoidPointer();
  }

  /** `char *p[10]` is an array of ten pointers to char. */
  lemma DeclareCharPointerArray()
    ensures Declaration(CHAR_PTR_ARRAY) == Ok(Array(Some(Pointer(Some(Type("char", [], [])), false, [])), Some(10), []))
  {
    LexCharPointerArray(CHAR_PTR_ARRAY);
    ParseExamples.CharPointerArray();
  }

  /** `int (*f)(char, int*)` is a pointer to a function taking a char and
      a pointer to int and returning int. */
  lemma DeclareFunctionPointer()
    ensures Declaration(FUNC_PTR)
         == Ok(Pointer(Some(Function(Some(INT),
                                     Declared([Type("char", [], []), Pointer(Some(INT), false, [])]), [])),
                       false, []))
  {
    LexFunctionPointer(FUNC_PTR);
    ParseExamples.FunctionPointer();
  }
}
