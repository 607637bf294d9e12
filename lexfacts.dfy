/** The lexer's folding rules stated on the input and on the words it
    reads: what `* const` and `long ...` become, and which characters and
    parentheses it refuses. */
module LexFacts {
  import opened Base
  import opened Tokens
  import opened LexSpec

  /** `w` is an identifier. */
  predicate IsWord(w: string) {
    |w| > 0 && IsIdentStart(w[0]) && forall k :: 0 < k < |w| ==> IsIdentChar(w[k])
  }

  /** The word `w` is spelled at `k` and no identifier character follows. */
  predicate WordAt(s: seq<char>, k: nat, w: string) {
    k + |w| <= |s| && s[k..k + |w|] == w && (k + |w| == |s| || !IsIdentChar(s[k + |w|]))
  }

  lemma {:induction false} IdentEndAt(s: seq<char>, a: nat, b: nat)
    requires a <= b <= |s|
    requires forall k :: a <= k < b ==> IsIdentChar(s[k])
    requires b == |s| || !IsIdentChar(s[b])
    ensures IdentEnd(s, a) == b
    decreases b - a
  {
    if a < b {
      IdentEndAt(s, a + 1, b);
    }
  }

  /** Reading an identifier after whitespace yields exactly the word
      spelled there; and whatever it yields is spelled there. */
  lemma ReadWord(s: seq<char>, i: nat, w: string)
    requires i <= |s| && IsWord(w)
    ensures var k := SkipSpaces(s, i);
      WordAt(s, k, w) <==> ReadIdent(s, i) == (Some(NewLeaf(k, w)), k + |w|)
  {
    var k := SkipSpaces(s, i);
    if WordAt(s, k, w) {
      forall m | k + 1 <= m < k + |w|
        ensures IsIdentChar(s[m])
      {
        assert s[m] == w[m - k];
      }
      IdentEndAt(s, k + 1, k + |w|);
    }
  }

  /** `*` followed by the word `const` is one `*` token flagged `const`
      and spanning both; any other continuation leaves a bare `*` of
      length 1 with the cursor just after it. */
  lemma StarConst(s: seq<char>, j: nat)
    requires j < |s| && s[j] == '*'
    ensures var (t, c) := Punctuation(s, j); var k := SkipSpaces(s, j + 1);
      (WordAt(s, k, "const") ==> t == Leaf(j, "*", k + 5 - j, ["const"]) && c == k + 5)
      && (!WordAt(s, k, "const") ==> t == Leaf(j, "*", 1, []) && c == j + 1)
  {
    var k := SkipSpaces(s, j + 1);
    ReadWord(s, j + 1, "const");
    if WordAt(s, k, "const") {
      var (ident, c) := ReadIdent(s, j + 1);
      assert ident == Some(NewLeaf(k, "const")) && c == k + 5;
      assert ident.value.text == "const";
    } else {
      ConstIsWord(s, j + 1);
      assert Punctuation(s, j) == (NewLeaf(j, "*"), j + 1);
    }
  }

  /** An identifier read as `const` is the word `const` standing alone. */
  lemma ConstIsWord(s: seq<char>, i: nat)
    requires i <= |s|
    ensures ReadIdent(s, i).0.Some? && ReadIdent(s, i).0.value.text == "const"
            ==> WordAt(s, SkipSpaces(s, i), "const")
  {
    ReadWord(s, i, "const");
    var (ident, c) := ReadIdent(s, i);
    if ident.Some? && ident.value.text == "const" {
      assert ident.value == NewLeaf(SkipSpaces(s, i), "const");
    }
  }

  /** The word among `double`, `long` and `int` spelled at `k`, if any. */
  function LongSuffix(s: seq<char>, k: nat): (w: Option<string>)
    ensures w.Some? ==> w.value in LONGTYPES && WordAt(s, k, w.value)
  {
    if WordAt(s, k, "double") then Some("double")
    else if WordAt(s, k, "long") then Some("long")
    else if WordAt(s, k, "int") then Some("int")
    else None
  }

  /** `long` followed by `double`, `long` or `int` folds into the
      two-word type spanning both words; anything else, and any other type
      word, leaves the token and the cursor as they were. */
  lemma LongFold(s: seq<char>, tok: Token, i: nat)
    requires tok.Leaf? && tok.start <= i <= |s|
    ensures var (t, c) := PrimType(s, tok, i); var k := SkipSpaces(s, i);
      (tok.text == "long" && LongSuffix(s, k).Some? ==>
         var w := LongSuffix(s, k).value;
         t == tok.(text := "long " + w, length := k + |w| - tok.start) && c == k + |w|)
      && (tok.text != "long" || LongSuffix(s, k).None? ==> (t, c) == (tok, i))
  {
    var k := SkipSpaces(s, i);
    if tok.text == "long" {
      ReadWord(s, i, "double");
      ReadWord(s, i, "long");
      ReadWord(s, i, "int");
      var (next, c) := ReadIdent(s, i);
      if next.Some? && next.value.text in LONGTYPES {
        assert WordAt(s, k, next.value.text);
      }
    }
  }

  /** A `)` where a token should start is unmatched; any other character
      that starts no token is invalid.  Both underline that character. */
  lemma StrayCharacter(s: seq<char>, i: nat)
    requires i <= |s|
    requires var j := SkipSpaces(s, i);
      j < |s| && s[j] !in PUNCTUATION && !IsIdentStart(s[j]) && !IsDigit(s[j]) && s[j] != '('
    ensures var j := SkipSpaces(s, i);
      NextTokenSpec(s, i) == Err(LexerError(if s[j] == ')' then "unmatched )" else "invalid character", Some(Span(j, 1))))
  {
  }

  /** The closing parenthesis is looked for before whitespace is skipped,
      so whitespace in front of it makes the `)` unmatched. */
  lemma SpaceBeforeClose(s: seq<char>, start: nat, acc: seq<Token>, i: nat)
    requires start <= i < |s| && IsSpace(s[i])
    requires SkipSpaces(s, i) < |s| && s[SkipSpaces(s, i)] == ')'
    ensures GroupSpec(s, start, true, acc, i) == Err(LexerError("unmatched )", Some(Span(SkipSpaces(s, i), 1))))
  {
    StrayCharacter(s, i);
  }

  /** A parenthesised group with no `)` anywhere after it cannot be
      closed: lexing it fails with "expected closing )", which has no
      caret, unless a token read on the way fails first. */
  lemma {:induction false} Unclosed(s: seq<char>, start: nat, acc: seq<Token>, i: nat)
    requires start <= i <= |s|
    requires forall k :: i <= k < |s| ==> s[k] != ')'
    ensures var r := GroupSpec(s, start, true, acc, i);
      r.Err? && (r.error == LexerError("expected closing )", None)
                 || exists k :: i <= k <= |s| && NextTokenSpec(s, k).Err? && r.error == NextTokenSpec(s, k).error)
    decreases |s| - i
  {
    var r := NextTokenSpec(s, i);
    if r.Err? {
      var g := GroupSpec(s, start, true, acc, i);
      assert g == Err(r.error);
      assert exists k :: i <= k <= |s| && NextTokenSpec(s, k).Err? && g.error == NextTokenSpec(s, k).error;
    } else if r.value.0.Some? {
      var j := r.value.1;
      Unclosed(s, start, acc + [r.value.0.value], j);
      var g := GroupSpec(s, start, true, acc + [r.value.0.value], j);
      assert GroupSpec(s, start, true, acc, i) == g;
      if g.error != LexerError("expected closing )", None) {
        var k :| j <= k <= |s| && NextTokenSpec(s, k).Err? && g.error == NextTokenSpec(s, k).error;
      }
    }
  }
}
