/** What the lexer guarantees about the tokens it produces: every token
    covers exactly the text it consumed, groups nest inside their
    parentheses, and every leaf's modifier flags are consistent. */
module LexProps {
  import opened Base
  import opened Tokens
  import opened LexSpec
  import ModifierFacts

  const TWO_WORD_TYPES: seq<string> := ["long double", "long long", "long int"]

  /** The modifier flags of a lexed leaf: no repeats, only modifier words,
      never both `signed` and `unsigned`; `struct` only with `const` and a
      tag that is a name and not a keyword; and a leaf with flags is a type
      name or a `* const`. */
  ghost predicate LeafOk(t: Token)
    requires t.Leaf?
  {
    && Distinct(t.mods)
    && (forall m :: m in t.mods ==> m in MODIFIERS)
    && !("signed" in t.mods && "unsigned" in t.mods)
    && ("struct" in t.mods ==>
          IsName(t) && t.text !in KEYWORDS && forall m :: m in t.mods ==> m == "struct" || m == "const")
    && (t.mods != [] ==> IsType(t) || (t.text == "*" && t.mods == ["const"]))
  }

  /** `t` was lexed from exactly `s[lo..hi]`.  A leaf without flags that is
      not a folded two-word type spells its own text; a group spans its
      parentheses and its items cover what lies between them. */
  ghost predicate Covers(s: seq<char>, t: Token, lo: nat, hi: nat)
    decreases Size(t), 0
  {
    lo < hi <= |s| &&
    match t
    case Leaf(start, text, length, mods) =>
      start == lo && start + length == hi && LeafOk(t)
      && (mods == [] && text !in TWO_WORD_TYPES ==> text == s[lo..hi])
    case Group(span, items) =>
      span == Some(Span(lo, hi - lo)) && s[lo] == '(' && s[hi - 1] == ')'
      && ItemsCover(s, items, lo + 1, hi - 1)
  }

  /** `items` were lexed one after another from `s[lo..hi]`, each after
      optional whitespace, the last one ending exactly at `hi`. */
  ghost predicate ItemsCover(s: seq<char>, items: seq<Token>, lo: nat, hi: nat)
    decreases SizeAll(items), 1
  {
    lo <= hi <= |s| &&
    if items == [] then lo == hi
    else
      var a := SkipSpaces(s, lo);
      Covers(s, items[0], a, End(items[0])) && ItemsCover(s, items[1..], End(items[0]), hi)
  }

  /** A lexed declaration: the top-level group spans the whole text and its
      items cover it up to trailing whitespace. */
  ghost predicate Lexed(s: seq<char>, g: Token) {
    g.Group? && g.span == Some(Span(0, |s|))
    && exists e: nat :: e <= |s| && ItemsCover(s, g.items, 0, e) && SkipSpaces(s, e) == |s|
  }

  lemma CoversEnd(s: seq<char>, t: Token, lo: nat, hi: nat)
    requires Covers(s, t, lo, hi)
    ensures End(t) == hi
  {
  }

  /** One more token after covered items extends the cover. */
  lemma {:induction false} ItemsCoverAppend(s: seq<char>, acc: seq<Token>, lo: nat, i: nat, t: Token, c: nat)
    requires ItemsCover(s, acc, lo, i) && i <= |s|
    requires Covers(s, t, SkipSpaces(s, i), c)
    ensures ItemsCover(s, acc + [t], lo, c)
    decreases |acc|
  {
    CoversEnd(s, t, SkipSpaces(s, i), c);
    if acc == [] {
      assert acc + [t] == [t];
      assert [t][1..] == [];
    } else {
      assert (acc + [t])[0] == acc[0];
      assert (acc + [t])[1..] == acc[1..] + [t];
      ItemsCoverAppend(s, acc[1..], End(acc[0]), i, t, c);
    }
  }

  lemma PrimTypesAreNames()
    ensures forall p :: p in PRIMTYPES ==> |p| > 0 && IsIdentStart(p[0]) && p !in MODIFIERS
  {
  }

  /** The primitive-type branch keeps the flags and yields a primitive type;
      it folds only `long` into one of the two-word types. */
  lemma PrimTypeFacts(s: seq<char>, tok: Token, i: nat)
    requires tok.Leaf? && tok.start <= i <= |s| && tok.text in PRIMTYPES
    ensures var (t, c) := PrimType(s, tok, i);
      t.text in PRIMTYPES && t.mods == tok.mods && t.start == tok.start
      && ((t, c) == (tok, i) || (tok.text == "long" && t.text in TWO_WORD_TYPES))
  {
    var (next, c) := ReadIdent(s, i);
    if tok.text == "long" && next.Some? && next.value.text in LONGTYPES {
      var w := next.value.text;
      if w == "double" {
        assert tok.text + " " + w == "long double";
      } else if w == "long" {
        assert tok.text + " " + w == "long long";
      } else {
        assert tok.text + " " + w == "long int";
      }
    }
  }

  /** A struct leaf carries `struct` (after `const` when written so) and a
      tag that is a name and not a keyword. */
  lemma StructTagOk(s: seq<char>, tok: Token, i: nat)
    requires tok.Leaf? && tok.start <= i <= |s| && (tok.mods == [] || tok.mods == ["const"])
    ensures var r := StructTag(s, tok, i);
      r.Ok? ==> r.value.0.Leaf? && LeafOk(r.value.0) && "struct" in r.value.0.mods
  {
    var (name, c) := ReadIdent(s, i);
    var r := StructTag(s, tok, i);
    if r.Ok? {
      var t := r.value.0;
      assert t.mods == tok.mods + ["struct"];
      assert t.text == name.value.text && IsName(name.value);
      assert IsName(t);
    }
  }

  /** The modifiers read so far in a run: modifier words other than
      `struct`, never both `signed` and `unsigned`. */
  ghost predicate RunOk(mods: seq<string>) {
    |mods| > 0 && (forall m :: m in mods ==> m in MODIFIERS && m != "struct")
    && !("signed" in mods && "unsigned" in mods)
  }

  /** A flagged primitive-type leaf is consistent when its flags are a
      modifier run. */
  lemma FlaggedPrimOk(t: Token)
    requires t.Leaf? && t.text in PRIMTYPES && RunOk(t.mods) && Distinct(t.mods)
    ensures LeafOk(t) && t.mods != []
  {
    PrimTypesAreNames();
    assert IsType(t);
  }

  /** A settled run is a primitive type carrying the run's modifiers
      after the token's own. */
  lemma ResolvedPrim(s: seq<char>, tok: Token, mods: seq<string>, before: nat, next: Option<Token>, cur: nat)
    requires tok.Leaf? && tok.start <= before <= cur <= |s| && |mods| > 0
    requires next.Some? ==> next.value.Leaf?
    ensures var r := ResolveRun(s, tok, mods, before, next, cur);
      r.Ok? ==> r.value.0.text in PRIMTYPES && r.value.0.mods == tok.mods + mods
  {
    var r := ResolveRun(s, tok, mods, before, next, cur);
    if r.Ok? {
      var named := RunTypeName(mods, before, next, cur).value;
      var bare := Leaf(tok.start, named.0, named.1 - tok.start, tok.mods);
      var typed := WithModifiers(bare, mods).value;
      ModifierFacts.ResolveAttach(s, tok, mods, before, next, cur, named.0, named.1, typed);
      PrimTypeFacts(s, typed, named.1);
    }
  }

  lemma ResolveRunOk(s: seq<char>, tok: Token, mods: seq<string>, before: nat, next: Option<Token>, cur: nat)
    requires tok.Leaf? && tok.start <= before <= cur <= |s| && |mods| > 0
    requires next.Some? ==> next.value.Leaf?
    requires tok.mods == [] && RunOk(mods)
    ensures var r := ResolveRun(s, tok, mods, before, next, cur);
      r.Ok? ==> r.value.0.Leaf? && LeafOk(r.value.0) && r.value.0.mods == mods
  {
    var r := ResolveRun(s, tok, mods, before, next, cur);
    if r.Ok? {
      ResolvedPrim(s, tok, mods, before, next, cur);
      assert [] + mods == mods;
      assert Distinct(mods) by {
        assert AddModifiers([], mods).Ok?;
      }
      FlaggedPrimOk(r.value.0);
    }
  }

  /** The loop over a modifier run preserves `RunOk`, so the leaf it ends
      with is consistent. */
  lemma {:induction false} ModifierRunOk(s: seq<char>, tok: Token, mods: seq<string>, before: nat,
                                         next: Option<Token>, cur: nat)
    requires tok.Leaf? && tok.start <= before <= cur <= |s| && |mods| > 0
    requires next.Some? ==> next.value.Leaf? && before < cur
    requires tok.mods == [] && RunOk(mods)
    ensures var r := ModifierRun(s, tok, mods, before, next, cur);
      r.Ok? ==> r.value.0.Leaf? && LeafOk(r.value.0) && r.value.0.mods != []
    decreases |s| - before
  {
    if next.Some? && next.value.text in MODIFIERS {
      var w := next.value.text;
      if w == "struct" {
        if |mods| == 1 && mods[0] == "const" {
          StructTagOk(s, Leaf(tok.start, "struct", cur - tok.start, ["const"]), cur);
        }
      } else if (w == "signed" || w == "unsigned") && ("signed" in mods || "unsigned" in mods) {
      } else {
        var (next', cur') := ReadIdent(s, cur);
        assert RunOk(mods + [w]);
        ModifierRunOk(s, tok, mods + [w], cur, next', cur');
      }
    } else {
      ResolveRunOk(s, tok, mods, before, next, cur);
    }
  }

  /** A keyword leaf read by `parse_ident` folds into a consistent leaf
      covering exactly the text from the keyword to the cursor. */
  lemma ParseTypeCovers(s: seq<char>, tok: Token, i: nat)
    requires tok.Leaf? && tok.start < i <= |s| && tok.text in KEYWORDS
    requires tok.mods == [] && End(tok) == i && tok.text == s[tok.start..i]
    ensures var r := ParseTypeSpec(s, tok, i);
      r.Ok? ==> Covers(s, r.value.0, tok.start, r.value.1)
  {
    var r := ParseTypeSpec(s, tok, i);
    if r.Ok? {
      var (t, c) := r.value;
      if tok.text == "struct" {
        StructTagOk(s, tok, i);
      } else if tok.text in PRIMTYPES {
        PrimTypeFacts(s, tok, i);
      } else {
        var (next, c0) := ReadIdent(s, i);
        assert RunOk([tok.text]);
        ModifierRunOk(s, tok, [tok.text], i, next, c0);
      }
    }
  }

  lemma PunctuationCovers(s: seq<char>, j: nat)
    requires j < |s| && s[j] in PUNCTUATION
    ensures var (t, c) := Punctuation(s, j); Covers(s, t, j, c)
  {
    var (t, c) := Punctuation(s, j);
    if t.mods == [] {
      assert t.text == [s[j]] == s[j..j + 1];
    } else {
      assert t.text == "*" && t.mods == ["const"];
    }
  }

  lemma WordOrNumberCovers(s: seq<char>, j: nat)
    requires j < |s| && !IsSpace(s[j])
    ensures var r := WordOrNumber(s, j);
      r.Ok? && r.value.Some? ==> Covers(s, r.value.value.0, j, r.value.value.1)
  {
    var r := WordOrNumber(s, j);
    assert SkipSpaces(s, j) == j;
    var (ident, c) := ReadIdent(s, j);
    if r.Ok? && r.value.Some? && ident.Some? && ident.value.text in KEYWORDS {
      ParseTypeCovers(s, ident.value, c);
    }
  }

  /** `next_token` at punctuation returns what `Punctuation` reads. */
  lemma NextIsPunctuation(s: seq<char>, i: nat)
    requires i <= |s|
    requires var j := SkipSpaces(s, i); j < |s| && s[j] in PUNCTUATION
    ensures var (t, c) := Punctuation(s, SkipSpaces(s, i)); NextTokenSpec(s, i) == Ok((Some(t), c))
  {
  }

  /** `next_token` at a word or a number returns it. */
  lemma NextIsWordOrNumber(s: seq<char>, i: nat, t: Token, c: nat)
    requires i <= |s|
    requires var j := SkipSpaces(s, i); j < |s| && s[j] !in PUNCTUATION && WordOrNumber(s, j) == Ok(Some((t, c)))
    ensures NextTokenSpec(s, i) == Ok((Some(t), c))
  {
  }

  /** `next_token` at `(` returns the nested group, or its error. */
  lemma NextIsGroup(s: seq<char>, i: nat)
    requires i <= |s|
    requires var j := SkipSpaces(s, i); j < |s| && s[j] == '('
    ensures var j := SkipSpaces(s, i); var g := GroupSpec(s, j, true, [], j + 1);
      NextTokenSpec(s, i) == if g.Ok? then Ok((Some(g.value.0), g.value.1)) else Err(g.error)
  {
    var j := SkipSpaces(s, i);
    assert s[j] !in PUNCTUATION && !IsIdentStart(s[j]) && !IsDigit(s[j]);
  }

  /** Every token `next_token` returns covers exactly the text from the
      first non-blank character to the cursor it leaves. */
  lemma {:induction false} NextTokenCovers(s: seq<char>, i: nat)
    requires i <= |s|
    ensures var r := NextTokenSpec(s, i);
      r.Ok? && r.value.0.Some? ==> Covers(s, r.value.0.value, SkipSpaces(s, i), r.value.1)
    decreases |s| - i, 0
  {
    var r := NextTokenSpec(s, i);
    var j := SkipSpaces(s, i);
    if r.Ok? && r.value.0.Some? && j < |s| {
      if s[j] in PUNCTUATION {
        NextIsPunctuation(s, i);
        PunctuationCovers(s, j);
      } else {
        var w := WordOrNumber(s, j);
        if w.Ok? && w.value.Some? {
          NextIsWordOrNumber(s, i, w.value.value.0, w.value.value.1);
          WordOrNumberCovers(s, j);
        } else if s[j] == '(' {
          NextIsGroup(s, i);
          GroupCovers(s, j, [], j + 1);
        }
      }
    }
  }

  /** A nested group away from its `)` goes on with the next token. */
  lemma GroupGoesOn(s: seq<char>, start: nat, acc: seq<Token>, i: nat)
    requires start <= i <= |s| && CharAt(s, i) != Some(')')
    requires GroupSpec(s, start, true, acc, i).Ok?
    ensures var n := NextTokenSpec(s, i);
      n.Ok? && n.value.0.Some?
      && GroupSpec(s, start, true, acc, i) == GroupSpec(s, start, true, acc + [n.value.0.value], n.value.1)
  {
  }

  /** The token `next_token` reads extends the items covered so far. */
  lemma ItemsCoverNext(s: seq<char>, acc: seq<Token>, lo: nat, i: nat)
    requires lo <= i <= |s| && ItemsCover(s, acc, lo, i)
    requires NextTokenSpec(s, i).Ok? && NextTokenSpec(s, i).value.0.Some?
    ensures var n := NextTokenSpec(s, i).value; ItemsCover(s, acc + [n.0.value], lo, n.1)
    decreases |s| - i, 1
  {
    var n := NextTokenSpec(s, i).value;
    NextTokenCovers(s, i);
    ItemsCoverAppend(s, acc, lo, i, n.0.value, n.1);
  }

  /** A `)` closes a nested group that covers its parentheses. */
  lemma GroupClosedCovers(s: seq<char>, start: nat, acc: seq<Token>, i: nat)
    requires start < i < |s| && s[start] == '(' && s[i] == ')'
    requires ItemsCover(s, acc, start + 1, i)
    ensures GroupSpec(s, start, true, acc, i).Ok?
    ensures var r := GroupSpec(s, start, true, acc, i); Covers(s, r.value.0, start, r.value.1)
  {
    assert GroupSpec(s, start, true, acc, i) == Ok((Group(Some(Span(start, i + 1 - start)), acc), i + 1));
  }

  /** A nested group covers its parentheses and what lies between. */
  lemma {:induction false} GroupCovers(s: seq<char>, start: nat, acc: seq<Token>, i: nat)
    requires start < i <= |s| && s[start] == '('
    requires ItemsCover(s, acc, start + 1, i)
    ensures var r := GroupSpec(s, start, true, acc, i);
      r.Ok? ==> Covers(s, r.value.0, start, r.value.1)
    decreases |s| - i, 2
  {
    var r := GroupSpec(s, start, true, acc, i);
    if r.Ok? {
      if CharAt(s, i) == Some(')') {
        GroupClosedCovers(s, start, acc, i);
      } else {
        GroupGoesOn(s, start, acc, i);
        ItemsCoverNext(s, acc, start + 1, i);
        var n := NextTokenSpec(s, i).value;
        GroupCovers(s, start, acc + [n.0.value], n.1);
      }
    }
  }

  lemma {:induction false} TopGroupCovers(s: seq<char>, acc: seq<Token>, i: nat)
    requires i <= |s| && ItemsCover(s, acc, 0, i)
    ensures var r := GroupSpec(s, 0, false, acc, i);
      r.Ok? ==> Lexed(s, r.value.0)
    decreases |s| - i
  {
    var r := GroupSpec(s, 0, false, acc, i);
    if r.Ok? {
      var (next, c) := NextTokenSpec(s, i).value;
      if next.None? {
        assert ItemsCover(s, acc, 0, i) && SkipSpaces(s, i) == |s|;
      } else {
        NextTokenCovers(s, i);
        ItemsCoverAppend(s, acc, 0, i, next.value, c);
        TopGroupCovers(s, acc + [next.value], c);
      }
    }
  }

  /** Lexing a declaration yields a group spanning the whole text whose
      tokens cover it exactly, with consistent flags on every leaf. */
  lemma LexCovers(s: seq<char>)
    ensures Lex(s).Ok? ==> Lexed(s, Lex(s).value)
  {
    TopGroupCovers(s, [], 0);
  }
}
