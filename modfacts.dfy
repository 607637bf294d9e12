/** What `parse_type` makes of a keyword and the words after it: runs of
    modifiers, their defaults and the errors they raise, stated on what
    `parse_ident` reads after each word.  Each step of `parse_type` is a
    lemma of its own; the lemmas at the end chain them for the runs the
    program treats specially. */
module ModifierFacts {
  import opened Base
  import opened Tokens
  import opened LexSpec

  // ---------------------------------------------------------------------
  // The keyword tables
  // ---------------------------------------------------------------------

  predicate IsSign(m: string) {
    m == "signed" || m == "unsigned"
  }

  lemma SignFacts(m: string)
    requires IsSign(m)
    ensures m in MODIFIERS && m in KEYWORDS && m !in PRIMTYPES && m != "struct" && m != "const"
  {
  }

  lemma ConstFacts()
    ensures "const" in MODIFIERS && "const" in KEYWORDS && "const" !in PRIMTYPES
    ensures "const" != "struct" && !IsSign("const")
  {
  }

  lemma StructFacts()
    ensures "struct" in MODIFIERS && "struct" in KEYWORDS && "struct" !in PRIMTYPES
  {
  }

  lemma NotKeyword(w: string)
    requires w !in KEYWORDS
    ensures w !in PRIMTYPES && w !in MODIFIERS
  {
    assert forall x :: x in PRIMTYPES ==> x in KEYWORDS;
    assert forall x :: x in MODIFIERS ==> x in KEYWORDS;
  }

  // ---------------------------------------------------------------------
  // One step of `parse_type` each
  // ---------------------------------------------------------------------

  /** A modifier other than `struct` starts a run with the word after it. */
  lemma RunStarts(s: seq<char>, tok: Token, i: nat)
    requires tok.Leaf? && tok.start <= i <= |s| && tok.text in MODIFIERS && tok.text != "struct"
    ensures var (next, c) := ReadIdent(s, i);
      ParseTypeSpec(s, tok, i) == ModifierRun(s, tok, [tok.text], i, next, c)
  {
    ModifierNotPrim(tok.text);
  }

  /** No word is both a modifier and a primitive type. */
  lemma ModifierNotPrim(w: string)
    requires w in MODIFIERS
    ensures w !in PRIMTYPES
  {
  }

  /** A run ends at the first word that is not a modifier. */
  lemma RunEnds(s: seq<char>, tok: Token, mods: seq<string>, before: nat, next: Option<Token>, cur: nat)
    requires tok.Leaf? && tok.start <= before <= cur <= |s| && |mods| > 0
    requires next.Some? ==> next.value.Leaf? && before < cur
    requires next.None? || next.value.text !in MODIFIERS
    ensures ModifierRun(s, tok, mods, before, next, cur) == ResolveRun(s, tok, mods, before, next, cur)
  {
  }

  /** A modifier other than `struct` that does not clash is taken into
      the run, which goes on with the word after it. */
  lemma RunStep(s: seq<char>, tok: Token, mods: seq<string>, before: nat, next: Option<Token>, cur: nat)
    requires tok.Leaf? && tok.start <= before <= cur <= |s| && |mods| > 0
    requires next.Some? && next.value.Leaf? && before < cur
    requires next.value.text in MODIFIERS && next.value.text != "struct"
    requires !(IsSign(next.value.text) && ("signed" in mods || "unsigned" in mods))
    ensures var (next', cur') := ReadIdent(s, cur);
      ModifierRun(s, tok, mods, before, next, cur)
        == ModifierRun(s, tok, mods + [next.value.text], cur, next', cur')
  {
  }

  /** A sign modifier after a sign modifier is refused, underlining the
      run from its first word to the cursor. */
  lemma RunClash(s: seq<char>, tok: Token, mods: seq<string>, before: nat, next: Option<Token>, cur: nat)
    requires tok.Leaf? && tok.start <= before <= cur <= |s| && |mods| > 0
    requires next.Some? && next.value.Leaf? && before < cur
    requires IsSign(next.value.text) && ("signed" in mods || "unsigned" in mods)
    ensures ModifierRun(s, tok, mods, before, next, cur)
         == Err(LexerError("cannot have signed and unsigned", Some(Span(tok.start, cur - tok.start))))
  {
    SignFacts(next.value.text);
  }

  /** `struct` in a run that is not a lone `const` is refused. */
  lemma RunStructRefused(s: seq<char>, tok: Token, mods: seq<string>, before: nat, next: Option<Token>, cur: nat)
    requires tok.Leaf? && tok.start <= before <= cur <= |s| && |mods| > 0
    requires next.Some? && next.value.Leaf? && before < cur
    requires next.value.text == "struct" && mods != ["const"]
    ensures ModifierRun(s, tok, mods, before, next, cur)
         == Err(LexerError("the only valid modifier for struct is 'const'", Some(Span(tok.start, cur - tok.start))))
  {
    StructFacts();
    assert |mods| != 1 || mods[0] != "const";
  }

  /** `struct` after a lone `const` turns the token into a `const`
      struct leaf and reads the tag. */
  lemma RunConstStruct(s: seq<char>, tok: Token, before: nat, next: Option<Token>, cur: nat)
    requires tok.Leaf? && tok.start <= before <= cur <= |s| && tok.mods == []
    requires next.Some? && next.value.Leaf? && before < cur
    requires next.value.text == "struct"
    ensures ModifierRun(s, tok, ["const"], before, next, cur)
         == StructTag(s, Leaf(tok.start, "struct", cur - tok.start, ["const"]), cur)
  {
    StructFacts();
    ConstFacts();
    assert [] + ["const"] == ["const"];
  }

  /** `struct` after a lone `const`, whatever flags the token already
      has: the `const` flag is attached, failing if it is already there,
      and the token re-enters `parse_type` as a `struct`. */
  lemma StructAfterConst(s: seq<char>, tok: Token, before: nat, next: Option<Token>, cur: nat)
    requires tok.Leaf? && tok.start <= before <= cur <= |s|
    requires next.Some? && next.value.Leaf? && before < cur
    requires next.value.text == "struct"
    ensures AddModifier(tok.mods, "const").Err? ==>
      ModifierRun(s, tok, ["const"], before, next, cur) == Err(AddModifier(tok.mods, "const").error)
    ensures AddModifier(tok.mods, "const").Ok? ==>
      ("struct" in KEYWORDS
       && ModifierRun(s, tok, ["const"], before, next, cur)
          == ParseTypeSpec(s, Leaf(tok.start, "struct", cur - tok.start, AddModifier(tok.mods, "const").value), cur))
  {
    StructFacts();
  }

  /** `struct` followed by a name that is not a keyword takes the name,
      adds the `struct` flag and spans up to the cursor after the name. */
  lemma TagNamed(s: seq<char>, tok: Token, i: nat)
    requires tok.Leaf? && tok.start <= i <= |s| && "struct" !in tok.mods
    requires var (name, _) := ReadIdent(s, i); name.Some? && name.value.text !in KEYWORDS
    ensures var (name, c) := ReadIdent(s, i);
      StructTag(s, tok, i) == Ok((Leaf(tok.start, name.value.text, c - tok.start, tok.mods + ["struct"]), c))
  {
    StructFacts();
  }

  /** When the run ends in a sign modifier and no primitive type follows,
      the type is `int` and the cursor is rewound to before the next word. */
  lemma ResolveDefault(mods: seq<string>, before: nat, next: Option<Token>, cur: nat)
    requires before <= cur && |mods| > 0
    requires next.Some? ==> next.value.Leaf?
    requires IsSign(mods[|mods| - 1]) && (next.None? || next.value.text !in PRIMTYPES)
    ensures RunTypeName(mods, before, next, cur) == Ok(("int", before))
  {
    var last := mods[|mods| - 1];
    assert last == "signed" || last == "unsigned";
  }

  /** Once the type name is settled and the modifiers attach, the run's
      token is the named one with the modifiers, spanning up to the
      cursor, and it re-enters the primitive-type branch. */
  lemma ResolveAttach(s: seq<char>, tok: Token, mods: seq<string>, before: nat, next: Option<Token>, cur: nat,
                      name: string, c: nat, typed: Token)
    requires tok.Leaf? && tok.start <= before <= cur <= |s| && |mods| > 0
    requires next.Some? ==> next.value.Leaf?
    requires RunTypeName(mods, before, next, cur) == Ok((name, c)) && tok.start <= c <= |s|
    requires WithModifiers(Leaf(tok.start, name, c - tok.start, tok.mods), mods) == Ok(typed)
    ensures ResolveRun(s, tok, mods, before, next, cur) == Ok(PrimType(s, typed, c))
  {
  }

  /** When the run is followed by a primitive type whose flags cannot be
      attached, the attaching error is the result. */
  lemma ResolveFlagsFail(s: seq<char>, tok: Token, mods: seq<string>, before: nat, next: Option<Token>, cur: nat)
    requires tok.Leaf? && tok.start <= before <= cur <= |s| && |mods| > 0
    requires next.Some? && next.value.Leaf? && next.value.text in PRIMTYPES
    requires AddModifiers(tok.mods, mods).Err?
    ensures ResolveRun(s, tok, mods, before, next, cur) == Err(AddModifiers(tok.mods, mods).error)
  {
  }

  /** A run whose last modifier is not a sign, followed by anything but a
      primitive type, has no type. */
  lemma NoTypeName(s: seq<char>, tok: Token, mods: seq<string>, before: nat, next: Option<Token>, cur: nat)
    requires tok.Leaf? && tok.start <= before <= cur <= |s| && |mods| > 0
    requires next.Some? ==> next.value.Leaf?
    requires !IsSign(mods[|mods| - 1])
    requires next.None? || next.value.text !in PRIMTYPES
    ensures ResolveRun(s, tok, mods, before, next, cur)
         == Err(LexerError("expected a type name or modifier",
                           if next.None? then Some(Span(cur, 1)) else TokSpan(next.value)))
  {
  }

  /** Only `long` can grow into a two-word type. */
  lemma PrimKept(s: seq<char>, tok: Token, i: nat)
    requires tok.Leaf? && tok.start <= i <= |s| && tok.text != "long"
    ensures PrimType(s, tok, i) == (tok, i)
  {
  }

  /** One sign modifier attaches as it is. */
  lemma OneFlag(m: string)
    requires m in MODIFIERS
    ensures AddModifiers([], [m]) == Ok([m])
  {
    assert [m][1..] == [] && [] + [m] == [m];
  }

  /** `const` twice cannot be attached. */
  lemma ConstTwice()
    ensures AddModifiers([], ["const", "const"]) == Err(InternalError)
  {
    assert ["const", "const"][1..] == ["const"];
    assert [] + ["const"] == ["const"];
    ConstFacts();
  }

  /** Where the token starts, `next_token` reads the word that
      `parse_ident` reads from the cursor. */
  lemma WordAtCursor(s: seq<char>, i: nat)
    requires i <= |s| && ReadIdent(s, i).0.Some?
    ensures var k := SkipSpaces(s, i);
      k < |s| && s[k] !in PUNCTUATION && ReadIdent(s, k) == ReadIdent(s, i)
  {
    var k := SkipSpaces(s, i);
    assert SkipSpaces(s, k) == k;
  }

  /** A word that is a keyword is folded by `parse_type`. */
  lemma WordIsKeyword(s: seq<char>, j: nat)
    requires j < |s|
    requires var (t, _) := ReadIdent(s, j); t.Some? && t.value.text in KEYWORDS
    ensures var (t, c) := ReadIdent(s, j);
      var r := ParseTypeSpec(s, t.value, c);
      WordOrNumber(s, j) == if r.Ok? then Ok(Some(r.value)) else Err(r.error)
  {
  }

  /** A word or number that is found, or fails, is what `next_token`
      returns. */
  lemma NextIsWord(s: seq<char>, i: nat)
    requires i <= |s|
    requires var j := SkipSpaces(s, i); j < |s| && s[j] !in PUNCTUATION
    requires var w := WordOrNumber(s, SkipSpaces(s, i)); w.Err? || w.value.Some?
    ensures var w := WordOrNumber(s, SkipSpaces(s, i));
      NextTokenSpec(s, i) == if w.Ok? then Ok((Some(w.value.value.0), w.value.value.1)) else Err(w.error)
  {
  }

  // ---------------------------------------------------------------------
  // The runs the program treats specially
  // ---------------------------------------------------------------------

  /** A token that starts with a keyword is what `parse_type` makes of
      that keyword. */
  lemma KeywordToken(s: seq<char>, i: nat)
    requires i <= |s|
    requires var (t, _) := ReadIdent(s, i); t.Some? && t.value.text in KEYWORDS
    ensures var (t, c) := ReadIdent(s, i);
      var r := ParseTypeSpec(s, t.value, c);
      NextTokenSpec(s, i) == if r.Ok? then Ok((Some(r.value.0), r.value.1)) else Err(r.error)
  {
    WordAtCursor(s, i);
    WordIsKeyword(s, SkipSpaces(s, i));
    NextIsWord(s, i);
  }

  /** `signed` or `unsigned` starts a run with the word after it. */
  lemma SignStarts(s: seq<char>, k: nat, a: string)
    requires k + |a| <= |s| && IsSign(a)
    ensures var (next, c) := ReadIdent(s, k + |a|);
      ParseTypeSpec(s, NewLeaf(k, a), k + |a|) == ModifierRun(s, NewLeaf(k, a), [a], k + |a|, next, c)
  {
    SignFacts(a);
    RunStarts(s, NewLeaf(k, a), k + |a|);
  }

  /** A run of one sign modifier ending before a word that is not a
      modifier or a primitive type settles on `int`, rewound. */
  lemma SignRunEnds(s: seq<char>, k: nat, m: string, next: Option<Token>, c: nat)
    requires k + |m| <= c <= |s| && IsSign(m)
    requires next.Some? ==> next.value.Leaf? && k + |m| < c
    requires next.None? || (next.value.text !in MODIFIERS && next.value.text !in PRIMTYPES)
    ensures ModifierRun(s, NewLeaf(k, m), [m], k + |m|, next, c) == Ok((Leaf(k, "int", |m|, [m]), k + |m|))
  {
    var tok := NewLeaf(k, m);
    var typed := Leaf(k, "int", |m|, [m]);
    RunEnds(s, tok, [m], k + |m|, next, c);
    ResolveDefault([m], k + |m|, next, c);
    SignAttached(k, m);
    ResolveAttach(s, tok, [m], k + |m|, next, c, "int", k + |m|, typed);
    PrimKept(s, typed, k + |m|);
  }

  /** A lone sign modifier attaches to the defaulted `int`. */
  lemma SignAttached(k: nat, m: string)
    requires IsSign(m)
    ensures WithModifiers(Leaf(k, "int", |m|, []), [m]) == Ok(Leaf(k, "int", |m|, [m]))
  {
    SignFacts(m);
    OneFlag(m);
  }

  /** `signed` or `unsigned` followed by anything but a keyword is an
      `int`: the token spans the modifier alone and the next word is not
      consumed. */
  lemma DefaultsToInt(s: seq<char>, k: nat, m: string)
    requires k + |m| <= |s| && IsSign(m)
    requires var next := ReadIdent(s, k + |m|).0; next.None? || next.value.text !in KEYWORDS
    ensures ParseTypeSpec(s, NewLeaf(k, m), k + |m|) == Ok((Leaf(k, "int", |m|, [m]), k + |m|))
  {
    var (next, c) := ReadIdent(s, k + |m|);
    if next.Some? {
      NotKeyword(next.value.text);
    }
    SignStarts(s, k, m);
    SignRunEnds(s, k, m, next, c);
  }

  /** Two sign modifiers in a row, even the same one twice, are rejected,
      underlining both. */
  lemma SignedWithUnsigned(s: seq<char>, k: nat, a: string)
    requires k + |a| <= |s| && IsSign(a)
    requires var (t, _) := ReadIdent(s, k + |a|); t.Some? && IsSign(t.value.text)
    ensures var c := ReadIdent(s, k + |a|).1;
      ParseTypeSpec(s, NewLeaf(k, a), k + |a|)
        == Err(LexerError("cannot have signed and unsigned", Some(Span(k, c - k))))
  {
    var (next, c) := ReadIdent(s, k + |a|);
    SignStarts(s, k, a);
    assert a in [a];
    RunClash(s, NewLeaf(k, a), [a], k + |a|, next, c);
  }

  /** `struct` after a sign modifier is rejected: only `const` may come
      before it. */
  lemma StructNeedsSoleConst(s: seq<char>, k: nat, a: string)
    requires k + |a| <= |s| && IsSign(a)
    requires var (t, _) := ReadIdent(s, k + |a|); t.Some? && t.value.text == "struct"
    ensures var c := ReadIdent(s, k + |a|).1;
      ParseTypeSpec(s, NewLeaf(k, a), k + |a|)
        == Err(LexerError("the only valid modifier for struct is 'const'", Some(Span(k, c - k))))
  {
    var (next, c) := ReadIdent(s, k + |a|);
    SignStarts(s, k, a);
    assert [a] != ["const"] by {
      SignFacts(a);
    }
    RunStructRefused(s, NewLeaf(k, a), [a], k + |a|, next, c);
  }

  /** The run after `const` meeting `struct` and then a tag that is not
      a keyword ends in the tagged leaf. */
  lemma ConstStructRun(s: seq<char>, k: nat, next: Option<Token>, c1: nat)
    requires k + 5 < c1 <= |s| && next.Some? && next.value.Leaf? && next.value.text == "struct"
    requires var (tag, _) := ReadIdent(s, c1); tag.Some? && tag.value.text !in KEYWORDS
    ensures var (tag, c) := ReadIdent(s, c1);
      ModifierRun(s, NewLeaf(k, "const"), ["const"], k + 5, next, c1)
        == Ok((Leaf(k, tag.value.text, c - k, ["const", "struct"]), c))
  {
    RunConstStruct(s, NewLeaf(k, "const"), k + 5, next, c1);
    TagNamed(s, Leaf(k, "struct", c1 - k, ["const"]), c1);
    assert ["const"] + ["struct"] == ["const", "struct"];
  }

  /** `const struct TAG` is one token named by the tag, flagged `const`
      and `struct`, spanning all three words. */
  lemma ConstStruct(s: seq<char>, k: nat)
    requires k + 5 <= |s|
    requires var (t, _) := ReadIdent(s, k + 5); t.Some? && t.value.text == "struct"
    requires var (tag, _) := ReadIdent(s, ReadIdent(s, k + 5).1); tag.Some? && tag.value.text !in KEYWORDS
    ensures var (tag, c) := ReadIdent(s, ReadIdent(s, k + 5).1);
      ParseTypeSpec(s, NewLeaf(k, "const"), k + 5)
        == Ok((Leaf(k, tag.value.text, c - k, ["const", "struct"]), c))
  {
    var (next, c1) := ReadIdent(s, k + 5);
    ConstFacts();
    RunStarts(s, NewLeaf(k, "const"), k + 5);
    ConstStructRun(s, k, next, c1);
  }

  /** `const const T`: the repeated modifier is let through the run and
      then refused when the flags are attached, an internal error. */
  lemma RepeatedConst(s: seq<char>, k: nat)
    requires k + 5 <= |s|
    requires var (t, _) := ReadIdent(s, k + 5); t.Some? && t.value.text == "const"
    requires var (u, _) := ReadIdent(s, ReadIdent(s, k + 5).1); u.Some? && u.value.text in PRIMTYPES
    ensures ParseTypeSpec(s, NewLeaf(k, "const"), k + 5) == Err(InternalError)
  {
    var tok := NewLeaf(k, "const");
    var (t, c1) := ReadIdent(s, k + 5);
    var (u, c2) := ReadIdent(s, c1);
    ConstFacts();
    RunStarts(s, tok, k + 5);
    RunStep(s, tok, ["const"], k + 5, t, c1);
    assert ["const"] + ["const"] == ["const", "const"];
    NotModifier(u.value.text);
    RunEnds(s, tok, ["const", "const"], c1, u, c2);
    ConstTwice();
    ResolveFlagsFail(s, tok, ["const", "const"], c1, u, c2);
  }

  lemma NotModifier(w: string)
    requires w in PRIMTYPES
    ensures w !in MODIFIERS
  {
  }

  /** `const` followed by anything but a keyword has no type: the word
      after it (or the column where one was expected) is underlined. */
  lemma MissingTypeName(s: seq<char>, k: nat)
    requires k + 5 <= |s|
    requires var next := ReadIdent(s, k + 5).0; next.None? || next.value.text !in KEYWORDS
    ensures var (next, _) := ReadIdent(s, k + 5);
      ParseTypeSpec(s, NewLeaf(k, "const"), k + 5)
        == Err(LexerError("expected a type name or modifier",
                          Some(Span(SkipSpaces(s, k + 5), if next.None? then 1 else |next.value.text|))))
  {
    var tok := NewLeaf(k, "const");
    var (next, c) := ReadIdent(s, k + 5);
    if next.Some? {
      NotKeyword(next.value.text);
    }
    ConstFacts();
    RunStarts(s, tok, k + 5);
    RunEnds(s, tok, ["const"], k + 5, next, c);
    NoTypeName(s, tok, ["const"], k + 5, next, c);
  }
}
