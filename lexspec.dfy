/** The lexer as pure functions of the declaration text and a cursor.
    Each function takes the cursor where the lexer's method starts and
    returns what that method returns together with the cursor it leaves
    behind; the imperative `Lexing.Lexer` is proved to compute exactly
    these.  An `Err` aborts lexing, so no cursor is kept with it. */
module LexSpec {
  import opened Base
  import opened Tokens

  /** The cursor after skipping whitespace from `i`. */
  function SkipSpaces(s: seq<char>, i: nat): (j: nat)
    requires i <= |s|
    ensures i <= j <= |s|
    ensures forall k :: i <= k < j ==> IsSpace(s[k])
    ensures j == |s| || !IsSpace(s[j])
    decreases |s| - i
  {
    if i < |s| && IsSpace(s[i]) then SkipSpaces(s, i + 1) else i
  }

  /** End of the run of identifier characters starting at `i`. */
  function IdentEnd(s: seq<char>, i: nat): (j: nat)
    requires i <= |s|
    ensures i <= j <= |s|
    ensures forall k :: i <= k < j ==> IsIdentChar(s[k])
    ensures j == |s| || !IsIdentChar(s[j])
    decreases |s| - i
  {
    if i < |s| && IsIdentChar(s[i]) then IdentEnd(s, i + 1) else i
  }

  /** End of the run of decimal digits starting at `i`. */
  function DigitsEnd(s: seq<char>, i: nat): (j: nat)
    requires i <= |s|
    ensures i <= j <= |s|
    ensures forall k :: i <= k < j ==> IsDigit(s[k])
    ensures j == |s| || !IsDigit(s[j])
    decreases |s| - i
  {
    if i < |s| && IsDigit(s[i]) then DigitsEnd(s, i + 1) else i
  }

  /** Pairs a method's result with the cursor it leaves behind. */
  function WithCursor<T>(r: Result<T>, c: nat): Result<(T, nat)> {
    match r
    case Ok(v) => Ok((v, c))
    case Err(e) => Err(e)
  }

  /** The exact end offset of a token's span. */
  function End(t: Token): nat {
    match t
    case Leaf(start, _, length, _) => start + length
    case Group(span, _) => if span.Some? then span.value.start + span.value.length else 0
  }

  /** `parse_ident`: skip whitespace, then read one identifier if one
      starts there.  The cursor moves past the whitespace either way. */
  function ReadIdent(s: seq<char>, i: nat): (r: (Option<Token>, nat))
    requires i <= |s|
    ensures i <= r.1 <= |s|
    ensures r.0.None? ==> r.1 == SkipSpaces(s, i)
    ensures r.0.Some? ==> var t := r.0.value;
      t.Leaf? && t.start == SkipSpaces(s, i) && t.start < r.1 && End(t) == r.1 && t.mods == []
      && t.text == s[t.start..r.1] && IsName(t)
    ensures r.0.Some? ==> r.1 == |s| || !IsIdentChar(s[r.1])
  {
    var j := SkipSpaces(s, i);
    if j < |s| && IsIdentStart(s[j]) then
      var e := IdentEnd(s, j + 1);
      (Some(NewLeaf(j, s[j..e])), e)
    else
      (None, j)
  }

  /** The `struct` branch of `parse_type`: the next identifier is the tag.
      `tok` is the leaf being built, `i` the cursor after `struct`. */
  function StructTag(s: seq<char>, tok: Token, i: nat): (r: Result<(Token, nat)>)
    requires tok.Leaf? && tok.start <= i <= |s|
    ensures r.Ok? ==> i <= r.value.1 <= |s| && r.value.0.Leaf? && r.value.0.start == tok.start
                      && End(r.value.0) == r.value.1
  {
    var (name, c) := ReadIdent(s, i);
    if name.None? then
      Err(LexerError("expected an identifier", Some(Span(c, 1))))
    else if name.value.text in KEYWORDS then
      Err(LexerError("cannot use '" + name.value.text + "' as an identifier", TokSpan(name.value)))
    else
      var mods :- AddModifier(tok.mods, "struct");
      Ok((Leaf(tok.start, name.value.text, c - tok.start, mods), c))
  }

  /** The primitive-type branch of `parse_type`: `long` followed by
      `double`, `long` or `int` folds into one two-word type; anything else
      leaves the cursor where it was. */
  function PrimType(s: seq<char>, tok: Token, i: nat): (r: (Token, nat))
    requires tok.Leaf? && tok.start <= i <= |s|
    ensures i <= r.1 <= |s| && r.0.Leaf? && r.0.start == tok.start && r.0.mods == tok.mods
    ensures End(tok) == i ==> End(r.0) == r.1
  {
    if tok.text == "long" then
      var (next, c) := ReadIdent(s, i);
      if next.Some? && next.value.text in LONGTYPES then
        (tok.(text := tok.text + " " + next.value.text, length := c - tok.start), c)
      else
        (tok, i)
    else
      (tok, i)
  }

  /** Attaches the accumulated modifiers in order (`for mod in mods:
      tok.add_modifier(mod)`), failing on the first duplicate. */
  function AddModifiers(mods: seq<string>, more: seq<string>): (r: Result<seq<string>>)
    ensures r.Ok? ==> r.value == mods + more
    ensures r.Ok? ==> forall m :: m in more ==> m in MODIFIERS
    ensures r.Ok? && Distinct(mods) ==> Distinct(r.value)
    decreases |more|
  {
    if more == [] then Ok(mods)
    else
      var m :- AddModifier(mods, more[0]);
      var r := AddModifiers(m, more[1..]);
      assert r.Ok? ==> r.value == mods + more by {
        if r.Ok? { assert mods + [more[0]] + more[1..] == mods + more; }
      }
      r
  }

  /** The loop of the modifier branch of `parse_type`.  `mods` are the
      modifiers read so far, `next` the identifier just read (ending at
      `cur`), `before` the cursor before it, kept for the rewind.  The check
      for a repeated modifier compares a token against strings in the
      program, so it never applies and is absent here. */
  function ModifierRun(s: seq<char>, tok: Token, mods: seq<string>, before: nat,
                       next: Option<Token>, cur: nat): (r: Result<(Token, nat)>)
    requires tok.Leaf? && tok.start <= before <= cur <= |s| && |mods| > 0
    requires next.Some? ==> next.value.Leaf? && before < cur
    ensures r.Ok? ==> before <= r.value.1 <= |s| && r.value.0.Leaf? && r.value.0.start == tok.start
                      && End(r.value.0) == r.value.1
    decreases |s| - before
  {
    if next.Some? && next.value.text in MODIFIERS then
      var w := next.value.text;
      if w == "struct" then
        if |mods| != 1 || mods[0] != "const" then
          Err(LexerError("the only valid modifier for struct is 'const'", Some(Span(tok.start, cur - tok.start))))
        else
          var m :- AddModifier(tok.mods, "const");
          StructTag(s, Leaf(tok.start, "struct", cur - tok.start, m), cur)
      else if (w == "signed" || w == "unsigned") && ("signed" in mods || "unsigned" in mods) then
        Err(LexerError("cannot have signed and unsigned", Some(Span(tok.start, cur - tok.start))))
      else
        var (next', cur') := ReadIdent(s, cur);
        ModifierRun(s, tok, mods + [w], cur, next', cur')
    else
      ResolveRun(s, tok, mods, before, next, cur)
  }

  /** The token with the run's modifiers attached to it in order; the
      first one it already has, or that is not a modifier, fails. */
  function WithModifiers(tok: Token, mods: seq<string>): (r: Result<Token>)
    requires tok.Leaf?
    ensures r.Ok? <==> AddModifiers(tok.mods, mods).Ok?
    ensures r.Err? ==> r.error == AddModifiers(tok.mods, mods).error
    ensures r.Ok? ==> r.value == tok.(mods := tok.mods + mods)
  {
    var m :- AddModifiers(tok.mods, mods);
    Ok(tok.(mods := m))
  }

  /** The type name a modifier run settles on, with the cursor after it:
      the primitive type that follows, or `int` with the cursor rewound
      to `before` when the run ends in a sign. */
  function RunTypeName(mods: seq<string>, before: nat, next: Option<Token>, cur: nat): (r: Result<(string, nat)>)
    requires before <= cur && |mods| > 0
    requires next.Some? ==> next.value.Leaf?
    ensures r.Ok? ==> r.value.0 in PRIMTYPES && (r.value.1 == before || r.value.1 == cur)
    ensures r.Ok? <==> (next.Some? && next.value.text in PRIMTYPES)
                       || mods[|mods| - 1] == "signed" || mods[|mods| - 1] == "unsigned"
  {
    if next.None? || next.value.text !in PRIMTYPES then
      if mods[|mods| - 1] == "signed" || mods[|mods| - 1] == "unsigned" then
        Ok(("int", before))  // rewind: the next word is not part of the type
      else if next.None? then
        Err(LexerError("expected a type name or modifier", Some(Span(cur, 1))))
      else
        Err(LexerError("expected a type name or modifier", TokSpan(next.value)))
    else
      Ok((next.value.text, cur))
  }

  /** The end of a modifier run: the word after it must be a primitive
      type, except that after `signed` or `unsigned` the type defaults to
      `int` and the word is given back.  The modifiers are then attached
      and the type re-enters the primitive-type branch. */
  function ResolveRun(s: seq<char>, tok: Token, mods: seq<string>, before: nat,
                      next: Option<Token>, cur: nat): (r: Result<(Token, nat)>)
    requires tok.Leaf? && tok.start <= before <= cur <= |s| && |mods| > 0
    requires next.Some? ==> next.value.Leaf?
    ensures r.Ok? ==> before <= r.value.1 <= |s| && r.value.0.Leaf? && r.value.0.start == tok.start
                      && End(r.value.0) == r.value.1
  {
    var named :- RunTypeName(mods, before, next, cur);
    var typed :- WithModifiers(Leaf(tok.start, named.0, named.1 - tok.start, tok.mods), mods);
    Ok(PrimType(s, typed, named.1))
  }

  /** `parse_type`: folds a keyword and what follows it into one type
      leaf.  `tok` is the keyword just read, `i` the cursor after it. */
  function ParseTypeSpec(s: seq<char>, tok: Token, i: nat): (r: Result<(Token, nat)>)
    requires tok.Leaf? && tok.start <= i <= |s| && tok.text in KEYWORDS
    ensures r.Ok? ==> i <= r.value.1 <= |s| && r.value.0.Leaf? && r.value.0.start == tok.start
    ensures r.Ok? && End(tok) == i ==> End(r.value.0) == r.value.1
  {
    if tok.text == "struct" then
      StructTag(s, tok, i)
    else if tok.text in PRIMTYPES then
      Ok(PrimType(s, tok, i))
    else
      var (next, c) := ReadIdent(s, i);
      ModifierRun(s, tok, [tok.text], i, next, c)
  }

  /** `next_token` on punctuation at `j`: a `*` followed by the word
      `const` becomes one `*` leaf flagged `const`; otherwise the cursor is
      rewound and the character alone is the token. */
  function Punctuation(s: seq<char>, j: nat): (r: (Token, nat))
    requires j < |s| && s[j] in PUNCTUATION
    ensures j < r.1 <= |s| && r.0.Leaf? && r.0.start == j && End(r.0) == r.1
  {
    var (ident, c) := ReadIdent(s, j + 1);
    if s[j] == '*' && ident.Some? && ident.value.text == "const" then
      (Leaf(j, "*", c - j, ["const"]), c)
    else
      (NewLeaf(j, [s[j]]), j + 1)
  }

  /** `next_token` on a word or a number at `j`: an identifier (folded
      by `parse_type` when it is a keyword) or a run of digits; `None` when
      neither starts at `j`. */
  function WordOrNumber(s: seq<char>, j: nat): (r: Result<Option<(Token, nat)>>)
    requires j < |s|
    ensures r.Ok? && r.value.Some? ==> j < r.value.value.1 <= |s|
    ensures r.Ok? && r.value.None? ==> !IsIdentStart(s[j]) && !IsDigit(s[j])
  {
    var (ident, c) := ReadIdent(s, j);
    if ident.Some? then
      if ident.value.text in KEYWORDS then
        var (t, c') :- ParseTypeSpec(s, ident.value, c);
        Ok(Some((t, c')))
      else
        Ok(Some((ident.value, c)))
    else if IsDigit(s[j]) then
      var e := DigitsEnd(s, j + 1);
      Ok(Some((NewLeaf(j, s[j..e]), e)))
    else
      Ok(None)
  }

  /** `next_token`: the next token (a leaf or a whole parenthesised group)
      or `None` at the end of the input, with the cursor after it. */
  function NextTokenSpec(s: seq<char>, i: nat): (r: Result<(Option<Token>, nat)>)
    requires i <= |s|
    ensures r.Ok? ==> i <= r.value.1 <= |s|
    ensures r.Ok? && r.value.0.Some? ==> i < r.value.1
    ensures r.Ok? && r.value.0.None? ==> r.value.1 == |s| == SkipSpaces(s, i)
    decreases |s| - i, 0
  {
    var j := SkipSpaces(s, i);
    if j == |s| then Ok((None, j))
    else if s[j] in PUNCTUATION then
      var (t, c) := Punctuation(s, j);
      Ok((Some(t), c))
    else
      var w :- WordOrNumber(s, j);
      if w.Some? then Ok((Some(w.value.0), w.value.1))
      else if s[j] == '(' then
        var (g, c) :- GroupSpec(s, j, true, [], j + 1);
        Ok((Some(g), c))
      else if s[j] == ')' then
        Err(LexerError("unmatched )", Some(Span(j, 1))))
      else
        Err(LexerError("invalid character", Some(Span(j, 1))))
  }

  /** `parse_tokens`: collects tokens into a group starting at `start`
      (the `(` when `nested`), having gathered `acc` so far, cursor `i`.
      The closing `)` is looked for before whitespace is skipped. */
  function GroupSpec(s: seq<char>, start: nat, nested: bool, acc: seq<Token>, i: nat): (r: Result<(Token, nat)>)
    requires start <= i <= |s|
    ensures r.Ok? ==> i <= r.value.1 <= |s|
    ensures r.Ok? ==> r.value.0.Group? && r.value.0.span.Some?
    decreases |s| - i, 1
  {
    if nested && CharAt(s, i) == Some(')') then
      Ok((Group(Some(Span(start, i + 1 - start)), acc), i + 1))
    else
      var (next, c) :- NextTokenSpec(s, i);
      if next.None? then
        if nested then Err(LexerError("expected closing )", None))
        else Ok((Group(Some(Span(start, c - start)), acc), c))
      else
        GroupSpec(s, start, nested, acc + [next.value], c)
  }

  /** Lexing a whole declaration: the top-level group, no parentheses. */
  function Lex(s: seq<char>): (r: Result<Token>)
    ensures r.Ok? ==> r.value.Group? && r.value.span.Some?
  {
    match GroupSpec(s, 0, false, [], 0)
    case Ok((g, _)) => Ok(g)
    case Err(e) => Err(e)
  }
}
