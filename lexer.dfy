/** The lexer: a cursor over the declaration text that moves forward one
    character at a time and is rewound where a construct was read
    speculatively.  Each method is proved to compute the corresponding
    function of `LexSpec` from the cursor it starts at. */
module Lexing {
  import opened Base
  import opened Tokens
  import opened LexSpec
  import ModifierFacts

  /** Rank of a keyword for the recursion of `ParseType`: a modifier run
      re-enters `ParseType` only with `struct` or a primitive type name. */
  function TypeRank(word: string): nat {
    if word in MODIFIERS && word != "struct" then 1 else 0
  }

  class Lexer {
    const s: seq<char>
    var curIndex: nat

    constructor (declString: seq<char>)
      ensures s == declString && curIndex == 0
    {
      s := declString;
      curIndex := 0;
    }

    /** The character under the cursor, `None` at the end. */
    function CurChar(): (ch: Option<char>)
      reads this
      ensures ch.Some? <==> curIndex < |s|
      ensures ch.Some? ==> ch.value == s[curIndex]
    {
      CharAt(s, curIndex)
    }

    /** The character after the cursor, without moving. */
    function PeekChar(): (ch: Option<char>)
      reads this
      ensures ch.Some? <==> curIndex + 1 < |s|
      ensures ch.Some? ==> ch.value == s[curIndex + 1]
    {
      CharAt(s, curIndex + 1)
    }

    /** Moves forward by one and returns the character now under the cursor. */
    method NextChar() returns (ch: Option<char>)
      modifies this
      ensures curIndex == old(curIndex) + 1
      ensures ch == CharAt(s, curIndex)
    {
      curIndex := curIndex + 1;
      ch := CharAt(s, curIndex);
    }

    method SkipSpace() returns (ch: Option<char>)
      requires curIndex <= |s|
      modifies this
      ensures curIndex == SkipSpaces(s, old(curIndex))
      ensures ch == CharAt(s, curIndex)
    {
      ch := CurChar();
      while ch.Some? && IsSpace(ch.value)
        invariant old(curIndex) <= curIndex <= |s|
        invariant ch == CharAt(s, curIndex)
        invariant SkipSpaces(s, curIndex) == SkipSpaces(s, old(curIndex))
        decreases |s| - curIndex
      {
        ch := NextChar();
      }
    }

    method ParseIdent() returns (tok: Option<Token>)
      requires curIndex <= |s|
      modifies this
      ensures (tok, curIndex) == ReadIdent(s, old(curIndex))
    {
      var ch := SkipSpace();
      tok := None;
      if ch.Some? && IsIdentStart(ch.value) {
        var nameStart := curIndex;
        ch := NextChar();
        while ch.Some? && IsIdentChar(ch.value)
          invariant nameStart < curIndex <= |s|
          invariant ch == CharAt(s, curIndex)
          invariant IdentEnd(s, curIndex) == IdentEnd(s, nameStart + 1)
          decreases |s| - curIndex
        {
          ch := NextChar();
        }
        tok := Some(NewLeaf(nameStart, s[nameStart..curIndex]));
      }
    }

    /** Folds the keyword `tok` (just read, the cursor after it) and what
        follows it into one type leaf. */
    method ParseType(tok: Token) returns (r: Result<Token>)
      requires tok.Leaf? && tok.start <= curIndex <= |s| && tok.text in KEYWORDS
      modifies this
      ensures WithCursor(r, curIndex) == ParseTypeSpec(s, tok, old(curIndex))
      decreases TypeRank(tok.text), 1
    {
      if tok.text == "struct" {
        r := ParseStruct(tok);
      } else if tok.text in PRIMTYPES {
        r := ParsePrim(tok);
      } else {
        r := ParseModifiers(tok);
      }
    }

    /** The `struct` branch: the next identifier is the tag. */
    method ParseStruct(tok: Token) returns (r: Result<Token>)
      requires tok.Leaf? && tok.start <= curIndex <= |s|
      modifies this
      ensures WithCursor(r, curIndex) == StructTag(s, tok, old(curIndex))
    {
      var name := ParseIdent();
      if name.None? {
        return Err(LexerError("expected an identifier", Some(Span(curIndex, 1))));
      }
      if name.value.text in KEYWORDS {
        return Err(LexerError("cannot use '" + name.value.text + "' as an identifier", TokSpan(name.value)));
      }
      var length := curIndex - tok.start;
      var mods := AddModifier(tok.mods, "struct");
      if mods.Err? {
        return Err(mods.error);
      }
      return Ok(Leaf(tok.start, name.value.text, length, mods.value));
    }

    /** The primitive-type branch: `long` may absorb the next word. */
    method ParsePrim(tok: Token) returns (r: Result<Token>)
      requires tok.Leaf? && tok.start <= curIndex <= |s|
      modifies this
      ensures WithCursor(r, curIndex) == Ok(PrimType(s, tok, old(curIndex)))
    {
      if tok.text == "long" {
        var initialIndex := curIndex;
        var next := ParseIdent();
        if next.Some? && next.value.text in LONGTYPES {
          return Ok(tok.(text := tok.text + " " + next.value.text, length := curIndex - tok.start));
        }
        curIndex := initialIndex;  // not a two-word type: rewind
      }
      return Ok(tok);
    }

    /** The modifier branch: reads a run of modifiers, then the type name
        they apply to, and attaches them to the leaf. */
    method ParseModifiers(tok: Token) returns (r: Result<Token>)
      requires tok.Leaf? && tok.start <= curIndex <= |s| && tok.text in MODIFIERS && tok.text != "struct"
      modifies this
      ensures WithCursor(r, curIndex) == ParseTypeSpec(s, tok, old(curIndex))
      decreases TypeRank(tok.text), 0
    {
      ghost var spec := ParseTypeSpec(s, tok, curIndex);
      var mods := [tok.text];
      var beforeNext := curIndex;
      var next := ParseIdent();
      ModifierFacts.RunStarts(s, tok, beforeNext);
      while next.Some? && next.value.text in MODIFIERS
        invariant tok.start <= beforeNext <= curIndex <= |s| && |mods| > 0
        invariant next.Some? ==> next.value.Leaf? && beforeNext < curIndex
        invariant ModifierRun(s, tok, mods, beforeNext, next, curIndex) == spec
        decreases |s| - beforeNext
      {
        var w := next.value.text;
        if w == "struct" {
          if |mods| != 1 || mods[0] != "const" {
            ModifierFacts.RunStructRefused(s, tok, mods, beforeNext, next, curIndex);
            return Err(LexerError("the only valid modifier for struct is 'const'",
                                  Some(Span(tok.start, curIndex - tok.start))));
          }
          assert mods == ["const"];
          r := ParseConstStruct(tok, beforeNext, next);
          return;
        }
        if (w == "signed" || w == "unsigned") && ("signed" in mods || "unsigned" in mods) {
          ModifierFacts.RunClash(s, tok, mods, beforeNext, next, curIndex);
          return Err(LexerError("cannot have signed and unsigned", Some(Span(tok.start, curIndex - tok.start))));
        }
        ModifierFacts.RunStep(s, tok, mods, beforeNext, next, curIndex);
        mods := mods + [w];
        beforeNext := curIndex;
        next := ParseIdent();
      }
      ModifierFacts.RunEnds(s, tok, mods, beforeNext, next, curIndex);
      r := ResolveModifiers(tok, mods, beforeNext, next);
    }

    /** `const struct`: the run is re-read as a struct tag that carries
        `const`. */
    method ParseConstStruct(tok: Token, beforeNext: nat, next: Option<Token>) returns (r: Result<Token>)
      requires tok.Leaf? && tok.start <= beforeNext < curIndex <= |s|
      requires next.Some? && next.value.Leaf? && next.value.text == "struct"
      modifies this
      ensures WithCursor(r, curIndex) == ModifierRun(s, tok, ["const"], beforeNext, next, old(curIndex))
      decreases TypeRank("struct"), 2
    {
      ModifierFacts.StructAfterConst(s, tok, beforeNext, next, curIndex);
      var m := AddModifier(tok.mods, "const");
      if m.Err? {
        return Err(m.error);
      }
      r := ParseType(Leaf(tok.start, "struct", curIndex - tok.start, m.value));
    }

    /** After a modifier run: settles the type name, rewinding when it
        defaults to `int`, and attaches the modifiers in order. */
    method ResolveModifiers(tok: Token, mods: seq<string>, beforeNext: nat, next: Option<Token>)
      returns (r: Result<Token>)
      requires tok.Leaf? && tok.start <= beforeNext <= curIndex <= |s| && |mods| > 0
      requires next.Some? ==> next.value.Leaf?
      modifies this
      ensures WithCursor(r, curIndex) == ResolveRun(s, tok, mods, beforeNext, next, old(curIndex))
    {
      var name: string;
      if next.None? || next.value.text !in PRIMTYPES {
        if mods[|mods| - 1] == "signed" || mods[|mods| - 1] == "unsigned" {
          curIndex := beforeNext;  // rewind: the next word is not part of the type
          name := "int";
        } else if next.None? {
          return Err(LexerError("expected a type name or modifier", Some(Span(curIndex, 1))));
        } else {
          return Err(LexerError("expected a type name or modifier", TokSpan(next.value)));
        }
      } else {
        name := next.value.text;
      }
      var length := curIndex - tok.start;
      var flags := tok.mods;
      for k := 0 to |mods|
        invariant AddModifiers(tok.mods, mods) == AddModifiers(flags, mods[k..])
      {
        var added := AddModifier(flags, mods[k]);
        if added.Err? {
          return Err(added.error);
        }
        assert mods[k..] == [mods[k]] + mods[k + 1..];
        flags := added.value;
      }
      assert mods[|mods|..] == [];
      r := ParsePrim(Leaf(tok.start, name, length, flags));
    }

    /** The next token, or `None` at the end of the input. */
    method NextToken() returns (r: Result<Option<Token>>)
      requires curIndex <= |s|
      modifies this
      ensures WithCursor(r, curIndex) == NextTokenSpec(s, old(curIndex))
      decreases |s| - curIndex, 0
    {
      var ch := SkipSpace();
      if ch.None? {
        return Ok(None);
      }
      var c := ch.value;
      if c in PUNCTUATION {
        var tok := ReadPunctuation();
        return Ok(Some(tok));
      }
      r := ReadWordOrNumber();
      if r.Err? || r.value.Some? {
        return;
      }
      if c == '(' {
        ch := NextChar();
        var group := ParseTokens(true);
        return if group.Ok? then Ok(Some(group.value)) else Err(group.error);
      }
      if c == ')' {
        return Err(LexerError("unmatched )", Some(Span(curIndex, 1))));
      }
      return Err(LexerError("invalid character", Some(Span(curIndex, 1))));
    }

    /** Punctuation under the cursor; `*` speculatively absorbs a following
        `const` and rewinds when there is none. */
    method ReadPunctuation() returns (tok: Token)
      requires curIndex < |s| && s[curIndex] in PUNCTUATION
      modifies this
      ensures (tok, curIndex) == Punctuation(s, old(curIndex))
    {
      var c := s[curIndex];
      if c == '*' {
        var initialPos := curIndex;
        var _ := NextChar();
        var ident := ParseIdent();
        if ident.Some? && ident.value.text == "const" {
          return Leaf(initialPos, "*", curIndex - initialPos, ["const"]);
        }
        curIndex := initialPos;  // not a constant pointer: rewind
      }
      var _ := NextChar();
      return NewLeaf(curIndex - 1, [c]);
    }

    /** A word (folded when it is a keyword) or a number under the cursor;
        `None`, the cursor unmoved, when neither starts there. */
    method ReadWordOrNumber() returns (r: Result<Option<Token>>)
      requires curIndex < |s| && !IsSpace(s[curIndex])
      modifies this
      ensures match WordOrNumber(s, old(curIndex))
              case Err(e) => r == Err(e)
              case Ok(None) => r == Ok(None) && curIndex == old(curIndex)
              case Ok(Some((t, c))) => r == Ok(Some(t)) && curIndex == c
    {
      var c := s[curIndex];
      var tok := ParseIdent();
      if tok.Some? {
        if tok.value.text in KEYWORDS {
          var t := ParseType(tok.value);
          return if t.Ok? then Ok(Some(t.value)) else Err(t.error);
        }
        return Ok(tok);
      }
      if IsDigit(c) {
        var numStart := curIndex;
        var ch := NextChar();
        while ch.Some? && IsDigit(ch.value)
          invariant numStart < curIndex <= |s|
          invariant ch == CharAt(s, curIndex)
          invariant DigitsEnd(s, curIndex) == DigitsEnd(s, numStart + 1)
          decreases |s| - curIndex
        {
          ch := NextChar();
        }
        return Ok(Some(NewLeaf(numStart, s[numStart..curIndex])));
      }
      return Ok(None);
    }

    /** Collects tokens into a group; a nested group (the cursor just after
        its `(`) must end at a `)`. */
    method ParseTokens(nested: bool) returns (r: Result<Token>)
      requires curIndex <= |s| && (nested ==> curIndex >= 1)
      modifies this
      ensures WithCursor(r, curIndex)
              == GroupSpec(s, if nested then old(curIndex) - 1 else old(curIndex), nested, [], old(curIndex))
      decreases |s| - curIndex, 1
    {
      var start := if nested then curIndex - 1 else curIndex;
      var group := Group(None, []);  // the span is known once the group ends
      ghost var spec := GroupSpec(s, start, nested, [], curIndex);
      while true
        invariant start <= curIndex <= |s| && group.Group?
        invariant GroupSpec(s, start, nested, group.items, curIndex) == spec
        decreases |s| - curIndex
      {
        if nested && CurChar() == Some(')') {
          var _ := NextChar();
          return Ok(Group(Some(Span(start, curIndex - start)), group.items));
        }
        GroupStep(s, start, nested, group.items, curIndex);
        var tok := NextToken();
        if tok.Err? {
          return Err(tok.error);
        }
        if tok.value.None? {
          if nested {
            return Err(LexerError("expected closing )", None));
          }
          return Ok(Group(Some(Span(start, curIndex - start)), group.items));
        }
        group := Append(group, tok.value.value);
      }
    }
  }

  /** One round of `parse_tokens` away from a closing `)`: the next
      token ends the group, fails it, or joins it. */
  lemma GroupStep(s: seq<char>, start: nat, nested: bool, acc: seq<Token>, i: nat)
    requires start <= i <= |s| && !(nested && CharAt(s, i) == Some(')'))
    ensures var n := NextTokenSpec(s, i);
      GroupSpec(s, start, nested, acc, i)
        == if n.Err? then Err(n.error)
           else if n.value.0.Some? then GroupSpec(s, start, nested, acc + [n.value.0.value], n.value.1)
           else if nested then Err(LexerError("expected closing )", None))
           else Ok((Group(Some(Span(start, n.value.1 - start)), acc), n.value.1))
  {
  }

  /** Lexes a whole declaration into its top-level token group. */
  method LexDeclaration(declString: seq<char>) returns (r: Result<Token>)
    ensures r == Lex(declString)
  {
    var lexer := new Lexer(declString);
    r := lexer.ParseTokens(false);
  }
}
