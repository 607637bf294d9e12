/** Lexer tokens: leaves (a lexeme with its source span and modifier
    flags) and groups (everything between a matched pair of parentheses). */
module Tokens {
  import opened Base

  /** A leaf records the exact span it was lexed from: `start` and
      `length` are offsets into the declaration.  Its `text` is the lexeme,
      or the resolved type name / struct tag once the lexer has folded a
      compound type.  A group's span is `None` only for the parameter
      groups that the parser builds itself. */
  datatype Token =
    | Leaf(start: nat, text: string, length: nat, mods: seq<string>)
    | Group(span: Option<Span>, items: seq<Token>)

  /** Number of tokens in a token tree, the measure of the parser's
      recursion into groups. */
  function Size(t: Token): (n: nat)
    ensures n >= 1
  {
    match t
    case Leaf(_, _, _, _) => 1
    case Group(_, items) => 1 + SizeAll(items)
  }

  function SizeAll(ts: seq<Token>): nat {
    if ts == [] then 0 else Size(ts[0]) + SizeAll(ts[1..])
  }

  lemma {:induction false} SizeAllConcat(a: seq<Token>, b: seq<Token>)
    ensures SizeAll(a + b) == SizeAll(a) + SizeAll(b)
    decreases |a|
  {
    if a == [] {
      assert a + b == b;
    } else {
      assert (a + b)[1..] == a[1..] + b;
      SizeAllConcat(a[1..], b);
    }
  }

  /** A slice of a token sequence is no bigger than the sequence, and an
      element no bigger than the whole. */
  lemma SizeAllSlice(ts: seq<Token>, i: nat, j: nat)
    requires i <= j <= |ts|
    ensures SizeAll(ts[i..j]) <= SizeAll(ts)
    ensures i < j ==> Size(ts[i]) <= SizeAll(ts)
  {
    assert ts == ts[..i] + ts[i..j] + ts[j..];
    SizeAllConcat(ts[..i] + ts[i..j], ts[j..]);
    SizeAllConcat(ts[..i], ts[i..j]);
  }

  /** A fresh leaf covering exactly its own lexeme. */
  function NewLeaf(start: nat, text: string): (t: Token)
    ensures t.Leaf? && t.text == text && t.mods == [] && TokSpan(t) == Some(Span(start, |text|))
  {
    Leaf(start, text, |text|, [])
  }

  /** Where an underline of this token falls. */
  function TokSpan(t: Token): (r: Option<Span>)
    ensures r.None? <==> t.Group? && t.span.None?
    ensures t.Leaf? ==> r == Some(Span(t.start, t.length))
  {
    match t
    case Leaf(start, _, length, _) => Some(Span(start, length))
    case Group(span, _) => span
  }

  /** Is this a type or variable name? */
  predicate IsName(t: Token)
    ensures IsName(t) ==> t.Leaf? && |t.text| > 0 && !IsDigit(t.text[0])
  {
    t.Leaf? && |t.text| > 0 && IsIdentStart(t.text[0])
  }

  /** Is this a type name (a primitive type or a struct)? */
  predicate IsType(t: Token)
    ensures IsType(t) ==> IsName(t) && !IsNum(t)
  {
    IsName(t) && (t.text in PRIMTYPES || "struct" in t.mods)
  }

  /** Every primitive type word is a type name. */
  lemma PrimTypeIsType(t: Token)
    requires t.Leaf? && t.text in PRIMTYPES
    ensures IsType(t)
  {
  }

  /** Is this token an integer? */
  predicate IsNum(t: Token)
    ensures IsNum(t) ==> !IsName(t)
  {
    t.Leaf? && |t.text| > 0 && IsDigit(t.text[0])
  }

  /** Is this a token group?  A group is neither a name nor a number. */
  predicate IsGroup(t: Token)
    ensures IsGroup(t) ==> !IsName(t) && !IsNum(t)
  {
    t.Group?
  }

  /** Does this token carry the given modifier flag?  Groups carry none. */
  predicate HasModifier(t: Token, m: string)
    ensures HasModifier(t, m) ==> t.Leaf? && AddModifier(t.mods, m).Err?
  {
    t.Leaf? && m in t.mods
  }

  predicate Distinct(mods: seq<string>) {
    forall i, j :: 0 <= i < j < |mods| ==> mods[i] != mods[j]
  }

  /** Adding a modifier flag: a duplicate or a word that is not a modifier
      is the program's internal error. */
  function AddModifier(mods: seq<string>, m: string): (r: Result<seq<string>>)
    ensures r.Ok? <==> m in MODIFIERS && m !in mods
    ensures r.Ok? ==> r.value == mods + [m]
    ensures r.Err? ==> r.error == InternalError
    ensures r.Ok? && Distinct(mods) ==> Distinct(r.value)
  {
    if m in mods || m !in MODIFIERS then Err(InternalError) else Ok(mods + [m])
  }

  /** Appending a token to a group keeps the earlier items and the span. */
  function Append(group: Token, tok: Token): (r: Token)
    requires group.Group?
    ensures r.Group? && r.span == group.span
    ensures |r.items| == |group.items| + 1 && r.items[..|group.items|] == group.items
    ensures r.items[|group.items|] == tok
  {
    Group(group.span, group.items + [tok])
  }

  // ---------------------------------------------------------------------
  // Numbers
  // ---------------------------------------------------------------------

  predicate AllDigits(d: string) {
    forall k :: 0 <= k < |d| ==> IsDigit(d[k])
  }

  function DigitValue(c: char): nat
    requires IsDigit(c)
  {
    (c as int) - ('0' as int)
  }

  /** Decimal value of a digit string, read left to right. */
  function DecimalValue(d: string): nat
    requires AllDigits(d)
  {
    if d == [] then 0 else DecimalValue(d[..|d| - 1]) * 10 + DigitValue(d[|d| - 1])
  }

  function DigitChar(k: nat): (c: char)
    requires k < 10
    ensures IsDigit(c) && DigitValue(c) == k
  {
    ('0' as int + k) as char
  }

  /** The canonical decimal spelling of `n`. */
  function DecimalString(n: nat): (d: string)
    ensures |d| > 0
  {
    if n < 10 then [DigitChar(n)] else DecimalString(n / 10) + [DigitChar(n % 10)]
  }

  /** The integer a number token stands for; asking a group or a non-number
      (or a lexeme that is not all digits, where `int()` would fail) is an
      internal error. */
  function GetNum(t: Token): (r: Result<nat>)
    ensures r.Ok? <==> IsNum(t) && AllDigits(t.text)
    ensures r.Err? ==> r.error == InternalError
  {
    if !IsNum(t) || !AllDigits(t.text) then Err(InternalError) else Ok(DecimalValue(t.text))
  }

  /** Reading back the canonical spelling of a number yields the number. */
  lemma {:induction false} DecimalRoundTrip(n: nat)
    ensures AllDigits(DecimalString(n)) && DecimalValue(DecimalString(n)) == n
  {
    if n >= 10 {
      DecimalRoundTrip(n / 10);
      var d := DecimalString(n);
      assert d[..|d| - 1] == DecimalString(n / 10);
    }
  }

  /** A number leaf spelled canonically gives back its value. */
  lemma GetNumRoundTrip(start: nat, n: nat)
    ensures GetNum(NewLeaf(start, DecimalString(n))) == Ok(n)
  {
    DecimalRoundTrip(n);
  }

  /** Leading zeros do not change the value, as with `int("007")`. */
  lemma {:induction false} LeadingZeros(z: nat, d: string)
    requires AllDigits(d)
    ensures AllDigits(seq(z, _ => '0') + d) && DecimalValue(seq(z, _ => '0') + d) == DecimalValue(d)
  {
    if d == [] {
      var zs := seq(z, _ => '0');
      assert zs + d == zs;
      ZerosValue(z);
    } else {
      var zs := seq(z, _ => '0');
      assert (zs + d)[..|zs + d| - 1] == zs + d[..|d| - 1];
      LeadingZeros(z, d[..|d| - 1]);
    }
  }

  lemma {:induction false} ZerosValue(z: nat)
    ensures AllDigits(seq(z, _ => '0')) && DecimalValue(seq(z, _ => '0')) == 0
  {
    if z > 0 {
      assert seq(z, _ => '0')[..z - 1] == seq(z - 1, _ => '0');
      ZerosValue(z - 1);
    }
  }
}
