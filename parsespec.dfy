/** The parser as pure functions over the items of a token group.  The
    phases of one level follow each other in a fixed order: base type,
    `*` chain, a name or a parenthesised group, a parameter list, array
    dimensions, the leftover check, the function wrap, the recursion into
    the saved group, and the final void check.  The imperative
    `Parsing.Parser` is proved to compute exactly these. */
module ParseSpec {
  import opened Base
  import opened Tokens
  import opened Ast
  import opened LexSpec

  /** The error `error(msg)` reports at index `i`: underlining the token
      there, or the column just after the last token when `i` is past the
      end. */
  function ErrorAt(items: seq<Token>, i: nat, msg: string): (e: Error)
    requires |items| > 0
    ensures e.ParserError? && e.msg == msg
    ensures i < |items| ==> e.at == TokSpan(items[i])
    ensures i >= |items| && TokSpan(items[|items| - 1]).Some? ==> e.at == Some(Span(End(items[|items| - 1]), 1))
  {
    if i >= |items| then
      var last := TokSpan(items[|items| - 1]);
      ParserError(msg, if last.Some? then Some(Span(last.value.start + last.value.length, 1)) else None)
    else
      ParserError(msg, TokSpan(items[i]))
  }

  /** `check_void_decl`: a level that started from a bare `void` must have
      wrapped it in something. */
  function CheckVoid(child: Option<Node>, voidTok: Option<Token>): (r: Result<Node>)
    ensures child.Some? <==> r.Ok?
    ensures r.Ok? ==> r.value == child.value
  {
    match child
    case Some(n) => Ok(n)
    case None =>
      match voidTok
      case Some(v) => Err(ParserError("void on its own is not a valid type", TokSpan(v)))
      case None => Err(InternalError)  // underlining a missing token
  }

  /** `tok.string == p`: only a leaf, which can be underlined, matches. */
  predicate IsPunct(t: Token, p: string)
    ensures IsPunct(t, p) ==> !IsGroup(t) && TokSpan(t).Some?
  {
    t.Leaf? && t.text == p
  }

  /** The `*` chain from `i`: each star wraps the child so far. */
  function Pointers(items: seq<Token>, i: nat, child: Option<Node>): (r: (nat, Option<Node>))
    requires i <= |items|
    ensures i <= r.0 <= |items|
    decreases |items| - i
  {
    if i < |items| && IsPunct(items[i], "*") then
      Pointers(items, i + 1, Some(PointerNode(child, HasModifier(items[i], "const"))))
    else
      (i, child)
  }

  /** An optional name (skipped, but never a keyword) or a parenthesised
      group (kept to recurse into once this level is done). */
  function NameOrGroup(items: seq<Token>, i: nat): (r: Result<(nat, Option<Token>)>)
    requires 0 < |items| && i <= |items|
    ensures r.Ok? ==> i <= r.value.0 <= |items|
    ensures r.Ok? && r.value.1.Some? ==> r.value.1.value.Group? && r.value.1.value in items
  {
    if i < |items| then
      if IsName(items[i]) then
        if items[i].text in KEYWORDS then
          Err(ErrorAt(items, i, "cannot use '" + items[i].text + "' as an identifier"))
        else Ok((i + 1, None))
      else if IsGroup(items[i]) then Ok((i + 1, Some(items[i])))
      else Ok((i, None))
    else Ok((i, None))
  }

  /** First index at or after `i` holding a `,`, or the end. */
  function CommaAt(ts: seq<Token>, i: nat): (j: nat)
    requires i <= |ts|
    ensures i <= j <= |ts|
    ensures forall k :: i <= k < j ==> !IsPunct(ts[k], ",")
    ensures j < |ts| ==> IsPunct(ts[j], ",")
    decreases |ts| - i
  {
    if i == |ts| || IsPunct(ts[i], ",") then i else CommaAt(ts, i + 1)
  }

  /** The dimensions from `i`: `[` with an optional number, then `]`;
      `dims` holds those read so far, left to right. */
  function Dimensions(items: seq<Token>, i: nat, dims: seq<Option<nat>>): (r: Result<(nat, seq<Option<nat>>)>)
    requires 0 < |items| && i <= |items|
    ensures r.Ok? ==> i <= r.value.0 <= |items|
    ensures r.Ok? ==> r.value.0 == |items| || !IsPunct(items[r.value.0], "[")
    decreases |items| - i
  {
    if i < |items| && IsPunct(items[i], "[") then
      var j := i + 1;
      if j >= |items| then Err(ErrorAt(items, j, "expected another token"))
      else
        var (dim, k) :- if IsNum(items[j]) then
                          var n :- GetNum(items[j]);
                          Ok((Some(n), j + 1))
                        else Ok((None, j));
        if k >= |items| then Err(ErrorAt(items, k, "expected another token"))
        else if !IsPunct(items[k], "]") then Err(ErrorAt(items, k, "expected ]"))
        else Dimensions(items, k + 1, dims + [dim])
    else Ok((i, dims))
  }

  /** Wraps the child in the dimensions, the last one first, so that the
      first dimension written ends up outermost. */
  function WrapArrays(dims: seq<Option<nat>>, child: Option<Node>, voidTok: Option<Token>): (r: Result<Option<Node>>)
    ensures r.Ok? && dims != [] ==> r.value.Some? && r.value.value.Array?
    ensures r.Ok? && dims == [] ==> r.value == child
    decreases |dims|
  {
    if dims == [] then Ok(child)
    else if child.None? then
      if voidTok.Some? then Err(ParserError("arrays cannot store void", TokSpan(voidTok.value)))
      else Err(InternalError)  // underlining a missing token
    else
      var arr := ArrayNode(child, dims[|dims| - 1]);
      var arr' := if child.value.Function? then AddWarning(arr, ARRAY_OF_FUNCTIONS) else arr;
      WrapArrays(dims[..|dims| - 1], Some(arr'), voidTok)
  }

  /** The function wrap: a function returning a function is flagged. */
  function WrapFunction(child: Option<Node>, params: Params): (n: Node)
    ensures n.Function? && n.child == child && n.params == params
    ensures n.warnings == if IsFunction(child) then [FUNCTION_RETURNING_FUNCTION] else []
  {
    var func := FunctionNode(child, params);
    if IsFunction(child) then AddWarning(func, FUNCTION_RETURNING_FUNCTION) else func
  }

  /** The error of a parser built over an empty group: the group is
      underlined, which fails outright for a group the parser collected
      itself (a parameter), since such a group has no position. */
  function EmptyGroupError(span: Option<Span>): (e: Error)
    ensures e.ParserError? <==> span.Some?
    ensures e.ParserError? ==> e == ParserError("expected more tokens here", span)
  {
    if span.Some? then ParserError("expected more tokens here", span) else InternalError
  }

  /** A parser built over a group, with the inner node found so far. */
  function ParseGroup(tokens: Token, child: Option<Node>): (r: Result<Node>)
    requires tokens.Group?
    ensures |tokens.items| == 0 ==> r.Err? && (r.error.ParserError? <==> tokens.span.Some?)
    decreases Size(tokens), 4, 0
  {
    if |tokens.items| == 0 then Err(EmptyGroupError(tokens.span))
    else ParseItems(tokens.items, child)
  }

  /** `parse` over the items of a non-empty group, with the inner node
      found so far (`None`: none, or `void`). */
  function ParseItems(items: seq<Token>, child: Option<Node>): (r: Result<Node>)
    requires |items| > 0
    ensures child.None? && !IsType(items[0]) ==> r == Err(ErrorAt(items, 0, "expected a type name"))
    ensures child.None? && |items| == 1 && IsType(items[0]) ==> (r.Ok? <==> items[0].text != "void")
    decreases SizeAll(items) + 1, 3, 0
  {
    if child.None? then
      var t := items[0];
      if !IsType(t) then Err(ErrorAt(items, 0, "expected a type name"))
      else
        var voidTok := if t.text == "void" then Some(t) else None;
        var base := if t.text == "void" then None else Some(TypeNode(t));
        if |items| == 1 then CheckVoid(base, voidTok)
        else Declarator(items, 1, base, voidTok)
    else
      Declarator(items, 0, child, None)
  }

  /** The phases after the base type, from index `i`. */
  function Declarator(items: seq<Token>, i: nat, child: Option<Node>, voidTok: Option<Token>): (r: Result<Node>)
    requires 0 < |items| && i <= |items|
    ensures i == |items| ==> r == CheckVoid(child, voidTok)
    decreases SizeAll(items) + 1, 2, 0
  {
    var (j, pointed) := Pointers(items, i, child);
    var (k, parent) :- NameOrGroup(items, j);
    var (l, params) :- ParamList(items, k);
    var (m, dims) :- Dimensions(items, l, []);
    var arrays :- WrapArrays(dims, pointed, voidTok);
    if m < |items| then Err(ErrorAt(items, m, "unexpected tokens"))
    else
      var func := if params.Some? then Some(WrapFunction(arrays, params.value)) else arrays;
      if parent.Some? then
        MemberSize(items, parent.value);
        var n :- ParseGroup(parent.value, func);
        CheckVoid(Some(n), voidTok)
      else
        CheckVoid(func, voidTok)
  }

  lemma MemberSize(items: seq<Token>, g: Token)
    requires g in items
    ensures Size(g) <= SizeAll(items)
  {
    var k :| 0 <= k < |items| && items[k] == g;
    SizeAllSlice(items, k, |items|);
  }

  /** A parameter list at `k`: `None` when there is none; otherwise
      `AnyParams` for `()`, no parameters for `(void)`, and the parsed
      parameters otherwise. */
  function ParamList(items: seq<Token>, k: nat): (r: Result<(nat, Option<Params>)>)
    requires 0 < |items| && k <= |items|
    ensures r.Ok? ==> k <= r.value.0 <= |items|
    decreases SizeAll(items) + 1, 1, 0
  {
    if k < |items| && IsGroup(items[k]) then
      var pg := items[k].items;
      if |pg| == 0 then Ok((k + 1, Some(AnyParams)))
      else if |pg| == 1 && IsPunct(pg[0], "void") then Ok((k + 1, Some(Declared([]))))
      else
        SizeAllSlice(items, k, |items|);
        var ps :- ParseParams(pg, 0, []);
        Ok((k + 1, Some(Declared(ps))))
    else Ok((k, None))
  }

  /** One parameter: the tokens between commas, parsed as a group of
      their own that has no span; a parameter that is directly a function
      is flagged. */
  function ParseParam(param: seq<Token>): (r: Result<Node>)
    ensures |param| == 0 ==> r == Err(InternalError)
    ensures r.Ok? <==> ParseGroup(Group(None, param), None).Ok?
    ensures r.Ok? && r.value.Function? ==> |r.value.warnings| > 0
                                           && r.value.warnings[|r.value.warnings| - 1] == RAW_FUNCTION_PARAMETER
    decreases SizeAll(param) + 1, 5, 0
  {
    var node :- ParseGroup(Group(None, param), None);
    Ok(if node.Function? then AddWarning(node, RAW_FUNCTION_PARAMETER) else node)
  }

  /** The parameters from index `i` of the parameter group, appended to
      `acc`: each run up to a `,` is one parameter. */
  function ParseParams(pg: seq<Token>, i: nat, acc: seq<Node>): (r: Result<seq<Node>>)
    requires i <= |pg|
    ensures r.Ok? ==> |acc| < |r.value| || i == |pg|
    ensures r.Ok? ==> |acc| <= |r.value| && r.value[..|acc|] == acc
    decreases SizeAll(pg) + 1, 6, |pg| - i
  {
    if i >= |pg| then Ok(acc)
    else
      var j := CommaAt(pg, i);
      SizeAllSlice(pg, i, j);
      var node :- ParseParam(pg[i..j]);
      ParseParams(pg, if j < |pg| then j + 1 else j, acc + [node])
  }

  /** Lexing and then parsing a whole declaration. */
  function Declaration(s: string): (r: Result<Node>)
    ensures Lex(s).Err? ==> r == Err(Lex(s).error)
    ensures r.Ok? ==> Lex(s).Ok? && |Lex(s).value.items| > 0
  {
    var tokens :- Lex(s);
    ParseGroup(tokens, None)
  }
}
