/** The imperative parser: an object over one token group that moves an
    index through the group's items and builds the declarator tree bottom
    up in its `child` field.  Every method is proved to compute what the
    matching function of `ParseSpec` computes. */
module Parsing {
  import opened Base
  import opened Tokens
  import opened Ast
  import opened LexSpec
  import opened ParseSpec
  import Lexing

  /** A phase method's result `r`, with the index it leaves behind, agrees
      with the `(index, value)` result `s` of its specification. */
  predicate Follows<T(==)>(r: Result<T>, index: nat, s: Result<(nat, T)>) {
    if s.Ok? then r == Ok(s.value.1) && index == s.value.0 else r == Err(s.error)
  }

  class Parser {
    const tokens: Token
    var child: Option<Node>
    var index: nat

    predicate Valid() {
      tokens.Group? && |tokens.items| > 0
    }

    constructor (tokens: Token, child: Option<Node>)
      requires tokens.Group? && |tokens.items| > 0
      ensures Valid() && this.tokens == tokens && this.child == child && index == 0
    {
      this.tokens := tokens;
      this.child := child;
      index := 0;
    }

    function Current(): (r: Option<Token>)
      reads this
      requires Valid()
      ensures r.Some? <==> index < |tokens.items|
      ensures r.Some? ==> r.value == tokens.items[index]
    {
      if index >= |tokens.items| then None else Some(tokens.items[index])
    }

    method Next()
      modifies this
      ensures index == old(index) + 1 && child == old(child)
    {
      index := index + 1;
    }

    /** The error reported at the current index. */
    function ErrorHere(msg: string): (e: Error)
      reads this
      requires Valid()
      ensures e.ParserError? && e.msg == msg
      ensures index < |tokens.items| ==> e.at == TokSpan(tokens.items[index])
      ensures index >= |tokens.items| && TokSpan(tokens.items[|tokens.items| - 1]).Some?
              ==> e.at == Some(Span(End(tokens.items[|tokens.items| - 1]), 1))
    {
      ErrorAt(tokens.items, index, msg)
    }

    /** The current token, which must exist. */
    function Expect(): (r: Result<Token>)
      reads this
      requires Valid()
      ensures r.Ok? <==> index < |tokens.items|
      ensures r.Ok? ==> r.value == tokens.items[index]
    {
      if index >= |tokens.items| then Err(ErrorHere("expected another token"))
      else Ok(tokens.items[index])
    }

    /** Parses a whole group: the base type unless an inner node was handed
        in, then the declarator. */
    method Parse() returns (r: Result<Node>)
      requires Valid() && index == 0
      modifies this
      ensures r == ParseItems(tokens.items, old(child))
      ensures r.Ok? ==> child == Some(r.value) && index == |tokens.items|
      decreases SizeAll(tokens.items) + 1, 3
    {
      var voidTok: Option<Token> := None;
      if child.None? {
        var t := tokens.items[0];
        if !IsType(t) {
          return Err(ErrorHere("expected a type name"));
        }
        if t.text == "void" {
          voidTok := Some(t);
        } else {
          child := Some(TypeNode(t));
        }
        Next();
        if Current().None? {
          r := CheckVoid(child, voidTok);
          return;
        }
      }
      r := ParseDeclarator(voidTok);
    }

    /** Everything after the base type. */
    method ParseDeclarator(voidTok: Option<Token>) returns (r: Result<Node>)
      requires Valid() && index <= |tokens.items|
      modifies this
      ensures r == Declarator(tokens.items, old(index), old(child), voidTok)
      ensures r.Ok? ==> child == Some(r.value) && index == |tokens.items|
      decreases SizeAll(tokens.items) + 1, 2
    {
      ParsePointers();
      var parentGroup :- ParseNameOrGroup();
      var params :- ParseParamList();
      var dims :- ParseDimensions();
      var arrays :- WrapDimensions(dims, voidTok);
      if index < |tokens.items| {
        return Err(ErrorHere("unexpected tokens"));
      }
      if params.Some? {
        child := Some(WrapFunction(child, params.value));
      }
      if parentGroup.Some? {
        MemberSize(tokens.items, parentGroup.value);
        var parser :- NewParser(parentGroup.value, child);
        var n :- parser.Parse();
        child := Some(n);
      }
      r := CheckVoid(child, voidTok);
    }

    /** As many `*` as there are, each wrapping the child in a pointer. */
    method ParsePointers()
      requires Valid() && index <= |tokens.items|
      modifies this
      ensures (index, child) == Pointers(tokens.items, old(index), old(child))
    {
      while index < |tokens.items| && IsPunct(tokens.items[index], "*")
        invariant index <= |tokens.items|
        invariant Pointers(tokens.items, index, child) == Pointers(tokens.items, old(index), old(child))
        decreases |tokens.items| - index
      {
        var isConst := HasModifier(tokens.items[index], "const");
        child := Some(PointerNode(child, isConst));
        Next();
      }
    }

    /** An optional name, or a group kept for later. */
    method ParseNameOrGroup() returns (r: Result<Option<Token>>)
      requires Valid() && index <= |tokens.items|
      modifies this
      ensures Follows(r, index, NameOrGroup(tokens.items, old(index)))
      ensures child == old(child)
    {
      r := Ok(None);
      var cur := Current();
      if cur.Some? {
        if IsName(cur.value) {
          if cur.value.text in KEYWORDS {
            return Err(ErrorHere("cannot use '" + cur.value.text + "' as an identifier"));
          }
          Next();
        } else if IsGroup(cur.value) {
          r := Ok(cur);
          Next();
        }
      }
    }

    /** An optional parameter list: `None` when there is none. */
    method ParseParamList() returns (r: Result<Option<Params>>)
      requires Valid() && index <= |tokens.items|
      modifies this
      ensures Follows(r, index, ParamList(tokens.items, old(index)))
      ensures child == old(child)
      decreases SizeAll(tokens.items) + 1, 1
    {
      r := Ok(None);
      var cur := Current();
      if cur.Some? && IsGroup(cur.value) {
        var paramGroup := cur.value.items;
        if |paramGroup| == 0 {
          r := Ok(Some(AnyParams));
        } else if |paramGroup| == 1 && IsPunct(paramGroup[0], "void") {
          r := Ok(Some(Declared([])));
        } else {
          SizeAllSlice(tokens.items, index, |tokens.items|);
          var params :- ParseParameters(paramGroup);
          r := Ok(Some(Declared(params)));
        }
        Next();
      }
    }

    /** As many `[size]` or `[]` as there are, left to right. */
    method ParseDimensions() returns (r: Result<seq<Option<nat>>>)
      requires Valid() && index <= |tokens.items|
      modifies this
      ensures Follows(r, index, Dimensions(tokens.items, old(index), []))
      ensures child == old(child)
    {
      var dims: seq<Option<nat>> := [];
      while index < |tokens.items| && IsPunct(tokens.items[index], "[")
        invariant index <= |tokens.items| && child == old(child)
        invariant Dimensions(tokens.items, index, dims) == Dimensions(tokens.items, old(index), [])
        decreases |tokens.items| - index
      {
        ghost var spec := Dimensions(tokens.items, index, dims);
        Next();
        var tok :- Expect();
        if IsNum(tok) {
          var n :- GetNum(tok);
          dims := dims + [Some(n)];
          Next();
        } else {
          dims := dims + [None];
        }
        tok :- Expect();
        if !IsPunct(tok, "]") {
          return Err(ErrorHere("expected ]"));
        }
        Next();
        assert spec == Dimensions(tokens.items, index, dims);
      }
      r := Ok(dims);
    }

    /** Wraps the child in the dimensions, the last one first. */
    method WrapDimensions(dims: seq<Option<nat>>, voidTok: Option<Token>) returns (r: Result<Option<Node>>)
      modifies this
      ensures r == WrapArrays(dims, old(child), voidTok)
      ensures r.Ok? ==> child == r.value
      ensures index == old(index)
    {
      var i := |dims|;
      assert dims[..i] == dims;
      while i > 0
        invariant i <= |dims| && index == old(index)
        invariant WrapArrays(dims[..i], child, voidTok) == WrapArrays(dims, old(child), voidTok)
      {
        if child.None? {
          if voidTok.None? {
            return Err(InternalError);
          }
          return Err(ParserError("arrays cannot store void", TokSpan(voidTok.value)));
        }
        var arr := ArrayNode(child, dims[i - 1]);
        if child.value.Function? {
          arr := AddWarning(arr, ARRAY_OF_FUNCTIONS);
        }
        child := Some(arr);
        assert dims[..i][..i - 1] == dims[..i - 1];
        i := i - 1;
      }
      r := Ok(child);
    }
  }

  /** `Parser(tokens, child)`: a parser needs a non-empty group. */
  method NewParser(tokens: Token, child: Option<Node>) returns (r: Result<Parser>)
    requires tokens.Group?
    ensures r.Ok? <==> |tokens.items| > 0
    ensures r.Err? ==> r.error == EmptyGroupError(tokens.span)
    ensures r.Ok? ==> fresh(r.value) && r.value.Valid() && r.value.tokens == tokens
                      && r.value.child == child && r.value.index == 0
  {
    if |tokens.items| == 0 {
      return Err(EmptyGroupError(tokens.span));
    }
    var parser := new Parser(tokens, child);
    return Ok(parser);
  }

  /** The parameters of a parameter group, one at a time. */
  method ParseParameters(paramGroup: seq<Token>) returns (r: Result<seq<Node>>)
    ensures r == ParseParams(paramGroup, 0, [])
    decreases SizeAll(paramGroup) + 1, 6
  {
    var params: seq<Node> := [];
    var i := 0;
    while i < |paramGroup|
      invariant i <= |paramGroup|
      invariant ParseParams(paramGroup, i, params) == ParseParams(paramGroup, 0, [])
      decreases |paramGroup| - i
    {
      var param, j := CollectParam(paramGroup, i);
      SizeAllSlice(paramGroup, i, j);
      var node :- ParseParameter(param);
      params := params + [node];
      i := if j < |paramGroup| then j + 1 else j;
    }
    r := Ok(params);
  }

  /** Gathers the tokens from `i` up to the next `,` or the end. */
  method CollectParam(paramGroup: seq<Token>, i: nat) returns (param: seq<Token>, j: nat)
    requires i <= |paramGroup|
    ensures j == CommaAt(paramGroup, i) && param == paramGroup[i..j]
  {
    param := [];
    j := i;
    while j < |paramGroup|
      invariant i <= j <= |paramGroup| && param == paramGroup[i..j]
      invariant forall k :: i <= k < j ==> !IsPunct(paramGroup[k], ",")
      decreases |paramGroup| - j
    {
      if IsPunct(paramGroup[j], ",") {
        break;
      }
      param := param + [paramGroup[j]];
      j := j + 1;
    }
    CommaAtFirst(paramGroup, i, j);
  }

  /** Parses one parameter with a parser of its own. */
  method ParseParameter(param: seq<Token>) returns (r: Result<Node>)
    ensures r == ParseSpec.ParseParam(param)
    decreases SizeAll(param) + 1, 5
  {
    var parser :- NewParser(Group(None, param), None);
    var node :- parser.Parse();
    if node.Function? {
      node := AddWarning(node, RAW_FUNCTION_PARAMETER);
    }
    r := Ok(node);
  }

  /** The first `,` from `i` is the one the scan stopped at. */
  lemma {:induction false} CommaAtFirst(ts: seq<Token>, i: nat, j: nat)
    requires i <= j <= |ts|
    requires forall k :: i <= k < j ==> !IsPunct(ts[k], ",")
    requires j == |ts| || IsPunct(ts[j], ",")
    ensures CommaAt(ts, i) == j
    decreases j - i
  {
    if i < j {
      CommaAtFirst(ts, i + 1, j);
    }
  }

  /** Lexing and parsing one declaration, as the prompt loop does. */
  method ParseDeclaration(declString: string) returns (r: Result<Node>)
    ensures r == Declaration(declString)
  {
    var tokens :- Lexing.LexDeclaration(declString);
    var parser :- NewParser(tokens, None);
    r := parser.Parse();
  }
}
