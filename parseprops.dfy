/** What the parser promises about the trees it builds: the order in
    which pointers and array dimensions wrap the inner node, and a shape
    invariant saying that the warnings mark exactly the illegal constructs
    and that no array stores void. */
module ParseProps {
  import opened Base
  import opened Tokens
  import opened Ast
  import opened ParseSpec

  function ChildOf(n: Node): Option<Node> {
    match n
    case Type(_, _, _) => None
    case Pointer(c, _, _) => c
    case Array(c, _, _) => c
    case Function(c, _, _) => c
  }

  /** The node `k` steps down the child chain (`None` once it runs out). */
  function Peel(n: Option<Node>, k: nat): Option<Node>
    decreases k
  {
    if k == 0 || n.None? then n else Peel(ChildOf(n.value), k - 1)
  }

  lemma {:induction false} PeelStep(n: Option<Node>, k: nat)
    requires Peel(n, k).Some?
    ensures Peel(n, k + 1) == ChildOf(Peel(n, k).value)
    decreases k
  {
    if k > 0 {
      PeelStep(ChildOf(n.value), k - 1);
    }
  }

  /** The shape of a tree the parser can build.  `param` says the node is
      the root of a function parameter.  A type names a primitive type or
      a struct; an array always stores something; an array of functions, a
      function returning a function and a function passed as a parameter
      carry their warning, and nothing else carries any. */
  predicate WellFormed(n: Node, param: bool)
    decreases n
  {
    match n
    case Type(name, mods, w) =>
      w == [] && (name in PRIMTYPES || "struct" in mods)
    case Pointer(c, _, w) =>
      w == [] && (c.Some? ==> WellFormed(c.value, false))
    case Array(c, _, w) =>
      c.Some? && w == (if c.value.Function? then [ARRAY_OF_FUNCTIONS] else [])
      && WellFormed(c.value, false)
    case Function(c, ps, w) =>
      w == FunctionWarnings(c, param) && (c.Some? ==> WellFormed(c.value, false))
      && (ps.Declared? ==> forall p :: p in ps.list ==> WellFormed(p, true))
  }

  /** The warnings a function node carries: returning a function, then
      being passed as a parameter. */
  function FunctionWarnings(returnType: Option<Node>, param: bool): seq<string> {
    (if IsFunction(returnType) then [FUNCTION_RETURNING_FUNCTION] else [])
    + (if param then [RAW_FUNCTION_PARAMETER] else [])
  }

  predicate ChildOk(child: Option<Node>) {
    child.Some? ==> WellFormed(child.value, false)
  }

  // ---------------------------------------------------------------------
  // Wrapping order
  // ---------------------------------------------------------------------

  /** The `*` chain: it stops at the first token that is not `*`, and
      wraps the child once per star, the last star outermost, each pointer
      constant exactly when its star carries `const`. */
  lemma {:induction false} PointersOrder(items: seq<Token>, i: nat, child: Option<Node>)
    requires i <= |items|
    ensures var (j, n) := Pointers(items, i, child);
      (forall k :: i <= k < j ==> IsPunct(items[k], "*"))
      && (j == |items| || !IsPunct(items[j], "*"))
      && Peel(n, j - i) == child
      && forall k :: 0 <= k < j - i ==>
           Peel(n, k) == Some(Pointer(Peel(n, k + 1), HasModifier(items[j - 1 - k], "const"), []))
    decreases |items| - i
  {
    if i < |items| && IsPunct(items[i], "*") {
      var c' := Some(PointerNode(child, HasModifier(items[i], "const")));
      PointersOrder(items, i + 1, c');
      var (j, n) := Pointers(items, i, child);
      PeelStep(n, j - i - 1);
      forall k | 0 <= k < j - i - 1
        ensures Peel(n, k) == Some(Pointer(Peel(n, k + 1), HasModifier(items[j - 1 - k], "const"), []))
      {
      }
    }
  }

  /** Array dimensions: the first dimension written is the outermost
      array, each array has the size written for it, and the innermost
      one stores the child.  Wrapping fails exactly when there is a
      dimension but no child (void), with the void token underlined. */
  lemma {:induction false} WrapArraysOrder(dims: seq<Option<nat>>, child: Option<Node>, voidTok: Option<Token>)
    ensures var r := WrapArrays(dims, child, voidTok);
      (r.Err? <==> dims != [] && child.None?)
      && (r.Err? && voidTok.Some? ==> r.error == ParserError("arrays cannot store void", TokSpan(voidTok.value)))
      && (r.Ok? ==> Peel(r.value, |dims|) == child
                    && forall k :: 0 <= k < |dims| ==>
                         Peel(r.value, k).Some? && Peel(r.value, k).value.Array?
                         && Peel(r.value, k).value.size == dims[k])
    decreases |dims|
  {
    if dims != [] && child.Some? {
      var n := |dims|;
      var arr := ArrayNode(child, dims[n - 1]);
      var arr' := if child.value.Function? then AddWarning(arr, ARRAY_OF_FUNCTIONS) else arr;
      WrapArraysOrder(dims[..n - 1], Some(arr'), voidTok);
      var r := WrapArrays(dims, child, voidTok);
      PeelStep(r.value, n - 1);
    }
  }

  // ---------------------------------------------------------------------
  // The shape invariant
  // ---------------------------------------------------------------------

  lemma {:induction false} PointersOk(items: seq<Token>, i: nat, child: Option<Node>)
    requires i <= |items| && ChildOk(child)
    ensures ChildOk(Pointers(items, i, child).1)
    decreases |items| - i
  {
    if i < |items| && IsPunct(items[i], "*") {
      PointersOk(items, i + 1, Some(PointerNode(child, HasModifier(items[i], "const"))));
    }
  }

  lemma {:induction false} WrapArraysOk(dims: seq<Option<nat>>, child: Option<Node>, voidTok: Option<Token>)
    requires ChildOk(child)
    ensures WrapArrays(dims, child, voidTok).Ok? ==> ChildOk(WrapArrays(dims, child, voidTok).value)
    decreases |dims|
  {
    if dims != [] && child.Some? {
      var arr := ArrayNode(child, dims[|dims| - 1]);
      var arr' := if child.value.Function? then AddWarning(arr, ARRAY_OF_FUNCTIONS) else arr;
      WrapArraysOk(dims[..|dims| - 1], Some(arr'), voidTok);
    }
  }

  /** Parsing a group, given a well-formed inner node, builds a
      well-formed tree. */
  lemma {:induction false} GroupOk(t: Token, child: Option<Node>)
    requires t.Group? && ChildOk(child)
    ensures ParseGroup(t, child).Ok? ==> WellFormed(ParseGroup(t, child).value, false)
    decreases Size(t), 4, 0
  {
    if |t.items| > 0 {
      ItemsOk(t.items, child);
    }
  }

  lemma {:induction false} ItemsOk(items: seq<Token>, child: Option<Node>)
    requires |items| > 0 && ChildOk(child)
    ensures ParseItems(items, child).Ok? ==> WellFormed(ParseItems(items, child).value, false)
    decreases SizeAll(items) + 1, 3, 0
  {
    if child.None? {
      var t := items[0];
      if IsType(t) && |items| > 1 {
        var voidTok := if t.text == "void" then Some(t) else None;
        var base := if t.text == "void" then None else Some(TypeNode(t));
        DeclaratorOk(items, 1, base, voidTok);
      }
    } else {
      DeclaratorOk(items, 0, child, None);
    }
  }

  lemma {:induction false} DeclaratorOk(items: seq<Token>, i: nat, child: Option<Node>, voidTok: Option<Token>)
    requires 0 < |items| && i <= |items| && ChildOk(child)
    ensures Declarator(items, i, child, voidTok).Ok? ==> WellFormed(Declarator(items, i, child, voidTok).value, false)
    decreases SizeAll(items) + 1, 2, 0
  {
    var (j, pointed) := Pointers(items, i, child);
    PointersOk(items, i, child);
    var nr := NameOrGroup(items, j);
    if nr.Ok? {
      var (k, parent) := nr.value;
      ParamListOk(items, k);
      var pr := ParamList(items, k);
      if pr.Ok? {
        var (l, params) := pr.value;
        var dr := Dimensions(items, l, []);
        if dr.Ok? {
          var (m, dims) := dr.value;
          WrapArraysOk(dims, pointed, voidTok);
          var ar := WrapArrays(dims, pointed, voidTok);
          if ar.Ok? && m >= |items| && parent.Some? {
            var func := if params.Some? then Some(WrapFunction(ar.value, params.value)) else ar.value;
            MemberSize(items, parent.value);
            GroupOk(parent.value, func);
          }
        }
      }
    }
  }

  lemma {:induction false} ParamListOk(items: seq<Token>, k: nat)
    requires 0 < |items| && k <= |items|
    ensures var r := ParamList(items, k);
      r.Ok? && r.value.1.Some? && r.value.1.value.Declared? ==>
        forall p :: p in r.value.1.value.list ==> WellFormed(p, true)
    decreases SizeAll(items) + 1, 1, 0
  {
    if k < |items| && IsGroup(items[k]) {
      var pg := items[k].items;
      if |pg| > 0 && !(|pg| == 1 && IsPunct(pg[0], "void")) {
        SizeAllSlice(items, k, |items|);
        ParamsOk(pg, 0, []);
      }
    }
  }

  lemma {:induction false} ParamsOk(pg: seq<Token>, i: nat, acc: seq<Node>)
    requires i <= |pg| && forall p :: p in acc ==> WellFormed(p, true)
    ensures ParseParams(pg, i, acc).Ok? ==> forall p :: p in ParseParams(pg, i, acc).value ==> WellFormed(p, true)
    decreases SizeAll(pg) + 1, 6, |pg| - i
  {
    if i < |pg| {
      var j := CommaAt(pg, i);
      SizeAllSlice(pg, i, j);
      ParamOk(pg[i..j]);
      var nr := ParseParam(pg[i..j]);
      if nr.Ok? {
        ParamsOk(pg, if j < |pg| then j + 1 else j, acc + [nr.value]);
      }
    }
  }

  /** A parameter is a well-formed parameter root: when it is a function
      it carries the raw-function warning last. */
  lemma {:induction false} ParamOk(param: seq<Token>)
    ensures ParseParam(param).Ok? ==> WellFormed(ParseParam(param).value, true)
    decreases SizeAll(param) + 1, 5, 0
  {
    GroupOk(Group(None, param), None);
  }

  /** Every tree built from a declaration has the shape above. */
  lemma DeclarationOk(s: string)
    ensures Declaration(s).Ok? ==> WellFormed(Declaration(s).value, false)
  {
    var tokens := LexSpec.Lex(s);
    if tokens.Ok? {
      GroupOk(tokens.value, None);
    }
  }
}
