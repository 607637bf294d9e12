/** The declarator tree.  Every node has one child (or none: a `Type` has
    no child, and an absent child elsewhere stands for `void`) and a list
    of warnings about constructs that parse but are illegal in C. */
module Ast {
  import opened Base
  import opened Tokens

  datatype Node =
    | Type(name: string, mods: seq<string>, warnings: seq<string>)
    | Pointer(child: Option<Node>, isConst: bool, warnings: seq<string>)
    | Array(child: Option<Node>, size: Option<nat>, warnings: seq<string>)
    | Function(child: Option<Node>, params: Params, warnings: seq<string>)

  /** A function's parameters: `AnyParams` for `()` (any number of
      parameters), otherwise the declared ones, none for `(void)`. */
  datatype Params = AnyParams | Declared(list: seq<Node>)

  const RAW_FUNCTION_PARAMETER := "illegal in C: this is a raw function being passed as a parameter"
  const ARRAY_OF_FUNCTIONS := "illegal in C: arrays cannot store raw functions"
  const FUNCTION_RETURNING_FUNCTION := "illegal in C: you cannot return a raw function"

  /** A `Type` node takes the name and the modifier flags of a type leaf. */
  function TypeNode(typeTok: Token): (n: Node)
    requires typeTok.Leaf?
    ensures n.Type? && n.name == typeTok.text && n.mods == typeTok.mods && n.warnings == []
  {
    Type(typeTok.text, typeTok.mods, [])
  }

  function PointerNode(child: Option<Node>, isConst: bool): (n: Node)
    ensures n.Pointer? && n.child == child && n.isConst == isConst && n.warnings == []
  {
    Pointer(child, isConst, [])
  }

  function ArrayNode(child: Option<Node>, size: Option<nat>): (n: Node)
    ensures n.Array? && n.child == child && n.size == size && n.warnings == []
  {
    Array(child, size, [])
  }

  /** The function's return type is its child. */
  function FunctionNode(returnType: Option<Node>, params: Params): (n: Node)
    ensures n.Function? && n.child == returnType && n.params == params && n.warnings == []
  {
    Function(returnType, params, [])
  }

  /** Adding a warning appends it and changes nothing else. */
  function AddWarning(n: Node, msg: string): (r: Node)
    ensures r.warnings == n.warnings + [msg]
    ensures r.(warnings := n.warnings) == n
  {
    n.(warnings := n.warnings + [msg])
  }

  /** `type(n) == Function`: a node built by `FunctionNode`, whatever its warnings. */
  predicate IsFunction(n: Option<Node>)
    ensures IsFunction(n) ==> n.Some? && n.value.Function?
                              && n.value == FunctionNode(n.value.child, n.value.params).(warnings := n.value.warnings)
  {
    n.Some? && n.value.Function?
  }
}
