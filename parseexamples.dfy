/** Declarations parsed from their tokens, written out with the columns
    and spans each token has in the text: the trees, the warnings and the
    errors the parser gives.  `DeclarationExamples` proves for four of
    them that lexing the text gives exactly these tokens. */
module ParseExamples {
  import opened Base
  import opened Tokens
  import opened Ast
  import opened ParseSpec

  function L(start: nat, text: string): Token { NewLeaf(start, text) }
  const INT := Type("int", [], [])

  /** `char *p[10]`: an array of ten pointers to char. */
  lemma CharPointerArray()
    ensures ParseGroup(Group(Some(Span(0, 11)), [L(0, "char"), L(5, "*"), L(6, "p"), L(7, "["), L(8, "10"), L(10, "]")]), None)
         == Ok(Array(Some(Pointer(Some(Type("char", [], [])), false, [])), Some(10), []))
  {
    var items := [L(0, "char"), L(5, "*"), L(6, "p"), L(7, "["), L(8, "10"), L(10, "]")];
    var base := Some(Type("char", [], []));
    var ptr := Some(Pointer(base, false, []));
    assert IsType(items[0]);
    assert Pointers(items, 2, ptr) == (2, ptr);
    assert Pointers(items, 1, base) == (2, ptr);
    assert "p" !in KEYWORDS;
    assert NameOrGroup(items, 2) == Ok((3, None));
    assert ParamList(items, 3) == Ok((3, None));
    DimensionTen(items);
    assert WrapArrays([Some(10)], ptr, None) == Ok(Some(Array(ptr, Some(10), [])));
  }

  /** `[10]` closing a group: one dimension of ten. */
  lemma DimensionTen(items: seq<Token>)
    requires |items| == 6 && items[3] == L(7, "[") && items[4] == L(8, "10") && items[5] == L(10, "]")
    ensures Dimensions(items, 3, []) == Ok((6, [Some(10)]))
  {
    assert "10"[..1] == "1" && "1"[..0] == "";
    assert DecimalValue("10") == 10;
    assert GetNum(items[4]) == Ok(10);
    assert IsNum(items[4]) && IsPunct(items[3], "[") && IsPunct(items[5], "]");
    assert [] + [Some(10)] == [Some(10)];
    assert Dimensions(items, 6, [Some(10)]) == Ok((6, [Some(10)]));
  }

  lemma ParamChar()
    ensures ParseParam([L(9, "char")]) == Ok(Type("char", [], []))
  {
    assert IsType(L(9, "char"));
  }

  lemma ParamIntPointer()
    ensures ParseParam([L(15, "int"), L(18, "*")]) == Ok(Pointer(Some(INT), false, []))
  {
    var items := [L(15, "int"), L(18, "*")];
    assert IsType(items[0]);
    assert Pointers(items, 1, Some(INT)) == (2, Some(Pointer(Some(INT), false, [])));
  }

  lemma ParamsCharIntPointer()
    ensures ParseParams([L(9, "char"), L(13, ","), L(15, "int"), L(18, "*")], 0, [])
         == Ok([Type("char", [], []), Pointer(Some(INT), false, [])])
  {
    var pg := [L(9, "char"), L(13, ","), L(15, "int"), L(18, "*")];
    ParamChar();
    ParamIntPointer();
    assert CommaAt(pg, 0) == 1;
    assert CommaAt(pg, 2) == 4;
    assert pg[0..1] == [L(9, "char")];
    assert pg[2..4] == [L(15, "int"), L(18, "*")];
    var c := Type("char", [], []);
    var p := Pointer(Some(INT), false, []);
    assert ParseParam(pg[0..1]) == Ok(c);
    assert ParseParam(pg[2..4]) == Ok(p);
    assert [] + [c] == [c] && [c] + [p] == [c, p];
    assert ParseParams(pg, 4, [c, p]) == Ok([c, p]);
    assert ParseParams(pg, 2, [c]) == ParseParams(pg, 4, [c, p]);
    assert ParseParams(pg, 0, []) == ParseParams(pg, 2, [c]);
  }

  /** The group `(*f)` parsed around a node: a pointer to it. */
  lemma PointerToF(n: Node)
    ensures ParseGroup(Group(Some(Span(4, 4)), [L(5, "*"), L(6, "f")]), Some(n)) == Ok(Pointer(Some(n), false, []))
  {
    var inner := [L(5, "*"), L(6, "f")];
    var p := Some(Pointer(Some(n), false, []));
    assert "f" !in KEYWORDS;
    assert Pointers(inner, 1, p) == (1, p);
    assert Pointers(inner, 0, Some(n)) == (1, p);
    assert NameOrGroup(inner, 1) == Ok((2, None));
    assert ParamList(inner, 2) == Ok((2, None));
    assert Dimensions(inner, 2, []) == Ok((2, []));
  }

  /** `int (*f)(char, int*)`: a pointer to a function taking a char and a
      pointer to int and returning int. */
  lemma FunctionPointer()
    ensures ParseGroup(Group(Some(Span(0, 20)), [L(0, "int"), Group(Some(Span(4, 4)), [L(5, "*"), L(6, "f")]),
                                                 Group(Some(Span(8, 12)), [L(9, "char"), L(13, ","), L(15, "int"), L(18, "*")])]), None)
         == Ok(Pointer(Some(Function(Some(INT), Declared([Type("char", [], []), Pointer(Some(INT), false, [])]), [])), false, []))
  {
    var g1 := Group(Some(Span(4, 4)), [L(5, "*"), L(6, "f")]);
    var g2 := Group(Some(Span(8, 12)), [L(9, "char"), L(13, ","), L(15, "int"), L(18, "*")]);
    var items := [L(0, "int"), g1, g2];
    ParamsCharIntPointer();
    var params := Declared([Type("char", [], []), Pointer(Some(INT), false, [])]);
    var func := Function(Some(INT), params, []);
    PointerToF(func);
    assert IsType(items[0]);
    assert Pointers(items, 1, Some(INT)) == (1, Some(INT));
    assert NameOrGroup(items, 1) == Ok((2, Some(g1)));
    assert ParamList(items, 2) == Ok((3, Some(params)));
    assert Dimensions(items, 3, []) == Ok((3, []));
    assert Declarator(items, 1, Some(INT), None) == Ok(Pointer(Some(func), false, []));
  }

  /** `void` alone is rejected, underlining it. */
  lemma VoidAlone()
    ensures ParseGroup(Group(Some(Span(0, 4)), [L(0, "void")]), None)
         == Err(ParserError("void on its own is not a valid type", Some(Span(0, 4))))
  {
    assert IsType(L(0, "void"));
  }

  /** `void *p`: a pointer to void, the pointer's child being absent. */
  lemma VoidPointer()
    ensures ParseGroup(Group(Some(Span(0, 7)), [L(0, "void"), L(5, "*"), L(6, "p")]), None)
         == Ok(Pointer(None, false, []))
  {
    var items := [L(0, "void"), L(5, "*"), L(6, "p")];
    var p := Some(Pointer(None, false, []));
    assert IsType(items[0]) && "p" !in KEYWORDS;
    assert Pointers(items, 2, p) == (2, p);
    assert Pointers(items, 1, None) == (2, p);
    assert NameOrGroup(items, 2) == Ok((3, None));
  }

  /** `void (*p)`: the group is parsed with no inner node, exactly as if
      it started a declaration, so it wants a type name first. */
  lemma VoidInParentheses()
    ensures ParseGroup(Group(Some(Span(0, 9)), [L(0, "void"), Group(Some(Span(5, 4)), [L(6, "*"), L(7, "p")])]), None)
         == Err(ParserError("expected a type name", Some(Span(6, 1))))
  {
    var g := Group(Some(Span(5, 4)), [L(6, "*"), L(7, "p")]);
    var items := [L(0, "void"), g];
    assert IsType(items[0]) && !IsType(L(6, "*"));
    assert Pointers(items, 1, None) == (1, None);
    assert NameOrGroup(items, 1) == Ok((2, Some(g)));
    assert ParamList(items, 2) == Ok((2, None));
    assert Dimensions(items, 2, []) == Ok((2, []));
  }

  /** `void a[2]`: arrays cannot store void; the `void` is underlined. */
  lemma ArrayOfVoid()
    ensures ParseGroup(Group(Some(Span(0, 9)), [L(0, "void"), L(5, "a"), L(6, "["), L(7, "2"), L(8, "]")]), None)
         == Err(ParserError("arrays cannot store void", Some(Span(0, 4))))
  {
    var items := [L(0, "void"), L(5, "a"), L(6, "["), L(7, "2"), L(8, "]")];
    assert IsType(items[0]) && "a" !in KEYWORDS;
    assert Pointers(items, 1, None) == (1, None);
    assert NameOrGroup(items, 1) == Ok((2, None));
    assert ParamList(items, 2) == Ok((2, None));
    assert "2"[..0] == "";
    assert GetNum(items[3]) == Ok(2);
    assert IsNum(items[3]) && IsPunct(items[2], "[") && IsPunct(items[4], "]");
    assert [] + [Some(2)] == [Some(2)];
    assert Dimensions(items, 5, [Some(2)]) == Ok((5, [Some(2)]));
    assert Dimensions(items, 2, []) == Ok((5, [Some(2)]));
  }

  /** `int (f[3])()`: an array of three functions, marked illegal. */
  lemma ArrayOfFunctions()
    ensures ParseGroup(Group(Some(Span(0, 12)), [L(0, "int"), Group(Some(Span(4, 6)), [L(5, "f"), L(6, "["), L(7, "3"), L(8, "]")]),
                                                 Group(Some(Span(10, 2)), [])]), None)
         == Ok(Array(Some(Function(Some(INT), AnyParams, [])), Some(3), [ARRAY_OF_FUNCTIONS]))
  {
    var g := Group(Some(Span(4, 6)), [L(5, "f"), L(6, "["), L(7, "3"), L(8, "]")]);
    var items := [L(0, "int"), g, Group(Some(Span(10, 2)), [])];
    assert IsType(items[0]);
    assert Pointers(items, 1, Some(INT)) == (1, Some(INT));
    assert NameOrGroup(items, 1) == Ok((2, Some(g)));
    assert ParamList(items, 2) == Ok((3, Some(AnyParams)));
    assert Dimensions(items, 3, []) == Ok((3, []));
    ArrayOfThreeF(Function(Some(INT), AnyParams, []));
  }

  /** The group `(f[3])` around a function: an array of three of them,
      flagged. */
  lemma ArrayOfThreeF(n: Node)
    requires n.Function?
    ensures ParseGroup(Group(Some(Span(4, 6)), [L(5, "f"), L(6, "["), L(7, "3"), L(8, "]")]), Some(n))
         == Ok(Array(Some(n), Some(3), [ARRAY_OF_FUNCTIONS]))
  {
    var inner := [L(5, "f"), L(6, "["), L(7, "3"), L(8, "]")];
    var func := Some(n);
    assert "f" !in KEYWORDS;
    assert Pointers(inner, 0, func) == (0, func);
    assert NameOrGroup(inner, 0) == Ok((1, None));
    assert ParamList(inner, 1) == Ok((1, None));
    assert "3"[..0] == "";
    assert GetNum(inner[2]) == Ok(3);
    assert IsNum(inner[2]) && IsPunct(inner[1], "[") && IsPunct(inner[3], "]");
    assert [] + [Some(3)] == [Some(3)];
    assert Dimensions(inner, 4, [Some(3)]) == Ok((4, [Some(3)]));
    assert Dimensions(inner, 1, []) == Ok((4, [Some(3)]));
    assert [] + [ARRAY_OF_FUNCTIONS] == [ARRAY_OF_FUNCTIONS];
    assert WrapArrays([Some(3)], func, None) == Ok(Some(Array(func, Some(3), [ARRAY_OF_FUNCTIONS])));
    assert Declarator(inner, 0, func, None) == Ok(Array(func, Some(3), [ARRAY_OF_FUNCTIONS]));
  }

  /** `int (f())()`: a function returning a function, marked illegal. */
  lemma FunctionReturningFunction()
    ensures ParseGroup(Group(Some(Span(0, 11)), [L(0, "int"), Group(Some(Span(4, 5)), [L(5, "f"), Group(Some(Span(6, 2)), [])]),
                                                 Group(Some(Span(9, 2)), [])]), None)
         == Ok(Function(Some(Function(Some(INT), AnyParams, [])), AnyParams, [FUNCTION_RETURNING_FUNCTION]))
  {
    var g := Group(Some(Span(4, 5)), [L(5, "f"), Group(Some(Span(6, 2)), [])]);
    var items := [L(0, "int"), g, Group(Some(Span(9, 2)), [])];
    var func := Some(Function(Some(INT), AnyParams, []));
    assert IsType(items[0]);
    assert Pointers(items, 1, Some(INT)) == (1, Some(INT));
    assert NameOrGroup(items, 1) == Ok((2, Some(g)));
    assert ParamList(items, 2) == Ok((3, Some(AnyParams)));
    assert Dimensions(items, 3, []) == Ok((3, []));
    var inner := g.items;
    assert "f" !in KEYWORDS;
    assert Pointers(inner, 0, func) == (0, func);
    assert NameOrGroup(inner, 0) == Ok((1, None));
    assert ParamList(inner, 1) == Ok((2, Some(AnyParams)));
    assert Dimensions(inner, 2, []) == Ok((2, []));
    assert Declarator(inner, 0, func, None) == Ok(Function(func, AnyParams, [FUNCTION_RETURNING_FUNCTION]));
  }

  /** The parameter list `(int g())`: one raw function, flagged. */
  lemma RawFunctionParameterList()
    ensures ParseParams([L(6, "int"), L(10, "g"), Group(Some(Span(11, 2)), [])], 0, [])
         == Ok([Function(Some(INT), AnyParams, [RAW_FUNCTION_PARAMETER])])
  {
    var pg := [L(6, "int"), L(10, "g"), Group(Some(Span(11, 2)), [])];
    var param := Function(Some(INT), AnyParams, [RAW_FUNCTION_PARAMETER]);
    assert IsType(pg[0]) && "g" !in KEYWORDS;
    assert Pointers(pg, 1, Some(INT)) == (1, Some(INT));
    assert NameOrGroup(pg, 1) == Ok((2, None));
    assert ParamList(pg, 2) == Ok((3, Some(AnyParams)));
    assert Dimensions(pg, 3, []) == Ok((3, []));
    assert Declarator(pg, 1, Some(INT), None) == Ok(Function(Some(INT), AnyParams, []));
    assert [] + [RAW_FUNCTION_PARAMETER] == [RAW_FUNCTION_PARAMETER];
    assert CommaAt(pg, 0) == 3 && pg[0..3] == pg;
    assert ParseParam(pg) == Ok(param);
    assert ParseParams(pg, 3, [param]) == Ok([param]);
    assert [] + [param] == [param];
  }

  /** `int f` followed by a parameter group `params` reads as a function
      of those parameters returning `int`. */
  lemma IntFunctionF(span: Option<Span>, items: seq<Token>, params: Params)
    requires |items| == 3 && items[0] == L(0, "int") && items[1] == L(4, "f") && items[2].Group?
    requires ParamList(items, 2) == Ok((3, Some(params)))
    ensures ParseGroup(Group(span, items), None) == Ok(Function(Some(INT), params, []))
  {
    assert IsType(items[0]) && "f" !in KEYWORDS;
    assert Pointers(items, 1, Some(INT)) == (1, Some(INT));
    assert NameOrGroup(items, 1) == Ok((2, None));
    assert Dimensions(items, 3, []) == Ok((3, []));
    assert !IsFunction(Some(INT));
    assert Declarator(items, 1, Some(INT), None) == Ok(Function(Some(INT), params, []));
  }

  /** The group `(int g())` after a name: a declared list of one flagged
      raw function. */
  lemma RawFunctionParameterGroup(items: seq<Token>)
    requires |items| == 3 && items[2] == Group(Some(Span(5, 9)), [L(6, "int"), L(10, "g"), Group(Some(Span(11, 2)), [])])
    ensures ParamList(items, 2) == Ok((3, Some(Declared([Function(Some(INT), AnyParams, [RAW_FUNCTION_PARAMETER])]))))
  {
    RawFunctionParameterList();
  }

  /** `int f(int g())`: a function taking a raw function, marked illegal
      on the parameter. */
  lemma RawFunctionParameter()
    ensures ParseGroup(Group(Some(Span(0, 14)), [L(0, "int"), L(4, "f"), Group(Some(Span(5, 9)), [L(6, "int"), L(10, "g"), Group(Some(Span(11, 2)), [])])]), None)
         == Ok(Function(Some(INT), Declared([Function(Some(INT), AnyParams, [RAW_FUNCTION_PARAMETER])]), []))
  {
    var pg := [L(6, "int"), L(10, "g"), Group(Some(Span(11, 2)), [])];
    var items := [L(0, "int"), L(4, "f"), Group(Some(Span(5, 9)), pg)];
    var param := Function(Some(INT), AnyParams, [RAW_FUNCTION_PARAMETER]);
    RawFunctionParameterGroup(items);
    IntFunctionF(Some(Span(0, 14)), items, Declared([param]));
  }

  /** `int f(,int)`: an empty parameter has no position to underline, and
      reporting it fails. */
  lemma EmptyParameter()
    ensures ParseGroup(Group(Some(Span(0, 11)), [L(0, "int"), L(4, "f"), Group(Some(Span(5, 6)), [L(6, ","), L(7, "int")])]), None)
         == Err(InternalError)
  {
    var pg := [L(6, ","), L(7, "int")];
    var items := [L(0, "int"), L(4, "f"), Group(Some(Span(5, 6)), pg)];
    assert CommaAt(pg, 0) == 0 && pg[0..0] == [];
    assert ParseParams(pg, 0, []) == Err(InternalError);
    assert IsType(items[0]) && "f" !in KEYWORDS;
    assert Pointers(items, 1, Some(INT)) == (1, Some(INT));
    assert NameOrGroup(items, 1) == Ok((2, None));
  }

  /** `int f(int,)`: a trailing comma ends the list without adding an
      empty parameter. */
  lemma TrailingComma()
    ensures ParseGroup(Group(Some(Span(0, 11)), [L(0, "int"), L(4, "f"), Group(Some(Span(5, 6)), [L(6, "int"), L(9, ",")])]), None)
         == Ok(Function(Some(INT), Declared([INT]), []))
  {
    var pg := [L(6, "int"), L(9, ",")];
    var items := [L(0, "int"), L(4, "f"), Group(Some(Span(5, 6)), pg)];
    assert IsType(pg[0]);
    assert CommaAt(pg, 0) == 1 && pg[0..1] == [L(6, "int")];
    assert ParseParam([L(6, "int")]) == Ok(INT);
    assert [] + [INT] == [INT];
    assert ParseParams(pg, 2, [INT]) == Ok([INT]);
    assert ParseParams(pg, 0, []) == Ok([INT]);
    assert ParamList(items, 2) == Ok((3, Some(Declared([INT]))));
    IntFunctionF(Some(Span(0, 11)), items, Declared([INT]));
  }

  /** `int f(void)`: a function taking no parameters. */
  lemma VoidParameters()
    ensures ParseGroup(Group(Some(Span(0, 11)), [L(0, "int"), L(4, "f"), Group(Some(Span(5, 6)), [L(6, "void")])]), None)
         == Ok(Function(Some(INT), Declared([]), []))
  {
    var items := [L(0, "int"), L(4, "f"), Group(Some(Span(5, 6)), [L(6, "void")])];
    assert ParamList(items, 2) == Ok((3, Some(Declared([]))));
    IntFunctionF(Some(Span(0, 11)), items, Declared([]));
  }

  /** The message naming `char` as a misused keyword. */
  lemma CharMessage()
    ensures "cannot use '" + "char" + "' as an identifier" == "cannot use 'char' as an identifier"
  {
    assert "cannot use '" + "char" == "cannot use 'char";
  }

  /** `int char`: a keyword cannot be the declared name. */
  lemma KeywordAsName()
    ensures ParseGroup(Group(Some(Span(0, 8)), [L(0, "int"), L(4, "char")]), None)
         == Err(ParserError("cannot use 'char' as an identifier", Some(Span(4, 4))))
  {
    var items := [L(0, "int"), L(4, "char")];
    assert IsType(items[0]) && IsName(items[1]) && "char" in KEYWORDS;
    CharMessage();
    assert NameOrGroup(items, 1) == Err(ParserError("cannot use 'char' as an identifier", Some(Span(4, 4))));
    assert Pointers(items, 1, Some(INT)) == (1, Some(INT));
  }

  /** `int x y`: tokens left over after the declarator. */
  lemma LeftoverTokens()
    ensures ParseGroup(Group(Some(Span(0, 7)), [L(0, "int"), L(4, "x"), L(6, "y")]), None)
         == Err(ParserError("unexpected tokens", Some(Span(6, 1))))
  {
    var items := [L(0, "int"), L(4, "x"), L(6, "y")];
    assert IsType(items[0]) && "x" !in KEYWORDS;
    assert Pointers(items, 1, Some(INT)) == (1, Some(INT));
    assert NameOrGroup(items, 1) == Ok((2, None));
    assert ParamList(items, 2) == Ok((2, None));
    assert Dimensions(items, 2, []) == Ok((2, []));
  }

  /** `int x[`: the input ends inside a dimension; the error points just
      past the last token. */
  lemma UnfinishedDimension()
    ensures ParseGroup(Group(Some(Span(0, 6)), [L(0, "int"), L(4, "x"), L(5, "[")]), None)
         == Err(ParserError("expected another token", Some(Span(6, 1))))
  {
    var items := [L(0, "int"), L(4, "x"), L(5, "[")];
    assert IsType(items[0]) && "x" !in KEYWORDS;
    assert Pointers(items, 1, Some(INT)) == (1, Some(INT));
    assert NameOrGroup(items, 1) == Ok((2, None));
    assert ParamList(items, 2) == Ok((2, None));
    assert Dimensions(items, 2, []) == Err(ParserError("expected another token", Some(Span(6, 1))));
  }
}
