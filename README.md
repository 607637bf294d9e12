# cdecl: lexer and parser of C declarations, modelled in Dafny

`cdecl.py` reads a C declaration such as `int (*f)(char, int*)` and explains
it in English. This project models how it gets from the text to the tree:

- **Lexing.** The `Lexer` turns the text into a token group. Whitespace is
  skipped. `*` and `*const` become punctuation leaves. Identifiers and
  digit runs become leaves. Runs of keywords are folded into a single
  type leaf carrying its modifier flags, such as `unsigned long int`,
  `const struct s` or `signed`. Parenthesised text becomes a nested group.
- **Parsing.** The `Parser` walks a token group and builds the declarator
  tree of `Type`, `Pointer`, `Array` and `Function` nodes, inside out.
  Along the way it reports errors and attaches the "illegal in C"
  warnings.

Both the lexer and the parser appear twice:

- as **pure reference functions**: modules `LexSpec` and `ParseSpec`;
- as **imperative classes**: `Lexing.Lexer`, with its cursor `curIndex`,
  and `Parsing.Parser`, with its `index` and its `child`.

Every method of the two classes is proved to compute what the reference
functions compute. The lexer's methods and the parser's phase methods
also leave the cursor or index where the reference functions say, and a
successful `Parser.Parse` or `Parser.ParseDeclarator` leaves the index
at the end of the group. On the reference functions, the project proves:

- every lexed token covers exactly the text it was read from, and every
  leaf's modifier flags are consistent (`LexProps`);
- the folding rules for `*const`, `long ...` and modifier runs, and the
  errors the lexer raises (`LexFacts`, `ModifierFacts`);
- what each phase of one parser level does with any token list: the
  name or group, the parameter list split at its commas, the array
  dimensions and the leftover check (`PhaseFacts`);
- the order in which pointers and array dimensions wrap the inner node,
  and that every tree the parser builds has a shape in which the warnings
  mark exactly the illegal constructs and no array stores void
  (`ParseProps`);
- what the parser makes of the tokens of concrete declarations: their
  trees, warnings and errors (`ParseExamples`);
- for `void`, `void *p`, `char *p[10]` and `int (*f)(char, int*)`, that
  lexing the text gives exactly those tokens, so that the whole
  declaration gives that tree or error (`DeclarationExamples`);
- every caret the program would print, for a lexer or a parser error,
  falls on the text of the declaration or on the one column after it
  (`ErrorSpans`).

Errors are values: `LexerError(msg, at)`, `ParserError(msg, at)` and
`InternalError`. `at` is the span that the caret underline would have
printed, or `None` where the program prints nothing. `InternalError`
stands for the program's own `RuntimeError('internal error')` and for any
exception it does not catch.

## Model

| member | source | states |
|---|---|---|
| Tokens.AddModifier | cdecl.py:59-63 | adding a flag succeeds exactly when it is a modifier word not already present; it is then appended at the end, distinct flags stay distinct, and otherwise the result is an internal error |
| Tokens.Append | cdecl.py:94-95 | appending to a group keeps its span and its items and puts the new token last |
| Tokens.GetNum | cdecl.py:82-86 | a number is returned exactly for a leaf that starts with a digit and is all digits; anything else is an internal error |
| Tokens.DecimalRoundTrip | cdecl.py:82-86 | reading back the decimal spelling of `n` gives `n` |
| Tokens.GetNumRoundTrip | cdecl.py:82-86 | a number leaf spelled in decimal gives back its value |
| Tokens.LeadingZeros | cdecl.py:86 | leading zeros do not change the value `int()` reads |
| Tokens.NewLeaf | cdecl.py:41-52 | a new leaf spells its text, has no flags, and spans as many columns as the text has characters, from its start |
| Tokens.IsType | cdecl.py:54-57 | a type name is a name and not a number |
| Tokens.PrimTypeIsType | cdecl.py:54-57 | every leaf spelled as a primitive type is a type name |
| Tokens.HasModifier | cdecl.py:65-67 | a token that has a flag is a leaf, and adding that flag to it again fails |
| Tokens.IsGroup | cdecl.py:69-71 | a group is neither a name nor a number |
| Tokens.IsName | cdecl.py:73-76 | a name is a leaf with text whose first character is not a digit |
| Tokens.IsNum | cdecl.py:78-80 | a number is never a name |
| Tokens.TokSpan | cdecl.py:109-112 | a token has an underline unless it is a group without a position; a leaf's underline runs from its start for its length |
| Tokens.SizeAllSlice | cdecl.py:528-538 | a slice of a token list, and any one member, is no larger than the whole list (the measure of the parser's recursion into groups) |
| LexSpec.SkipSpaces | cdecl.py:162-166 | the cursor stops at the first character that is not whitespace, or at the end, having passed only whitespace |
| LexSpec.IdentEnd | cdecl.py:174-177 | the identifier loop stops at the first character that cannot continue an identifier, having passed only identifier characters |
| LexSpec.DigitsEnd | cdecl.py:301-305 | the number loop stops at the first non-digit, having passed only digits |
| LexSpec.ReadIdent | cdecl.py:168-179 | after skipping whitespace, an identifier is read exactly when one starts there; its leaf spells the text it spans, and the cursor stops at the first character that cannot continue it |
| LexSpec.StructTag | cdecl.py:184-196 | a `struct` leaf, when accepted, keeps its start and ends at the cursor after the tag |
| LexSpec.PrimType | cdecl.py:197-208 | the primitive-type branch keeps the start and the flags, and never moves the cursor backwards |
| LexSpec.AddModifiers | cdecl.py:264-266 | attaching a run of modifiers, when it succeeds, appends them all in order, and all of them are modifier words |
| LexSpec.ModifierRun | cdecl.py:209-244 | a modifier run, when accepted, yields a leaf that starts at the first modifier and ends at the cursor |
| LexSpec.ResolveRun | cdecl.py:245-268 | the end of a run, when accepted, yields a leaf that starts at the first modifier and ends at the cursor |
| LexSpec.RunTypeName | cdecl.py:245-262 | the type name after a run is found exactly when the next word is a primitive type or the last modifier is `signed`/`unsigned`; it is then a primitive type, and the cursor is either rewound to before the next word or stays after it |
| LexSpec.WithModifiers | cdecl.py:264-266 | attaching a run succeeds exactly when `AddModifiers` does, reports its error otherwise, and appends the run to the leaf's flags |
| LexSpec.ParseTypeSpec | cdecl.py:181-268 | folding a keyword leaf, when accepted, keeps its start, ends at the cursor and never moves the cursor backwards |
| LexSpec.Punctuation | cdecl.py:276-290 | a punctuation character yields a leaf that starts at it and ends at the cursor |
| LexSpec.WordOrNumber | cdecl.py:292-308 | a word or a number yields a token past the cursor; no token is yielded only when the character starts neither |
| LexSpec.NextTokenSpec | cdecl.py:270-320 | a token moves the cursor forward; the end of the input is reported only when only whitespace remains |
| LexSpec.GroupSpec | cdecl.py:144-160 | a group, when accepted, is a group with a known span |
| LexSpec.Lex | cdecl.py:620 | lexing a declaration, when accepted, yields a group with a known span |
| Lexing.Lexer.constructor | cdecl.py:115-118 | the lexer starts with its cursor at 0 over the given text |
| Lexing.Lexer.CurChar | cdecl.py:138-142 | the character under the cursor, present exactly when the cursor is inside the text |
| Lexing.Lexer.PeekChar | cdecl.py:132-136 | the character after the cursor, present exactly when it lies inside the text |
| Lexing.Lexer.NextChar | cdecl.py:125-130 | the cursor moves by one and the character under it is returned |
| Lexing.Lexer.SkipSpace | cdecl.py:162-166 | the cursor moves to the first non-whitespace character, `SkipSpaces` of where it was |
| Lexing.Lexer.ParseIdent | cdecl.py:168-179 | the token and the cursor are those of `ReadIdent` |
| Lexing.Lexer.ParseType | cdecl.py:181-268 | the result and the cursor are those of `ParseTypeSpec` |
| Lexing.Lexer.ParseStruct | cdecl.py:184-196 | the result and the cursor are those of `StructTag` |
| Lexing.Lexer.ParsePrim | cdecl.py:197-208 | the result and the cursor are those of `PrimType`, rewinding when `long` is not followed by a word it folds with |
| Lexing.Lexer.ParseModifiers | cdecl.py:209-244 | the loop over a modifier run computes `ParseTypeSpec`, cursor included |
| Lexing.Lexer.ParseConstStruct | cdecl.py:227-231 | `const struct` is re-read as a struct tag flagged `const`: the result and the cursor are those of the modifier run |
| Lexing.Lexer.ResolveModifiers | cdecl.py:245-268 | the result and the cursor, rewound after `signed`/`unsigned`, are those of `ResolveRun` |
| Lexing.Lexer.NextToken | cdecl.py:270-320 | the result and the cursor are those of `NextTokenSpec` |
| Lexing.Lexer.ReadPunctuation | cdecl.py:276-290 | the leaf and the cursor are those of `Punctuation`, rewinding when `*` is not followed by `const` |
| Lexing.Lexer.ReadWordOrNumber | cdecl.py:292-308 | the result and the cursor are those of `WordOrNumber` |
| Lexing.Lexer.ParseTokens | cdecl.py:144-160 | the group and the cursor are those of `GroupSpec` |
| Lexing.LexDeclaration | cdecl.py:620 | lexing a whole declaration with a fresh lexer gives `Lex` of its text |
| LexProps.ItemsCoverAppend | cdecl.py:153-160 | appending a token that covers the text after the previous one extends the covered range |
| LexProps.PrimTypeFacts | cdecl.py:197-208 | the primitive-type branch yields a primitive type with the same flags, and changes the token only by folding `long` into a two-word type |
| LexProps.StructTagOk | cdecl.py:184-196 | a struct leaf carries `struct` and has consistent flags: its tag is a name and not a keyword |
| LexProps.FlaggedPrimOk | cdecl.py:264-268 | a primitive type flagged by a valid modifier run is a consistent leaf |
| LexProps.ResolveRunOk | cdecl.py:245-268 | the end of a valid run yields a consistent leaf flagged with exactly the run |
| LexProps.ModifierRunOk | cdecl.py:209-244 | the run loop preserves the run invariant: no `struct` inside the run, never both `signed` and `unsigned`; the leaf it ends with is consistent |
| LexProps.ParseTypeCovers | cdecl.py:181-268 | a folded keyword leaf covers exactly the text from the keyword to the cursor |
| LexProps.PunctuationCovers | cdecl.py:276-290 | a punctuation leaf covers exactly its text |
| LexProps.WordOrNumberCovers | cdecl.py:292-308 | a word or number token covers exactly its text |
| LexProps.NextTokenCovers | cdecl.py:270-320 | every token covers exactly the text from the first non-blank character to the cursor |
| LexProps.GroupCovers | cdecl.py:144-160 | a nested group spans its parentheses, and its items cover what lies between them |
| LexProps.TopGroupCovers | cdecl.py:144-160 | the top-level group spans the whole text, and its items cover it up to trailing whitespace |
| LexProps.LexCovers | cdecl.py:620 | every lexed declaration is covered exactly by its tokens, with consistent flags on every leaf |
| LexFacts.ReadWord | cdecl.py:168-179 | reading an identifier yields exactly the word spelled after the whitespace |
| LexFacts.StarConst | cdecl.py:276-290 | `*` followed by the word `const` is one `*` leaf flagged `const` spanning both; anything else leaves a bare `*` of length 1 |
| LexFacts.ConstIsWord | cdecl.py:279-281 | an identifier read as `const` is the word `const` standing on its own in the text |
| LexFacts.LongSuffix | cdecl.py:199-202 | the word found is one of `double`, `long`, `int`, spelled there |
| LexFacts.LongFold | cdecl.py:199-208 | `long` followed by `double`, `long` or `int` folds into the two-word type spanning both words; anything else leaves the token and the cursor unchanged |
| LexFacts.StrayCharacter | cdecl.py:316-320 | a `)` that starts no token is "unmatched )"; any other such character is "invalid character"; both underline that one character |
| LexFacts.SpaceBeforeClose | cdecl.py:147-153 | whitespace before a closing `)` makes it "unmatched )" |
| LexFacts.Unclosed | cdecl.py:144-160 | a group with no `)` after it fails to lex: with "expected closing )", which carries no caret, unless reading one of its tokens fails first with that token's own error |
| ModifierFacts.KeywordToken | cdecl.py:293-296 | a token that starts with a keyword is exactly what `parse_type` makes of it |
| ModifierFacts.DefaultsToInt | cdecl.py:245-253 | `signed` or `unsigned` followed by anything but a keyword is an `int` flagged with it, spanning the modifier alone, and the next word is given back |
| ModifierFacts.SignedWithUnsigned | cdecl.py:232-239 | two sign modifiers in a row, even the same one twice, are rejected, underlining both |
| ModifierFacts.StructNeedsSoleConst | cdecl.py:218-226 | `struct` after a sign modifier is rejected, underlining both words |
| ModifierFacts.ConstStruct | cdecl.py:227-231 | `const struct TAG` is one leaf named by the tag, flagged `const` then `struct`, spanning all three words |
| ModifierFacts.RepeatedConst | cdecl.py:213-217 | `const const T` passes the repeated-modifier check and then fails when the flags are attached |
| ModifierFacts.MissingTypeName | cdecl.py:254-259 | `const` followed by anything but a keyword is "expected a type name or modifier", underlining the next word or the column where one was expected |
| Ast.TypeNode | cdecl.py:377-381 | a type node takes the leaf's text and flags, with no warnings |
| Ast.PointerNode | cdecl.py:359-362 | a pointer node wraps its child, with its constness and no warnings |
| Ast.ArrayNode | cdecl.py:347-350 | an array node wraps its child, with its size and no warnings |
| Ast.FunctionNode | cdecl.py:397-401 | a function node wraps its return type, with its parameters and no warnings |
| Ast.IsFunction | cdecl.py:539 | `type(n) == Function` holds of a node built as a function, whatever its warnings |
| Ast.AddWarning | cdecl.py:334-335 | a warning is appended last, and nothing else about the node changes |
| ParseSpec.IsPunct | cdecl.py:491 | a token compared with a punctuation string is a leaf, with a position |
| ParseSpec.ErrorAt | cdecl.py:441-450 | the parser's error carries its message and underlines the token at the index, or, past the end, the one column just after the last token |
| ParseSpec.CheckVoid | cdecl.py:472-474 | a declaration is accepted exactly when there is a node; `void` on its own is refused |
| ParseSpec.Pointers | cdecl.py:490-494 | the star loop never moves the index backwards or past the end |
| ParseSpec.NameOrGroup | cdecl.py:496-506 | the group kept for later is one of the tokens |
| ParseSpec.CommaAt | cdecl.py:529-535 | the parameter's tokens run up to the first `,` at or after `i`, or to the end |
| ParseSpec.Dimensions | cdecl.py:545-556 | the dimension loop stops at the first token that is not `[` |
| ParseSpec.WrapArrays | cdecl.py:558-565 | with no dimensions the child is unchanged; otherwise the result is an array |
| ParseSpec.WrapFunction | cdecl.py:570-576 | the function node wraps the child and the parameters; it is warned exactly when it returns a function |
| ParseSpec.EmptyGroupError | cdecl.py:425-429 | an empty group is "expected more tokens here", underlined, exactly when it has a position; without one the underline itself fails |
| ParseSpec.MemberSize | cdecl.py:579-581 | a group inside a token list is no larger than the list (the measure of the recursive parse) |
| ParseSpec.ParseGroup | cdecl.py:425-431 | an empty group fails: "expected more tokens here" exactly when it has a position, an internal error otherwise |
| ParseSpec.ParseItems | cdecl.py:476-489 | with no child yet, a first token that is not a type name is "expected a type name" at it, and a lone type name is accepted exactly when it is not `void` |
| ParseSpec.Declarator | cdecl.py:490-584 | with no tokens left, the result is the `void` check on the child |
| ParseSpec.ParseParam | cdecl.py:528-541 | an empty parameter is an internal error; a parameter parses exactly when it parses as a group of its own, and a function parameter carries the raw-function warning last |
| ParseSpec.ParseParams | cdecl.py:524-541 | the parameters already parsed stay in front, and every step short of the end adds at least one more |
| ParseSpec.Declaration | cdecl.py:619-629 | a lexer error is the declaration's error, and a parsed declaration had at least one token |
| ParseSpec.ParamList | cdecl.py:508-543 | the parameter list never moves the index backwards or past the end |
| Parsing.Parser.constructor | cdecl.py:425-431 | a parser starts at index 0 over a non-empty group with the given child |
| Parsing.Parser.ErrorHere | cdecl.py:441-450 | the parser's error carries its message and underlines the token at the index, or, past the end, the one column just after the last token |
| Parsing.Parser.Current | cdecl.py:452-455 | a token is returned exactly when the index is inside the group, and it is the token there |
| Parsing.Parser.Next | cdecl.py:462-464 | the index moves by one |
| Parsing.Parser.Expect | cdecl.py:466-470 | a token is returned exactly when the index is inside the group, and it is the token there |
| Parsing.Parser.Parse | cdecl.py:476-489 | parsing a group computes `ParseItems`; on success the tree is left in `child` and the index at the end of the group |
| Parsing.Parser.ParseDeclarator | cdecl.py:490-584 | the declarator computes `Declarator` from the index and the child it starts with; on success the index has reached the end of the group |
| Parsing.Parser.ParsePointers | cdecl.py:490-494 | the loop leaves the index and the child of `Pointers` |
| Parsing.Parser.ParseNameOrGroup | cdecl.py:496-506 | the result and the index are those of `NameOrGroup` |
| Parsing.Parser.ParseParamList | cdecl.py:508-543 | the result and the index are those of `ParamList` |
| Parsing.Parser.ParseDimensions | cdecl.py:545-556 | the loop computes the dimensions and the index of `Dimensions` |
| Parsing.Parser.WrapDimensions | cdecl.py:558-565 | the loop over the reversed dimensions computes `WrapArrays`, leaving the index alone |
| Parsing.NewParser | cdecl.py:425-431 | a parser is made exactly for a non-empty group; otherwise the error is that of an empty group |
| Parsing.ParseParameters | cdecl.py:524-541 | the loop over the parameter group computes `ParseParams` |
| Parsing.CollectParam | cdecl.py:528-535 | the inner loop collects exactly the tokens up to the next `,` |
| Parsing.ParseParameter | cdecl.py:538-541 | one parameter is parsed as `ParseParam` says |
| Parsing.CommaAtFirst | cdecl.py:529-535 | the `,` the scan stops at is the first one |
| Parsing.ParseDeclaration | cdecl.py:619-629 | lexing, then parsing with a fresh parser, computes `Declaration` |
| ParseProps.PeelStep | cdecl.py:329-332 | one more step down the child chain is the child of the node reached |
| ParseProps.PointersOrder | cdecl.py:490-494 | the stars end at the first token that is not `*`; the child is wrapped once per star, the last star outermost, each pointer constant exactly when its star carries `const` |
| ParseProps.WrapArraysOrder | cdecl.py:558-565 | the first dimension written is the outermost array and each array has its own size; wrapping fails exactly when there is a dimension but no child, underlining the `void` |
| ParseProps.PointersOk | cdecl.py:490-494 | pointers preserve the shape invariant |
| ParseProps.WrapArraysOk | cdecl.py:558-565 | arrays preserve the shape invariant: no array of void, and an array of functions is warned |
| ParseProps.GroupOk | cdecl.py:476-584 | parsing a group around a well-formed node builds a well-formed tree |
| ParseProps.ItemsOk | cdecl.py:476-489 | the same for the items of a group |
| ParseProps.DeclaratorOk | cdecl.py:490-584 | the same for the declarator |
| ParseProps.ParamListOk | cdecl.py:508-543 | every parameter is a well-formed parameter root |
| ParseProps.ParamsOk | cdecl.py:524-541 | the parameter loop keeps every parameter well-formed |
| ParseProps.ParamOk | cdecl.py:538-541 | a parameter that is a function carries the raw-function warning last |
| ParseProps.DeclarationOk | cdecl.py:619-629 | every tree built from a declaration is well-formed: types are primitive or struct, arrays store something, and exactly the arrays of functions, functions returning functions and functions passed as parameters carry their warnings |
| PhaseFacts.NameOrGroupCases | cdecl.py:496-506 | a keyword in the name position is refused with "cannot use '<word>' as an identifier" underlining it, any other name is skipped, a group is kept and skipped, and anything else is left in place |
| PhaseFacts.DimensionCases | cdecl.py:545-556 | `[n]` adds the value of `n`, `[]` adds no size and the scan goes on after the `]`; a missing `]` is "expected ]" at the token found instead; running out of tokens is "expected another token" just past the last one |
| PhaseFacts.DimensionsPrefix | cdecl.py:545-556 | the dimensions already read stay in front, in the order read, and do not change what is read next |
| PhaseFacts.DimensionsCount | cdecl.py:545-556 | a successful scan reads exactly one dimension for each `[` it passes |
| PhaseFacts.ParamListCases | cdecl.py:508-543 | no group gives no parameter list; `()` takes any parameters, `(void)` none, and any other group the parameters parsed from it, or their error |
| PhaseFacts.Runs | cdecl.py:520-535 | the runs a parameter group splits into contain no `,` |
| PhaseFacts.TrailingCommaAddsNoRun | cdecl.py:525-535 | a `,` at the end of a parameter group starts no further parameter |
| PhaseFacts.ParseParamsAreRuns | cdecl.py:520-541 | the parameter loop parses the comma-separated runs one after the other |
| PhaseFacts.ParseRunsFacts | cdecl.py:520-541 | parsing runs in turn succeeds exactly when each run parses, giving one node per run in order, and otherwise fails with the first failing run's error |
| PhaseFacts.ParamListRuns | cdecl.py:508-543 | a parameter group other than `()` and `(void)` declares one parameter per run, each parsed on its own, in order, or fails with the first run's error |
| PhaseFacts.NothingLeftOver | cdecl.py:567-568 | once the phases before it succeed, a token left after the dimensions is "unexpected tokens" at that token, and a successful declarator has used every token |
| ParseExamples.CharPointerArray | cdecl.py:476-584 | the tokens of `char *p[10]` parse to an array of ten pointers to char |
| ParseExamples.ParamChar | cdecl.py:538 | the parameter `char` is the type char |
| ParseExamples.ParamIntPointer | cdecl.py:538 | the parameter `int*` is a pointer to int |
| ParseExamples.ParamsCharIntPointer | cdecl.py:524-541 | `char, int*` are two parameters, in order |
| ParseExamples.PointerToF | cdecl.py:579-581 | the group `(*f)` parsed around a node is a pointer to that node |
| ParseExamples.FunctionPointer | cdecl.py:476-584 | the tokens of `int (*f)(char, int*)` parse to a pointer to a function taking char and pointer to int, returning int |
| ParseExamples.VoidAlone | cdecl.py:486-488 | the token `void` alone is refused, underlining it |
| ParseExamples.VoidPointer | cdecl.py:490-494 | the tokens of `void *p` parse to a pointer to void, with no child |
| ParseExamples.VoidInParentheses | cdecl.py:579-581 | the tokens of `void (*p)` are refused with "expected a type name" |
| ParseExamples.ArrayOfVoid | cdecl.py:558-560 | the tokens of `void a[2]` are refused with "arrays cannot store void", underlining the `void` |
| ParseExamples.ArrayOfFunctions | cdecl.py:562-564 | the tokens of `int (f[3])()` parse to an array of three functions, warned |
| ParseExamples.ArrayOfThreeF | cdecl.py:558-564 | the group `(f[3])` around any function is an array of three of them, warned |
| ParseExamples.FunctionReturningFunction | cdecl.py:573-575 | the tokens of `int (f())()` parse to a function returning a function, warned |
| ParseExamples.RawFunctionParameterList | cdecl.py:538-541 | the parameter `int g()` is a function carrying the raw-function warning |
| ParseExamples.RawFunctionParameter | cdecl.py:538-541 | the tokens of `int f(int g())` declare a function that takes a raw function, warned on the parameter |
| ParseExamples.EmptyParameter | cdecl.py:528-538 | the tokens of `int f(,int)` fail on the empty parameter without an underline |
| ParseExamples.TrailingComma | cdecl.py:525-535 | the tokens of `int f(int,)` declare a function that takes one parameter: the trailing comma adds no empty one |
| ParseExamples.VoidParameters | cdecl.py:517-519 | the tokens of `int f(void)` parse to a function taking no parameters |
| ParseExamples.KeywordAsName | cdecl.py:499-502 | the tokens of `int char` are refused: a keyword cannot be the declared name |
| ParseExamples.LeftoverTokens | cdecl.py:567-568 | the tokens of `int x y` are refused with "unexpected tokens" at `y` |
| ParseExamples.UnfinishedDimension | cdecl.py:547-550 | the tokens of `int x[` are refused with "expected another token", just past the last token |
| DeclarationExamples.SpaceToken | cdecl.py:270-272 | whitespace before a token does not change the token read or where the cursor stops |
| DeclarationExamples.WordRead | cdecl.py:168-179 | a word read where it starts is the leaf spelling it, ending at the first character that cannot continue it |
| DeclarationExamples.PrimToken | cdecl.py:293-296 | a primitive type other than `long` is a token of its own |
| DeclarationExamples.LetterToken | cdecl.py:293-297 | a one-letter name is a token of its own, since no keyword is that short |
| DeclarationExamples.NameNext | cdecl.py:293-297 | a word that is not a keyword is the token read |
| DeclarationExamples.PunctToken | cdecl.py:276-290 | a punctuation character is a token of its own, unless it is a `*` that `const` may follow |
| DeclarationExamples.NumberToken | cdecl.py:299-306 | a run of digits is one number token spelling it |
| DeclarationExamples.NestedToken | cdecl.py:308-311 | a `(` is read as the whole group up to its `)` |
| DeclarationExamples.NoWord | cdecl.py:293-306 | no word or number starts at a character that cannot begin one |
| DeclarationExamples.StepRead | cdecl.py:151-160 | a token read where the group has got to is appended to it |
| DeclarationExamples.TwoReads | cdecl.py:151-160 | two tokens read one after the other are appended in that order |
| DeclarationExamples.CloseGroup | cdecl.py:146-149 | a nested group ends at its `)`, its span including both parentheses |
| DeclarationExamples.TopEnd | cdecl.py:151-155 | the top-level group ends where the text does and spans all of it |
| DeclarationExamples.LexVoid | cdecl.py:620 | `void` lexes to one `void` leaf |
| DeclarationExamples.LexVoidPointer | cdecl.py:620 | `void *p` lexes to the leaves `void`, `*`, `p` at columns 0, 5, 6 |
| DeclarationExamples.LexCharPointerArray | cdecl.py:620 | `char *p[10]` lexes to the leaves `char`, `*`, `p`, `[`, `10`, `]` at their columns |
| DeclarationExamples.LexFunctionPointer | cdecl.py:620 | `int (*f)(char, int*)` lexes to `int` and the groups `(*f)` and `(char, int*)`, each with its span and its leaves |
| DeclarationExamples.DeclareVoid | cdecl.py:619-629 | the declaration `void` is refused with "void on its own is not a valid type", underlining it |
| DeclarationExamples.DeclareVoidPointer | cdecl.py:619-629 | the declaration `void *p` is a pointer to void |
| DeclarationExamples.DeclareCharPointerArray | cdecl.py:619-629 | the declaration `char *p[10]` is an array of ten pointers to char |
| DeclarationExamples.DeclareFunctionPointer | cdecl.py:619-629 | the declaration `int (*f)(char, int*)` is a pointer to a function taking a char and a pointer to int and returning int |
| ErrorSpans.AddModifiersFails | cdecl.py:59-63 | attaching modifiers can only fail with an internal error, which prints no caret |
| ErrorSpans.StructTagWithin | cdecl.py:184-196 | a `struct` error underlines text of the declaration or the column after it |
| ErrorSpans.RunTypeNameWithin | cdecl.py:245-262 | the same for the error after a modifier run |
| ErrorSpans.ResolveRunWithin | cdecl.py:245-268 | the same for the end of a modifier run |
| ErrorSpans.ModifierRunWithin | cdecl.py:209-244 | the same for every error of the modifier loop |
| ErrorSpans.ParseTypeWithin | cdecl.py:181-268 | the same for `parse_type` |
| ErrorSpans.WordOrNumberWithin | cdecl.py:292-306 | the same for a word or number |
| ErrorSpans.NextTokenWithin | cdecl.py:270-320 | the same for `next_token`, including the stray-character caret |
| ErrorSpans.GroupWithin | cdecl.py:144-160 | the same for a whole group |
| ErrorSpans.LexErrorWithin | cdecl.py:620 | every lexer error underlines text of the declaration or the column after it |
| ErrorSpans.CoversWithin | cdecl.py:144-160 | a token that covers part of the text has every span inside the text |
| ErrorSpans.ItemsCoverWithin | cdecl.py:144-160 | the same for the items of a group |
| ErrorSpans.LexedWithin | cdecl.py:620 | every span in a lexed declaration lies inside its text |
| ErrorSpans.TokSpanWithin | cdecl.py:109-112 | the underline of a token inside the text lies inside the text |
| ErrorSpans.ErrorAtWithin | cdecl.py:441-450 | the parser's error at an index underlines text of the declaration or the column after it |
| ErrorSpans.CheckVoidWithin | cdecl.py:472-474 | the same for the `void` check |
| ErrorSpans.NameOrGroupWithin | cdecl.py:496-506 | the same for the name or group |
| ErrorSpans.DimensionsWithin | cdecl.py:545-556 | the same for the array dimensions |
| ErrorSpans.WrapArraysWithin | cdecl.py:558-565 | the same for "arrays cannot store void" |
| ErrorSpans.GroupErrorWithin | cdecl.py:425-431 | the same for parsing a group, the empty-group error included |
| ErrorSpans.ItemsErrorWithin | cdecl.py:476-489 | the same for the type name at the start of a group |
| ErrorSpans.DeclaratorErrorWithin | cdecl.py:490-584 | the same for every phase of the declarator |
| ErrorSpans.ParamListWithin | cdecl.py:508-543 | the same for the parameter list |
| ErrorSpans.ParamsWithin | cdecl.py:524-541 | the same for the parameter loop |
| ErrorSpans.ParamWithin | cdecl.py:538-541 | the same for one parameter |
| ErrorSpans.DeclarationErrorWithin | cdecl.py:619-629 | every error from a declaration, the lexer's or the parser's, underlines text of the declaration or the one column after it |

## Left out

- Printing is not modelled: the explanation of the tree (`display`, `colour_name`), the token dump and the caret lines. Each caret line is kept only as the span inside the error value.
- The prompt loop is not modelled: reading lines, `readline` history, the Ctrl+C handler and the `--help` text. Its lexing and parsing of one stripped, non-empty line is `Parsing.ParseDeclaration`.
- `str.isspace`, `str.isalpha` and `str.isdigit` are modelled on ASCII characters only. Unicode letters, digits and spaces are treated as invalid characters.
- `Parser.peek` is not modelled, because nothing calls it. `Parser.error_at` keeps only the span and the message. Its statements after `raise` never run.
- The repeated-modifier check at cdecl.py:215 compares a token object with strings, so it never fires. The model leaves it out, and `const const int` reaches `add_modifier` and fails there with an internal error (`ModifierFacts.RepeatedConst`).
- Whitespace before a closing parenthesis, as in `(int )`, is reported as "unmatched )". `parse_tokens` looks for `)` before `next_token` skips whitespace (`LexFacts.SpaceBeforeClose`).
- The "expected closing )" error prints no caret, so the model's error carries no span.
- Parameter groups that the parser builds itself have no position. When one is empty (`f(,int)`, `f(int,,int)`), `Token.underline` fails on the missing start before "expected more tokens here" is raised. The program stops with an exception it does not catch, which the model treats as `InternalError` (`ParseSpec.EmptyGroupError`).
- A trailing comma (`f(int,)`) ends the parameter list without adding a parameter, as the code does.
- A function's parameters are `AnyParams` where the source uses `None` (written `f()`), and `Declared(list)` where it uses a list (`f(void)` gives the empty list).
- Re-lexing the text under a token is not modelled as such. `LexProps.LexCovers` proves that a plain leaf spells exactly the text it spans. A folded type leaf, such as `unsigned long int`, carries only its type word and its flags, and its span covers all of its words. A group spans its parentheses. Neither is claimed to re-lex to an equal token.
- `get_num` on a digit run always succeeds in the source. The model's `GetNum` also refuses a lexeme that is not all digits, which the lexer never produces.
- Python exceptions other than those above, such as an attribute read on a missing token, are all `InternalError`. The model does not distinguish them.
