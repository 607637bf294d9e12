/** Shared vocabulary of the declaration explainer: option and result
    wrappers, the error kinds the lexer and the parser raise, the ASCII
    character classes, and the keyword tables. */
module Base {

  datatype Option<+T> = None | Some(value: T)

  /** A source span: a 0-based offset into the declaration and a width,
      exactly what the caret underline below the echoed input would show. */
  datatype Span = Span(start: nat, length: nat)

  /** The three ways a declaration can be refused.  `at` is the span the
      underline would have printed, or `None` where nothing is printed. */
  datatype Error =
    | LexerError(msg: string, at: Option<Span>)
    | ParserError(msg: string, at: Option<Span>)
      /** The program's own `RuntimeError('internal error')`, or an
          exception it does not catch (such as reading an attribute of a
          missing token). */
    | InternalError

  datatype Result<+T> = Ok(value: T) | Err(error: Error) {
    predicate IsFailure() { Err? }
    function PropagateFailure<U>(): Result<U>
      requires Err?
    {
      Err(error)
    }
    function Extract(): T
      requires Ok?
    {
      value
    }
  }

  // ---------------------------------------------------------------------
  // Character classes (ASCII versions of str.isspace/isalpha/isdigit)
  // ---------------------------------------------------------------------

  predicate IsSpace(c: char) {
    c == ' ' || c == '\t' || c == '\n' || c == '\r' || c == '\U{0B}' || c == '\U{0C}'
    || ('\U{1C}' <= c <= '\U{1F}')
  }

  predicate IsAlpha(c: char) {
    ('a' <= c <= 'z') || ('A' <= c <= 'Z')
  }

  predicate IsDigit(c: char) {
    '0' <= c <= '9'
  }

  /** A character that may start an identifier. */
  predicate IsIdentStart(c: char) {
    c == '_' || IsAlpha(c)
  }

  /** A character that may continue an identifier. */
  predicate IsIdentChar(c: char) {
    c == '_' || IsAlpha(c) || IsDigit(c)
  }

  /** Character at `i`, or `None` past the end (the lexer's `curchar`). */
  function CharAt(s: seq<char>, i: nat): Option<char> {
    if i < |s| then Some(s[i]) else None
  }

  // ---------------------------------------------------------------------
  // Keyword tables
  // ---------------------------------------------------------------------

  const PUNCTUATION: seq<char> := ['[', ']', ',', '*']

  const PRIMTYPES: seq<string> := ["bool", "int", "short", "long", "char", "void", "float",
                                   "double", "long double", "long long", "long int"]

  /** Words that may follow `long` to form a two-word type. */
  const LONGTYPES: seq<string> := ["double", "long", "int"]

  const MODIFIERS: seq<string> := ["unsigned", "signed", "const", "struct"]

  const KEYWORDS: seq<string> := PRIMTYPES + MODIFIERS
}
