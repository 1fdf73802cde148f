/**
 * The token stream the query parser reads, and the lexer operations it
 * relies on.  The tokenizer itself (Go's text/scanner wrapped by the
 * graphql-go lexer package) is not part of this model: the input is the
 * stream of already classified tokens, first token first, and every
 * operation that consumes a token hands back the stream after it.
 */
module Lexer {

  /** One classified token.  `Num` stands for the scanner's Int and Float
      tokens; `Punct` for every single-character token ({ } ( ) : $ @ ! . , ...). */
  datatype Tok =
    | EOF
    | Ident(text: string)
    | Str(text: string)      // a quoted string, already unquoted
    | Num(text: string)
    | Punct(ch: char)

  /** The tokens not read yet.  The lexer yields nothing after EOF, so a stream
      is taken to end at its first EOF: the parser never looks past it. */
  datatype Toks = Nil | Cons(head: Tok, tail: Toks)

  /** The number of tokens not read yet; every successful consumption lowers it. */
  function Length(ts: Toks): nat {
    if ts.Nil? then 0 else 1 + Length(ts.tail)
  }

  /** What a failed consumption expected to see. */
  datatype Expected =
    | IdentToken
    | StringToken
    | PunctToken(c: char)
    | Keyword(word: string)

  /** The single error kind of the parser: a syntax error.  Positions are not modelled. */
  datatype SyntaxError =
    | Unexpected(found: Tok, expected: Expected)
    | InvalidValue

  /** Success or the syntax error that aborted the parse. */
  datatype Result<+T> = Ok(value: T) | Err(error: SyntaxError) {
    predicate IsFailure() { Err? }
    function PropagateFailure<U>(): Result<U> requires Err? { Err(error) }
    function Extract(): T requires Ok? { value }
  }

  /** Success or failure of a consumption that yields no value. */
  datatype Outcome = Pass | Fail(error: SyntaxError) {
    predicate IsFailure() { Fail? }
    function PropagateFailure<U>(): Result<U> requires Fail? { Err(error) }
  }

  /** A parsed value together with the tokens that follow it. */
  datatype Parsed<+T> = Parsed(value: T, rest: Toks)

  /** The next token; once the stream is exhausted the lexer keeps answering EOF. */
  function Peek(ts: Toks): Tok {
    if ts.Nil? then EOF else ts.head
  }

  /** Consumes an identifier and returns its text. */
  function ConsumeIdent(ts: Toks): (r: Result<Parsed<string>>)
    ensures r.Ok? <==> Peek(ts).Ident?
    ensures r.Ok? ==> ts == Cons(Ident(r.value.value), r.value.rest) && Length(r.value.rest) == Length(ts) - 1
    ensures r.Err? ==> r.error == Unexpected(Peek(ts), IdentToken)
  {
    match Peek(ts)
    case Ident(s) => Ok(Parsed(s, ts.tail))
    case t => Err(Unexpected(t, IdentToken))
  }

  /** Consumes the single-character token `c`; the result is the stream after it. */
  function ConsumeToken(ts: Toks, c: char): (r: Result<Toks>)
    ensures r.Ok? <==> Peek(ts) == Punct(c)
    ensures r.Ok? ==> ts == Cons(Punct(c), r.value) && Length(r.value) == Length(ts) - 1
    ensures r.Err? ==> r.error == Unexpected(Peek(ts), PunctToken(c))
  {
    if Peek(ts) == Punct(c) then Ok(ts.tail) else Err(Unexpected(Peek(ts), PunctToken(c)))
  }

  /** Consumes an identifier whose text is exactly `word`. */
  function ConsumeKeyword(ts: Toks, word: string): (r: Result<Toks>)
    ensures r.Ok? <==> Peek(ts) == Ident(word)
    ensures r.Ok? ==> ts == Cons(Ident(word), r.value) && Length(r.value) == Length(ts) - 1
    ensures r.Err? ==> r.error == Unexpected(Peek(ts), Keyword(word))
  {
    if Peek(ts) == Ident(word) then Ok(ts.tail) else Err(Unexpected(Peek(ts), Keyword(word)))
  }

  /** Consumes a quoted string and returns its content. */
  function ConsumeString(ts: Toks): (r: Result<Parsed<string>>)
    ensures r.Ok? <==> Peek(ts).Str?
    ensures r.Ok? ==> ts == Cons(Str(r.value.value), r.value.rest) && Length(r.value.rest) == Length(ts) - 1
    ensures r.Err? ==> r.error == Unexpected(Peek(ts), StringToken)
  {
    match Peek(ts)
    case Str(s) => Ok(Parsed(s, ts.tail))
    case t => Err(Unexpected(t, StringToken))
  }
}
