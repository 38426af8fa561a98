/**
 The token record shared by the lexer and the token-stream rules, and minimal
 stand-ins for the helpers of the token utility module (`mkToken`, `setValue`,
 `appendTo`, `changeTokenType`, `tokenOrEmpty`, `continueToken`), whose
 definitions are not part of this model.
 */
module Tokens {
  import opened Options

  /** Token types. `Other` stands for every type name the core never tests. */
  datatype Kind =
    | OPERATOR | NEWLINE | TOKEN | EMPTY | EOF
    | WORD | NAME | OPEN_PAREN | CLOSE_PAREN | CONTINUE
    | Other(tag: string)

  /** Start position, and the end position once the token is finalized (0-based). */
  datatype Loc = Loc(startLine: nat, startColumn: nat, endLine: Option<nat>, endColumn: Option<nat>)

  /**
   A token. `value` is the token text (the JavaScript value `true` of EMPTY and
   EOF tokens is written ""); `maybeStartOfSimpleCommand` is the one flag of the
   `_` bookkeeping object the core reads; `frozen` stands for `Object.isFrozen`.
   */
  datatype Token = Token(kind: Kind, value: string, loc: Loc, maybeStartOfSimpleCommand: bool, frozen: bool)

  /** `mkToken(kind, value, {startLine, startColumn})`: a fresh, unfinalized token. */
  function MkToken(kind: Kind, value: string, line: nat, column: nat): Token {
    Token(kind, value, Loc(line, column, None, None), false, false)
  }

  /** `changeTokenType(tk, kind, value)`: a new token with another type; everything else is kept. */
  function ChangeTokenType(tk: Token, kind: Kind, value: string): Token {
    tk.(kind := kind, value := value)
  }

  /** The part of the reducer tokenizer's state that the single-quote reducer touches. */
  datatype LexState = LexState(current: string, loc: Loc) {

    /** `state.appendChar(ch)`: a new state whose pending text ends with `ch`. */
    function AppendChar(ch: char): LexState {
      this.(current := current + [ch])
    }
  }

  /** `tokenOrEmpty(state)`: the pending token, if any text is pending. */
  function TokenOrEmpty(state: LexState): seq<Token> {
    if state.current == "" then [] else [Token(TOKEN, state.current, state.loc, false, false)]
  }

  /** `continueToken(expected)`: the marker saying that input ended while `expected` was still awaited. */
  function ContinueToken(expected: string): Token {
    MkToken(CONTINUE, expected, 0, 0)
  }
}
