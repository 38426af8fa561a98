/**
 The function-name rule over the finished token stream: a WORD that may start
 a simple command and is directly followed by `(` and `)` becomes a NAME. The
 lazy look-ahead wrapper of depth 2 is written as indices i+1 and i+2 into the
 finite stream; the look-ahead always sees the input tokens.
 */
module FunctionNameRule {
  import opened Options
  import opened Tokens

  /** `iterable.ahead(n)` at position i: the token n places further on, if the stream has one. */
  function Ahead(ts: seq<Token>, i: nat, n: nat): (a: Option<Token>)
    ensures a.Some? <==> i + n < |ts|
    ensures a.Some? ==> a.value == ts[i + n]
  {
    if i + n < |ts| then Some(ts[i + n]) else None
  }

  /** The map callback: retype `tk` given its two look-ahead tokens. */
  function Retype(tk: Token, ahead1: Option<Token>, ahead2: Option<Token>): (r: Token)
    ensures r == tk || r == ChangeTokenType(tk, NAME, tk.value)
    ensures r.value == tk.value && r.loc == tk.loc
    ensures r.kind == NAME && tk.kind != NAME ==> tk.kind == WORD && tk.maybeStartOfSimpleCommand && ahead2.Some?
  {
    if && tk.maybeStartOfSimpleCommand
       && tk.kind == WORD
       && ahead2.Some?
       && ahead1.Some? && ahead1.value.kind == OPEN_PAREN
       && ahead2.value.kind == CLOSE_PAREN
    then ChangeTokenType(tk, NAME, tk.value)
    else tk
  }

  /** Token i can name a function: flagged, a WORD, and followed directly by `(` and `)`. */
  predicate IsFunctionNameAt(ts: seq<Token>, i: int)
    requires 0 <= i < |ts|
  {
    && i + 2 < |ts|
    && ts[i].maybeStartOfSimpleCommand
    && ts[i].kind == WORD
    && ts[i + 1].kind == OPEN_PAREN
    && ts[i + 2].kind == CLOSE_PAREN
  }

  /**
   The rule: one output token per input token, in order; a token changes iff
   it can name a function, and then only its type becomes NAME.
   */
  function FunctionName(ts: seq<Token>): (r: seq<Token>)
    ensures |r| == |ts|
    ensures forall i :: 0 <= i < |ts| ==> (r[i] != ts[i] <==> IsFunctionNameAt(ts, i))
    ensures forall i :: 0 <= i < |ts| && r[i] != ts[i] ==> r[i] == ts[i].(kind := NAME)
    ensures forall i :: 0 <= i < |ts| ==> r[i].value == ts[i].value && r[i].loc == ts[i].loc
    ensures forall i :: 0 <= i < |ts| && ts[i].kind != WORD ==> r[i] == ts[i]
    ensures forall i :: |ts| - 2 <= i < |ts| && 0 <= i ==> r[i] == ts[i]
  {
    seq(|ts|, i requires 0 <= i < |ts| => Retype(ts[i], Ahead(ts, i, 1), Ahead(ts, i, 2)))
  }

  /** Applying the rule twice is applying it once. */
  lemma FunctionNameIdempotent(ts: seq<Token>)
    ensures FunctionName(FunctionName(ts)) == FunctionName(ts)
  {
    // Retyping produces NAME, which is not WORD, and never alters a paren
    // token, so no position changes a second time.
  }
}
