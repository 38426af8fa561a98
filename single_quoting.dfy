/**
 The single-quote state of the reducer tokenizer. Each call takes one
 character off the front of the source: a `'` is appended and scanning returns
 to the start reducer; any other character is appended verbatim and scanning
 stays in single quotes; an exhausted source emits the pending token and a
 continuation marker awaiting `'`.
 */
module SingleQuotingReducer {
  import opened Options
  import opened Tokens

  /** The reducers this one can hand over to; `Start` is the (not modelled) start reducer. */
  datatype Reducer = Start | SingleQuoting

  /** What a reducer returns; a missing `tokensToEmit` is written []. */
  datatype Reduction = Reduction(nextState: LexState, nextReduction: Option<Reducer>, tokensToEmit: seq<Token>)

  /** The source array of characters, from which the reducer shifts. */
  class CharSource {
    var chars: seq<char>

    constructor (chars: seq<char>)
      ensures this.chars == chars
    {
      this.chars := chars;
    }

    /** `source.shift()`: remove and return the first character, if there is one. */
    method Shift() returns (ch: Option<char>)
      modifies this
      ensures old(chars) == [] ==> ch == None && chars == []
      ensures old(chars) != [] ==> ch == Some(old(chars)[0]) && chars == old(chars)[1..]
    {
      if chars == [] {
        ch := None;
      } else {
        ch := Some(chars[0]);
        chars := chars[1..];
      }
    }
  }

  /** The reduction once `ch` (or nothing, on an exhausted source) has been taken. */
  function Step(state: LexState, ch: Option<char>): (r: Reduction)
    ensures ch == None ==>
      r.nextState == state && r.nextReduction == None
      && r.tokensToEmit == TokenOrEmpty(state) + [ContinueToken("'")]
    ensures ch.Some? ==> r.tokensToEmit == [] && r.nextState.current == state.current + [ch.value]
                         && r.nextState.loc == state.loc
    ensures ch == Some('\'') ==> r.nextReduction == Some(Start)
    ensures ch.Some? && ch.value != '\'' ==> r.nextReduction == Some(SingleQuoting)
  {
    match ch
    case None => Reduction(state, None, TokenOrEmpty(state) + [ContinueToken("'")])
    case Some(c) =>
      if c == '\'' then Reduction(state.AppendChar(c), Some(Start), [])
      else Reduction(state.AppendChar(c), Some(SingleQuoting), [])
  }

  /**
   `singleQuoting(state, source)`: shift one character off the source, then
   step on it. A `null` reference here stands for an undefined source.
   */
  method Reduce(state: LexState, source: CharSource?) returns (r: Reduction)
    modifies source
    ensures source == null ==> r == Step(state, None)
    ensures source != null && old(source.chars) == [] ==> r == Step(state, None) && source.chars == []
    ensures source != null && old(source.chars) != [] ==>
      r == Step(state, Some(old(source.chars)[0])) && source.chars == old(source.chars)[1..]
  {
    var ch: Option<char> := None;
    if source != null {
      ch := source.Shift();
    }
    r := Step(state, ch);
  }

  /** Where repeatedly applying the reducer to a source stops. */
  datatype Outcome = Outcome(finalState: LexState, reducer: Option<Reducer>, emitted: seq<Token>, remaining: seq<char>)

  /**
   The tokenizer's loop restricted to this reducer: step while the reducer
   hands back to itself, collecting what is emitted. It stops in another
   reducer or on exhaustion, leaving a suffix of the source unread.
   */
  function Run(state: LexState, cs: seq<char>): (o: Outcome)
    decreases |cs|
    ensures o.reducer != Some(SingleQuoting)
    ensures |o.remaining| <= |cs| && o.remaining == cs[|cs| - |o.remaining|..]
    ensures o.finalState == state.(current := state.current + cs[..|cs| - |o.remaining|])
    ensures o.reducer == Some(Start) ==> o.emitted == []
  {
    if cs == [] then
      var r := Step(state, None);
      Outcome(r.nextState, r.nextReduction, r.tokensToEmit, [])
    else
      var r := Step(state, Some(cs[0]));
      if r.nextReduction == Some(SingleQuoting) then
        var o := Run(r.nextState, cs[1..]);
        assert cs[..|cs| - |o.remaining|] == [cs[0]] + cs[1..][..|cs| - 1 - |o.remaining|];
        o.(emitted := r.tokensToEmit + o.emitted)
      else
        assert cs[..1] == [cs[0]];
        Outcome(r.nextState, r.nextReduction, r.tokensToEmit, cs[1..])
  }

  /**
   A source without `'` is appended verbatim, backslashes, `$` and newlines
   included; then the source is exhausted and the pending token is emitted
   with the continuation marker.
   */
  lemma {:induction false} QuoteFreeSourceIsAppendedVerbatim(state: LexState, cs: seq<char>)
    requires '\'' !in cs
    decreases |cs|
    ensures var done := state.(current := state.current + cs);
      Run(state, cs) == Outcome(done, None, TokenOrEmpty(done) + [ContinueToken("'")], [])
  {
    if cs == [] {
      assert state.(current := state.current + cs) == state;
    } else {
      var next := state.AppendChar(cs[0]);
      QuoteFreeSourceIsAppendedVerbatim(next, cs[1..]);
      assert next.current + cs[1..] == state.current + cs;
    }
  }

  /**
   A quote-free prefix followed by `'` is appended together with the quote,
   nothing is emitted, control returns to the start reducer and the rest of the
   source is left unread.
   */
  lemma {:induction false} ClosingQuoteReturnsToStart(state: LexState, cs: seq<char>, rest: seq<char>)
    requires '\'' !in cs
    decreases |cs|
    ensures Run(state, cs + ['\''] + rest)
         == Outcome(state.(current := state.current + cs + ['\'']), Some(Start), [], rest)
  {
    var src := cs + ['\''] + rest;
    if cs == [] {
      assert src[0] == '\'' && src[1..] == rest;
    } else {
      var next := state.AppendChar(cs[0]);
      assert src[0] == cs[0] && src[1..] == cs[1..] + ['\''] + rest;
      ClosingQuoteReturnsToStart(next, cs[1..], rest);
      assert next.current + cs[1..] + ['\''] == state.current + cs + ['\''];
    }
  }
}
