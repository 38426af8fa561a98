# POSIX shell lexer core, modelled in Dafny

This project models three pieces of the POSIX-shell lexer of bash-parser:

- **`TokenDelimiterState`**, the scanner context of the class-based tokenizer. It is modelled as the class `TokenDelimiter.TokenDelimiterState` with the same fields: the position and previous position, the comment flag, the quoting mode (the eight values of `QUOTING`), the mode an escape overlays, and the token in progress. Its queries are functions that read the object. They decide which quoting mode a character opens (three-, then two-, then one-character delimiters), whether it closes the current mode (with the backslash veto), whether it begins or extends an operator, and how comments begin and end. Its updates are methods with `modifies` frames. They cover escape enter/restore, position advance, trimming the last character and finalizing a token. The object invariant `Valid()` says two things. The previous position never lies after the current one. The only mode an escape overlays is DOUBLE, so leaving an escape never lands in ESCAPE.
- **The function-name rule** on the finished token stream. It is the pure function `FunctionNameRule.FunctionName` over `seq<Token>`. The depth-2 look-ahead is written as indices `i+1` and `i+2`. A token that may start a simple command, is a WORD, and is directly followed by `(` and `)` is retyped to NAME. It keeps its value and location.
- **The single-quote reducer** of the reducer tokenizer. `SingleQuotingReducer.Step` is the pure part: the reduction returned once a character (or nothing) has been taken. `SingleQuotingReducer.Reduce` is the whole call. It shifts the head off a `CharSource` object in place, as `source.shift()` does, and then steps. `SingleQuotingReducer.Run` iterates the reducer while it hands control back to itself. The lemmas about `Run` cover two cases. A quote-free source is appended verbatim and ends in the continuation marker. A `'` returns control to the start reducer and leaves the rest of the source unread.

Three points where the code's behaviour is easy to misread; the model follows the code:

- `canCloseCurrentQuoting` looks only one character behind the close for a backslash (two for the `))` close). It does not also check for a doubled backslash before that.
- The backslash veto applies in every mode that has a close, SINGLE included. So in this class `\'` does not close single quotes. The single-quote reducer, in contrast, has no escapes at all.
- Inside an escape, `setEscaping` always records DOUBLE as the mode to restore, whatever mode was active before.

Modelling devices:

- The character iterator is the field `history` (the characters it has consumed). The driver that advances it, which is not part of this model, assigns this field. `Behind(n)` is `None` when fewer than n characters were consumed. A missing character never matches a delimiter or close sequence, which is what the JavaScript string concatenation with `undefined` amounts to for every key involved.
- The operator table is the constant set `operators`, given to the constructor.
- Tokens are one record (`Tokens.Token`). The helpers of the token utility module (`mkToken`, `changeTokenType`, `appendTo`, `setValue`, `tokenOrEmpty`, `continueToken`) and the reducer state's `appendChar` are minimal stand-ins in module `Tokens`. Their definitions are not part of this model. The lemmas are stated in terms of these stand-ins.
- `Object.freeze` is the boolean `frozen`. The `_ = {}` bookkeeping is modelled as clearing the `maybeStartOfSimpleCommand` flag when a token is frozen for the first time.

## Model

| member | source | states |
|---|---|---|
| TokenDelimiter.Close | src/modes/posix/token-delimiter-state.js:6-15 | exactly NO and ESCAPE have no close sequence; every close is one character except ARITHMETIC's two |
| TokenDelimiter.Delimiter | src/modes/posix/token-delimiter-state.js:17-25 | only delimiter spellings of one to three characters open a mode, never NO; `$((` is the only three-character one |
| TokenDelimiter.TokenDelimiterState.constructor | src/modes/posix/token-delimiter-state.js:35-45 | a new state is at position (0,0) with previous position (0,0), no comment, quoting NO, no overlaid mode and an EMPTY token at (0,0) |
| TokenDelimiter.TokenDelimiterState.Behind | src/modes/posix/token-delimiter-state.js:233-234 | `behind(n)` exists exactly when n characters have been consumed and is the n-th last of them |
| TokenDelimiter.TokenDelimiterState.QuotingCharacter | src/modes/posix/token-delimiter-state.js:232-239 | per mode, when a character opens it: ARITHMETIC after `$(` on `(` (preferred over COMMAND), COMMAND after `$` on `(`, PARAMETER after `$` on `{`, ESCAPE/SINGLE/DOUBLE/BACKTICK_COMMAND on `\`, `'`, `"`, backtick, each regardless of look-behind; never NO |
| TokenDelimiter.TokenDelimiterState.IsArithmeticExpansionStart | src/modes/posix/token-delimiter-state.js:47-49 | holds exactly when the character completes `$((` |
| TokenDelimiter.TokenDelimiterState.IsQuoting | src/modes/posix/token-delimiter-state.js:101-103 | in a quoting mode there is a close sequence unless it is ESCAPE; outside quoting there is no close sequence and no character can close |
| TokenDelimiter.TokenDelimiterState.CanStartComment | src/modes/posix/token-delimiter-state.js:66-68 | a comment-starting `#` never begins an operator and never opens quoting |
| TokenDelimiter.TokenDelimiterState.IsQuotingWord | src/modes/posix/token-delimiter-state.js:109-111 | word quoting (SINGLE or DOUBLE) is quoting with a one-character close |
| TokenDelimiter.TokenDelimiterState.IsQuotingDouble | src/modes/posix/token-delimiter-state.js:105-107 | double quoting is word quoting |
| TokenDelimiter.TokenDelimiterState.IsEscaping | src/modes/posix/token-delimiter-state.js:131-133 | escaping is a quoting mode without a close sequence |
| TokenDelimiter.TokenDelimiterState.IsExpandingCommand | src/modes/posix/token-delimiter-state.js:62-64 | command expansion is quoting, not word quoting, closed by `)` |
| TokenDelimiter.TokenDelimiterState.CanStartQuoting | src/modes/posix/token-delimiter-state.js:86-88 | quoting can start only in mode NO (no nesting along this path), and in NO exactly when some delimiter matches |
| TokenDelimiter.TokenDelimiterState.CanCloseCurrentQuoting | src/modes/posix/token-delimiter-state.js:94-99 | never in NO or ESCAPE; for ARITHMETIC exactly when the previous character and this one are `))` and the one before is not a backslash; for the one-character closes exactly when the character is the close and the previous one is not a backslash |
| TokenDelimiter.TokenDelimiterState.IsOperatorStart | src/modes/posix/token-delimiter-state.js:241-244 | holds exactly when the character is one of the eight operator-start characters `(`, `)`, pipe, `&`, `!`, `;`, `<`, `>` and the previous character is not `$` |
| TokenDelimiter.TokenDelimiterState.CanAppendToOperator | src/modes/posix/token-delimiter-state.js:190-193 | requires mode NO and an operator token whose text extended by the character is a recognized operator; in that situation, exactly then |
| TokenDelimiter.TokenDelimiterState.CanEndComment | src/modes/posix/token-delimiter-state.js:70-72 | only inside a comment, and there exactly on a newline |
| TokenDelimiter.TokenDelimiterState.CanContinueComment | src/modes/posix/token-delimiter-state.js:74-76 | only inside a comment, and there exactly on a non-newline |
| TokenDelimiter.TokenDelimiterState.CurrentTokenIsOperatorPart | src/modes/posix/token-delimiter-state.js:208-210 | the token is an operator with some text |
| TokenDelimiter.TokenDelimiterState.CurrentTokenIsEmpty | src/modes/posix/token-delimiter-state.js:212-214 | the token is EMPTY or a generic token without text; for a generic token, exactly when it has no text |
| TokenDelimiter.TokenDelimiterState.CurrentTokenIsGeneric | src/modes/posix/token-delimiter-state.js:216-218 | the token is generic with text; for a generic token, exactly when it is not empty |
| TokenDelimiter.TokenDelimiterState.CurrentTokenIsCompleteOperator | src/modes/posix/token-delimiter-state.js:220-222 | the token is an operator whose text is a recognized operator |
| TokenDelimiter.TokenDelimiterState.StartComment | src/modes/posix/token-delimiter-state.js:78-80 | sets the comment flag |
| TokenDelimiter.TokenDelimiterState.EndComment | src/modes/posix/token-delimiter-state.js:82-84 | clears the comment flag |
| TokenDelimiter.TokenDelimiterState.SetCurrentQuoting | src/modes/posix/token-delimiter-state.js:90-92 | the mode becomes the one the character opens, never NO |
| TokenDelimiter.TokenDelimiterState.ResetQuoting | src/modes/posix/token-delimiter-state.js:113-115 | the mode becomes NO |
| TokenDelimiter.TokenDelimiterState.SetArithmeticQuoting | src/modes/posix/token-delimiter-state.js:117-119 | the mode becomes ARITHMETIC |
| TokenDelimiter.TokenDelimiterState.SetEscaping | src/modes/posix/token-delimiter-state.js:121-124 | the mode becomes ESCAPE and the mode to restore is DOUBLE; the invariant is kept |
| TokenDelimiter.TokenDelimiterState.ResetEscaping | src/modes/posix/token-delimiter-state.js:126-129 | the mode becomes the remembered one, or NO if none; the remembered mode is cleared; the result is never ESCAPE |
| TokenDelimiter.TokenDelimiterState.SetOperatorToken | src/modes/posix/token-delimiter-state.js:135-141 | the token becomes a fresh OPERATOR with the given text at the current position |
| TokenDelimiter.TokenDelimiterState.SetNewLineToken | src/modes/posix/token-delimiter-state.js:143-149 | the token becomes a fresh NEWLINE with text `\n` at the current position |
| TokenDelimiter.TokenDelimiterState.SetGenericToken | src/modes/posix/token-delimiter-state.js:151-157 | the token becomes a fresh generic token with the given text at the current position |
| TokenDelimiter.TokenDelimiterState.SetEmptyToken | src/modes/posix/token-delimiter-state.js:159-165 | the token becomes a fresh EMPTY token at the current position |
| TokenDelimiter.TokenDelimiterState.SetEOFToken | src/modes/posix/token-delimiter-state.js:167-173 | the token becomes a fresh EOF token at the previous position |
| TokenDelimiter.TokenDelimiterState.SavePreviousLoc | src/modes/posix/token-delimiter-state.js:175-178 | the previous position becomes the current one |
| TokenDelimiter.TokenDelimiterState.AdvanceLoc | src/modes/posix/token-delimiter-state.js:180-188 | the previous position is the old position; a newline moves to the next line at column 0, any other character one column right; the position strictly advances |
| TokenDelimiter.TokenDelimiterState.AppendToOperator | src/modes/posix/token-delimiter-state.js:224-226 | the token text is extended by the character; if the character could be appended, the token is still a complete operator |
| TokenDelimiter.TokenDelimiterState.AppendToGenericToken | src/modes/posix/token-delimiter-state.js:228-230 | the token text is extended by the character; a generic token becomes non-empty |
| TokenDelimiter.TokenDelimiterState.RemovingLastChar | src/modes/posix/token-delimiter-state.js:51-60 | a generic token with text loses exactly its last character and becomes EMPTY at the current position when none is left; any other token is unchanged |
| TokenDelimiter.TokenDelimiterState.FinalizeCurrentToken | src/modes/posix/token-delimiter-state.js:195-206 | the end position becomes the previous position, the token is frozen and returned; type, text and start are unchanged; a token frozen for the first time loses its flags |
| TokenDelimiter.OperatorStartMeetsQuotingOnlyInArithmetic | src/modes/posix/token-delimiter-state.js:232-244 | a character both begins an operator and opens quoting exactly when it is the second `(` of `$((` |
| TokenDelimiter.DollarParenOpensCommand | src/modes/posix/token-delimiter-state.js:232-244 | after `$`, `(` is not an operator start and opens COMMAND |
| TokenDelimiter.EscapedCloseIsVetoed | src/modes/posix/token-delimiter-state.js:94-99 | right after a backslash, no mode can be closed: a backslash never completes `))` either |
| TokenDelimiter.CommentCharacterEndsOrContinues | src/modes/posix/token-delimiter-state.js:70-76 | inside a comment every character either ends it (exactly a newline) or continues it, never both; outside a comment neither |
| TokenDelimiter.EscapeRoundTrip | src/modes/posix/token-delimiter-state.js:121-129 | entering then leaving an escape yields DOUBLE with no remembered mode |
| FunctionNameRule.Ahead | src/modes/posix/rules/function-name.js:17-19 | `ahead(n)` exists exactly when the stream has a token n places further on, and is that token |
| FunctionNameRule.Retype | src/modes/posix/rules/function-name.js:14-24 | the callback returns the token or its NAME copy, always with the same value and location; it retypes only flagged WORD tokens that have two look-ahead tokens |
| FunctionNameRule.FunctionName | src/modes/posix/rules/function-name.js:8-25 | same length and order; token i changes exactly when it is flagged, a WORD, and followed by OPEN_PAREN and CLOSE_PAREN; a changed token differs only in being NAME; values and locations are kept; non-WORD tokens and the last two tokens never change |
| FunctionNameRule.FunctionNameIdempotent | src/modes/posix/rules/function-name.js:14-24 | applying the rule twice equals applying it once |
| SingleQuotingReducer.CharSource.Shift | src/modes/posix/tokenizer/reducers/single-quoting.js:11 | a non-empty source loses exactly its first character, which is returned; an empty source gives nothing |
| SingleQuotingReducer.Step | src/modes/posix/tokenizer/reducers/single-quoting.js:11-31 | on exhaustion: the state unchanged, no next reducer, the pending token and the `'` continuation marker; otherwise the character is appended verbatim and nothing emitted; `'` returns to start, any other character stays in single quotes |
| SingleQuotingReducer.Reduce | src/modes/posix/tokenizer/reducers/single-quoting.js:8-32 | an undefined (here `null`) or empty source steps on nothing; otherwise exactly the first character is shifted off and stepped on |
| SingleQuotingReducer.Run | src/modes/posix/tokenizer/reducers/single-quoting.js:13-31 | repeated steps stop outside single quotes, leave a suffix of the source unread and append exactly the prefix read, verbatim; a run that returns to start emits nothing |
| SingleQuotingReducer.QuoteFreeSourceIsAppendedVerbatim | src/modes/posix/tokenizer/reducers/single-quoting.js:13-31 | a source with no `'` is appended verbatim, then the pending token and the continuation marker are emitted and nothing is left |
| SingleQuotingReducer.ClosingQuoteReturnsToStart | src/modes/posix/tokenizer/reducers/single-quoting.js:21-31 | a quote-free prefix and the closing `'` are appended, nothing is emitted, control returns to start and the rest of the source is left |

## Left out

- The character iterator itself (`charIterator`) and the driver loops of both tokenizers are not part of this model. Only the look-behind contract is used, through the field `history`.
- The operator table `./enums/operators` and `has-own-property` are not part of this model. The operator set is an abstract constant.
- The token utility module `utils/tokens` is not part of this model. Its helpers are stand-ins, and `appendTo` is taken to extend the value of any token kind.
- The start reducer is not part of this model. It appears only as the label `Start`.
- `compose-function`, `map-iterable` and `iterable-lookahead` are lazy-iteration plumbing. They are replaced by index-based look-ahead over a finite sequence.
- `Object.freeze` is reduced to a `frozen` flag. Mutation of frozen objects and of shared `loc` objects (aliasing) is not modelled.
- TokenDelimiter.TokenDelimiterState.SetCurrentQuoting: requires that the character opens a mode. The source would store `undefined` as the mode otherwise, and the model has no such mode.
- SingleQuotingReducer.Reduce: the model's `null` source stands for an undefined source. A JavaScript `null` source would make `source && source.shift()` yield `null`, which is not `undefined`, so the source would append it and stay in single quotes; that case is not modelled.
- JavaScript strings are modelled as `seq<char>`, one element per character. UTF-16 code units and surrogate pairs are not modelled.
- TokenDelimiter.TokenDelimiterState.RemovingLastChar: drops one `char` of the value. `slice(0, -1)` drops one UTF-16 code unit, which differs for a value ending in a surrogate pair.
- SingleQuotingReducer.Step: a missing `tokensToEmit` property is written as the empty sequence.
