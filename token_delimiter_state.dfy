/**
 The scanner context of the class-based POSIX tokenizer: position, comment
 flag, quoting mode and the token in progress, with the queries that decide
 where quoting opens and closes, where operators start and how far they extend.

 The character iterator the source reads look-behind from is represented by
 `history`, the characters it has consumed so far (the driver that advances
 the iterator assigns it); the operator table is the constant `operators`.
 */
module TokenDelimiter {
  import opened Options
  import opened Tokens

  /** The eight values of QUOTING. */
  datatype Quoting = NO | ESCAPE | SINGLE | DOUBLE | PARAMETER | BACKTICK_COMMAND | COMMAND | ARITHMETIC

  /** The `close` sequence of each quoting mode; NO and ESCAPE have none. */
  function Close(q: Quoting): (s: Option<string>)
    ensures s.Some? <==> q != NO && q != ESCAPE
    ensures s.Some? ==> 1 <= |s.value| <= 2 && (|s.value| == 2 <==> q == ARITHMETIC)
  {
    match q
    case NO => None
    case ESCAPE => None
    case SINGLE => Some("'")
    case DOUBLE => Some("\"")
    case PARAMETER => Some("}")
    case BACKTICK_COMMAND => Some("`")
    case COMMAND => Some(")")
    case ARITHMETIC => Some("))")
  }

  /** QUOTING_DELIM: the quoting mode a delimiter spelling opens, if any. */
  function Delimiter(s: string): (q: Option<Quoting>)
    ensures q.Some? ==> 1 <= |s| <= 3 && q != Some(NO)
    ensures |s| == 3 ==> (q.Some? <==> s == "$((")
  {
    if s == "\\" then Some(ESCAPE)
    else if s == "'" then Some(SINGLE)
    else if s == "\"" then Some(DOUBLE)
    else if s == "`" then Some(BACKTICK_COMMAND)
    else if s == "${" then Some(PARAMETER)
    else if s == "$(" then Some(COMMAND)
    else if s == "$((" then Some(ARITHMETIC)
    else None
  }

  /** The characters that may begin an operator. */
  const OperatorStarts: string := "()|&!;<>"

  /** Position (l1, c1) is not after (l2, c2). */
  predicate PosLe(l1: nat, c1: nat, l2: nat, c2: nat) {
    l1 < l2 || (l1 == l2 && c1 <= c2)
  }

  class TokenDelimiterState {
    /** The characters the shared character iterator has consumed, oldest first. */
    var history: seq<char>
    /** The recognized operator spellings. */
    const operators: set<string>

    var lineNumber: nat
    var columnNumber: nat
    var prevLineNumber: nat
    var prevColumnNumber: nat
    var isComment: bool
    var quoting: Quoting
    var prevQuoting: Option<Quoting>
    var token: Token

    /**
     The previous position never lies after the current one, and the only mode
     an escape ever overlays is DOUBLE (so leaving an escape never lands in ESCAPE).
     */
    ghost predicate Valid()
      reads this
    {
      && PosLe(prevLineNumber, prevColumnNumber, lineNumber, columnNumber)
      && (prevQuoting == None || prevQuoting == Some(DOUBLE))
    }

    constructor (history: seq<char>, operators: set<string>)
      ensures Valid()
      ensures this.history == history && this.operators == operators
      ensures lineNumber == 0 && columnNumber == 0 && prevLineNumber == 0 && prevColumnNumber == 0
      ensures !isComment && quoting == NO && prevQuoting == None
      ensures token == MkToken(EMPTY, "", 0, 0)
    {
      this.history := history;
      this.operators := operators;
      lineNumber, columnNumber := 0, 0;
      prevLineNumber, prevColumnNumber := 0, 0;
      isComment := false;
      quoting := NO;
      prevQuoting := None;
      token := MkToken(EMPTY, "", 0, 0);
    }

    /** `charIterator.behind(n)`: the character consumed n steps ago, if there is one. */
    function Behind(n: nat): (c: Option<char>)
      reads this
      ensures c.Some? <==> 0 < n <= |history|
      ensures c.Some? ==> c.value == history[|history| - n]
    {
      if 0 < n <= |history| then Some(history[|history| - n]) else None
    }

    /**
     The quoting mode that `ch` opens, trying the three-character delimiter
     (two look-behind characters and `ch`), then the two-character one, then
     `ch` alone. Stated per mode, this is what each mode needs.
     */
    function QuotingCharacter(ch: char): (q: Option<Quoting>)
      reads this
      ensures q == Some(ARITHMETIC) <==> Behind(2) == Some('$') && Behind(1) == Some('(') && ch == '('
      ensures q == Some(COMMAND) <==> Behind(1) == Some('$') && ch == '('
      ensures q == Some(PARAMETER) <==> Behind(1) == Some('$') && ch == '{'
      ensures q == Some(ESCAPE) <==> ch == '\\'
      ensures q == Some(SINGLE) <==> ch == '\''
      ensures q == Some(DOUBLE) <==> ch == '"'
      ensures q == Some(BACKTICK_COMMAND) <==> ch == '`'
      ensures q != Some(NO)
    {
      var lastCh := Behind(1);
      var penultCh := Behind(2);
      var three := if penultCh.Some? && lastCh.Some? then Delimiter([penultCh.value, lastCh.value, ch]) else None;
      var two := if lastCh.Some? then Delimiter([lastCh.value, ch]) else None;
      if three.Some? then three else if two.Some? then two else Delimiter([ch])
    }

    /** `$((` is being completed by `ch`. */
    function IsArithmeticExpansionStart(ch: char): (r: bool)
      reads this
      ensures r <==> Behind(2) == Some('$') && Behind(1) == Some('(') && ch == '('
    {
      QuotingCharacter(ch) == Some(ARITHMETIC)
    }

    /** Some quoting mode is active; only then is there anything to close. */
    function IsQuoting(): (r: bool)
      reads this
      ensures r ==> quoting == ESCAPE || Close(quoting).Some?
      ensures !r ==> Close(quoting).None? && forall ch :: !CanCloseCurrentQuoting(ch)
    {
      quoting != NO
    }

    /** `#` may start a comment, whatever the state; it never begins an operator or opens quoting. */
    function CanStartComment(ch: char): (r: bool)
      reads this
      ensures r ==> !IsOperatorStart(ch) && QuotingCharacter(ch).None?
    {
      ch == '#'
    }

    /** Single or double quotes: the quoting modes that form words. */
    function IsQuotingWord(): (r: bool)
      reads this
      ensures r ==> IsQuoting() && Close(quoting).Some? && |Close(quoting).value| == 1
    {
      quoting == SINGLE || quoting == DOUBLE
    }

    function IsQuotingDouble(): (r: bool)
      reads this
      ensures r ==> IsQuotingWord()
    {
      quoting == DOUBLE
    }

    function IsEscaping(): (r: bool)
      reads this
      ensures r ==> IsQuoting() && Close(quoting).None?
    {
      quoting == ESCAPE
    }

    function IsExpandingCommand(): (r: bool)
      reads this
      ensures r ==> IsQuoting() && !IsQuotingWord() && Close(quoting) == Some(")")
    {
      quoting == COMMAND
    }

    /** Quoting opens only from mode NO: quoting never nests along this path. */
    function CanStartQuoting(ch: char): (r: bool)
      reads this
      ensures r ==> !IsQuoting()
      ensures quoting == NO ==> (r <==> QuotingCharacter(ch).Some?)
    {
      QuotingCharacter(ch).Some? && !IsQuoting()
    }

    /**
     `ch` closes the current mode: either it is the one-character close and the
     character before it is not a backslash, or it completes the two-character
     close with the character before it and the one before that is not a backslash.
     */
    function CanCloseCurrentQuoting(ch: char): (r: bool)
      reads this
      ensures quoting == NO || quoting == ESCAPE ==> !r
      ensures quoting == ARITHMETIC ==>
        (r <==> Behind(1) == Some(')') && ch == ')' && Behind(2) != Some('\\'))
      ensures quoting in {SINGLE, DOUBLE, PARAMETER, BACKTICK_COMMAND, COMMAND} ==>
        (r <==> Close(quoting) == Some([ch]) && Behind(1) != Some('\\'))
    {
      var lastCh := Behind(1);
      var penultCh := Behind(2);
      (Close(quoting) == Some([ch]) && lastCh != Some('\\'))
      || (lastCh.Some? && Close(quoting) == Some([lastCh.value, ch]) && penultCh != Some('\\'))
    }

    /** `ch` may begin an operator: one of `()|&!;<>`, not right after a `$`. */
    function IsOperatorStart(ch: char): (r: bool)
      reads this
      ensures r <==> (ch == '(' || ch == ')' || ch == '|' || ch == '&' || ch == '!' || ch == ';' || ch == '<' || ch == '>')
                     && Behind(1) != Some('$')
    {
      Behind(1) != Some('$') && ch in OperatorStarts
    }

    /** Appending `ch` keeps the operator token a recognized operator (greedy longest match). */
    function CanAppendToOperator(ch: char): (r: bool)
      reads this
      ensures r ==> quoting == NO && token.kind == OPERATOR && token.value + [ch] in operators
      ensures quoting == NO && token.kind == OPERATOR ==> (r <==> token.value + [ch] in operators)
    {
      quoting == NO && token.kind == OPERATOR && token.value + [ch] in operators
    }

    function CanEndComment(ch: char): (r: bool)
      reads this
      ensures r ==> isComment && ch == '\n'
      ensures isComment ==> (r <==> ch == '\n')
    {
      isComment && ch == '\n'
    }

    function CanContinueComment(ch: char): (r: bool)
      reads this
      ensures r ==> isComment && ch != '\n'
      ensures isComment ==> (r <==> ch != '\n')
    {
      isComment && ch != '\n'
    }

    /** The token in progress is an operator with some text. */
    function CurrentTokenIsOperatorPart(): (r: bool)
      reads this
      ensures r ==> token.kind == OPERATOR && |token.value| > 0
    {
      token.kind == OPERATOR && token.value != ""
    }

    /** No token has started, or a generic token has no text yet. */
    function CurrentTokenIsEmpty(): (r: bool)
      reads this
      ensures r ==> token.kind == EMPTY || (token.kind == TOKEN && |token.value| == 0)
      ensures token.kind == TOKEN ==> (r <==> |token.value| == 0)
    {
      token.kind == EMPTY || (token.kind == TOKEN && token.value == "")
    }

    /** A generic (word) token with some text is in progress. */
    function CurrentTokenIsGeneric(): (r: bool)
      reads this
      ensures r ==> token.kind == TOKEN && |token.value| > 0
      ensures token.kind == TOKEN ==> (r <==> !CurrentTokenIsEmpty())
    {
      token.kind == TOKEN && token.value != ""
    }

    function CurrentTokenIsCompleteOperator(): (r: bool)
      reads this
      ensures r ==> token.kind == OPERATOR && token.value in operators
    {
      token.kind == OPERATOR && token.value in operators
    }

    method StartComment()
      modifies this`isComment
      ensures isComment
    {
      isComment := true;
    }

    method EndComment()
      modifies this`isComment
      ensures !isComment
    {
      isComment := false;
    }

    method SetCurrentQuoting(ch: char)
      requires QuotingCharacter(ch).Some?
      modifies this`quoting
      ensures Some(quoting) == old(QuotingCharacter(ch))
      ensures quoting != NO
    {
      quoting := QuotingCharacter(ch).value;
    }

    method ResetQuoting()
      modifies this`quoting
      ensures quoting == NO
    {
      quoting := NO;
    }

    method SetArithmeticQuoting()
      modifies this`quoting
      ensures quoting == ARITHMETIC
    {
      quoting := ARITHMETIC;
    }

    /** Enter an escape; the mode to restore afterwards is always DOUBLE. */
    method SetEscaping()
      requires Valid()
      modifies this`quoting, this`prevQuoting
      ensures Valid()
      ensures quoting == ESCAPE && prevQuoting == Some(DOUBLE)
    {
      quoting := ESCAPE;
      prevQuoting := Some(DOUBLE);
    }

    /** Leave an escape: restore the remembered mode (or NO) and forget it. */
    method ResetEscaping()
      requires Valid()
      modifies this`quoting, this`prevQuoting
      ensures Valid()
      ensures quoting == (if old(prevQuoting).Some? then old(prevQuoting).value else NO)
      ensures prevQuoting == None
      ensures quoting != ESCAPE
    {
      quoting := if prevQuoting.Some? then prevQuoting.value else NO;
      prevQuoting := None;
    }

    method SetOperatorToken(text: string)
      modifies this`token
      ensures token == MkToken(OPERATOR, text, lineNumber, columnNumber)
    {
      token := MkToken(OPERATOR, text, lineNumber, columnNumber);
    }

    method SetNewLineToken()
      modifies this`token
      ensures token == MkToken(NEWLINE, "\n", lineNumber, columnNumber)
    {
      token := MkToken(NEWLINE, "\n", lineNumber, columnNumber);
    }

    method SetGenericToken(text: string)
      modifies this`token
      ensures token == MkToken(TOKEN, text, lineNumber, columnNumber)
    {
      token := MkToken(TOKEN, text, lineNumber, columnNumber);
    }

    method SetEmptyToken()
      modifies this`token
      ensures token == MkToken(EMPTY, "", lineNumber, columnNumber)
    {
      token := MkToken(EMPTY, "", lineNumber, columnNumber);
    }

    /** The EOF token sits at the position before the last advance. */
    method SetEOFToken()
      modifies this`token
      ensures token == MkToken(EOF, "", prevLineNumber, prevColumnNumber)
    {
      token := MkToken(EOF, "", prevLineNumber, prevColumnNumber);
    }

    method SavePreviousLoc()
      requires Valid()
      modifies this`prevLineNumber, this`prevColumnNumber
      ensures Valid()
      ensures prevLineNumber == lineNumber && prevColumnNumber == columnNumber
    {
      prevLineNumber := lineNumber;
      prevColumnNumber := columnNumber;
    }

    /**
     Move past `ch`: a newline starts the next line at column 0, any other
     character moves one column right; the old position becomes the previous one.
     */
    method AdvanceLoc(ch: char)
      requires Valid()
      modifies this`lineNumber, this`columnNumber, this`prevLineNumber, this`prevColumnNumber
      ensures Valid()
      ensures prevLineNumber == old(lineNumber) && prevColumnNumber == old(columnNumber)
      ensures ch == '\n' ==> lineNumber == old(lineNumber) + 1 && columnNumber == 0
      ensures ch != '\n' ==> lineNumber == old(lineNumber) && columnNumber == old(columnNumber) + 1
      ensures PosLe(prevLineNumber, prevColumnNumber, lineNumber, columnNumber)
      ensures (prevLineNumber, prevColumnNumber) != (lineNumber, columnNumber)
    {
      SavePreviousLoc();
      if ch == '\n' {
        lineNumber := lineNumber + 1;
        columnNumber := 0;
      } else {
        columnNumber := columnNumber + 1;
      }
    }

    /** Extend the operator token; a `CanAppendToOperator` character keeps it a complete operator. */
    method AppendToOperator(ch: char)
      modifies this`token
      ensures token == old(token).(value := old(token).value + [ch])
      ensures old(CanAppendToOperator(ch)) ==> CurrentTokenIsCompleteOperator()
    {
      token := token.(value := token.value + [ch]);
    }

    method AppendToGenericToken(ch: char)
      modifies this`token
      ensures token == old(token).(value := old(token).value + [ch])
      ensures old(token).kind == TOKEN ==> CurrentTokenIsGeneric()
    {
      token := token.(value := token.value + [ch]);
    }

    /**
     Drop the last character of a generic token; a generic token left without
     text becomes an EMPTY token at the current position. Other tokens are kept.
     */
    method RemovingLastChar()
      modifies this`token
      ensures old(CurrentTokenIsGeneric()) && |old(token).value| > 1 ==>
        token == old(token).(value := old(token).value[..|old(token).value| - 1])
      ensures old(CurrentTokenIsGeneric()) && |old(token).value| == 1 ==>
        token == MkToken(EMPTY, "", lineNumber, columnNumber)
      ensures !old(CurrentTokenIsGeneric()) ==> token == old(token)
      ensures old(CurrentTokenIsGeneric()) ==> old(token).value == token.value + [old(token).value[|old(token).value| - 1]]
    {
      if CurrentTokenIsGeneric() {
        token := token.(value := token.value[..|token.value| - 1]);
        if token.value == "" {
          SetEmptyToken();
        }
      }
    }

    /**
     Stamp the end position (the previous position) on the token in progress,
     freeze it (a token frozen for the first time gets a fresh, empty flag set)
     and return it. No other field changes.
     */
    method FinalizeCurrentToken() returns (tk: Token)
      modifies this`token
      ensures tk == token
      ensures token.kind == old(token).kind && token.value == old(token).value
      ensures token.loc == old(token).loc.(endLine := Some(prevLineNumber), endColumn := Some(prevColumnNumber))
      ensures token.frozen
      ensures token.maybeStartOfSimpleCommand == (old(token).frozen && old(token).maybeStartOfSimpleCommand)
    {
      token := token.(loc := token.loc.(endLine := Some(prevLineNumber), endColumn := Some(prevColumnNumber)));
      if !token.frozen {
        token := token.(maybeStartOfSimpleCommand := false, frozen := true);
      }
      tk := token;
    }
  }

  /** The only character that both begins an operator and opens quoting is the second `(` of `$((`. */
  lemma OperatorStartMeetsQuotingOnlyInArithmetic(s: TokenDelimiterState, ch: char)
    ensures s.IsOperatorStart(ch) && s.QuotingCharacter(ch).Some? <==> s.IsArithmeticExpansionStart(ch)
  {
  }

  /** After `$`, a `(` never begins an operator: it opens command substitution. */
  lemma DollarParenOpensCommand(s: TokenDelimiterState)
    requires s.Behind(1) == Some('$')
    ensures !s.IsOperatorStart('(') && s.QuotingCharacter('(') == Some(COMMAND)
  {
  }

  /** Right after a backslash no mode can close: a backslash never completes `))` either. */
  lemma EscapedCloseIsVetoed(s: TokenDelimiterState, ch: char)
    requires s.Behind(1) == Some('\\')
    ensures !s.CanCloseCurrentQuoting(ch)
  {
  }

  /**
   Inside a comment every character either ends it (a newline) or continues
   it, never both; outside a comment it does neither.
   */
  lemma CommentCharacterEndsOrContinues(s: TokenDelimiterState, ch: char)
    ensures s.isComment ==> (s.CanEndComment(ch) <==> !s.CanContinueComment(ch))
    ensures !s.isComment ==> !s.CanEndComment(ch) && !s.CanContinueComment(ch)
    ensures s.CanEndComment(ch) <==> s.isComment && ch == '\n'
  {
  }

  /** Entering and leaving an escape restores DOUBLE and forgets the overlaid mode. */
  method EscapeRoundTrip(s: TokenDelimiterState)
    requires s.Valid()
    modifies s
    ensures s.Valid()
    ensures s.quoting == DOUBLE && s.prevQuoting == None
  {
    s.SetEscaping();
    s.ResetEscaping();
  }
}
