/**
 * The derivation-rule tokenizer: a deterministic finite-state scanner that
 * turns bilingual (Latin/Cyrillic) rule text such as `if age>30 then tier=senior`
 * into typed tokens, one token per call of `GetNextToken`.
 */
module RulesLexer {
  import opened Wrappers

  /** Token kinds (the lexer's TYPE table). */
  datatype TokenType =
    | Number | Identifier | If | Then
    | Equal | Less | More | NotEqual
    | Assign | And | Eof

  /** A token: its text, and the type getNextToken assigns to that text once the scan ends. */
  datatype Token = Token(value: string) {
    function Kind(): TokenType
    {
      DeduceTokenType(value)
    }
  }

  /** Character classes (the CHAR_CLASS table); NullClass is the end of input. */
  datatype CharClass = AlphaClass | NumberClass | OperationClass | UnaryClass | NullClass | SpaceClass

  /** Scanner states (the STATE table); NoneState is the start state. */
  datatype State =
    | NoneState | OperationState | NumberState | AlphaState
    | AlphanumericState | ErrorState | EndState

  /** A group of synonymous spellings of one token kind. */
  datatype SynonymGroup = SynonymGroup(values: seq<string>, tokenType: TokenType)

  const KeyWords: seq<SynonymGroup> := [
    SynonymGroup(["if", "если", "коли", "ежели"], If),
    SynonymGroup(["then", "то", "следовательно"], Then),
    SynonymGroup(["and", "и"], And)
  ]

  const Operations: seq<SynonymGroup> := [
    SynonymGroup(["==", "equals", "equal", "равно", "равен", "является"], Equal),
    SynonymGroup(["<", "less", "меньше"], Less),
    SynonymGroup([">", "more", "больше"], More),
    SynonymGroup(["!=", "not_equal", "не_равно", "не_равен"], NotEqual),
    SynonymGroup(["=", "set", "assign", "присвоить", "будет"], Assign)
  ]

  // ---------------------------------------------------------------------
  // Character classification
  // ---------------------------------------------------------------------

  /** `\d` of a JavaScript regular expression: ASCII digits only. */
  predicate IsAsciiDigit(c: char) { '0' <= c <= '9' }

  /** Domain of ALPHA, `/[a-zа-я_]/`. */
  predicate InAlphaDomain(c: char) { 'a' <= c <= 'z' || 'а' <= c <= 'я' || c == '_' }

  /** Domain of NUMBER, `/\d|\./`. */
  predicate InNumberDomain(c: char) { IsAsciiDigit(c) || c == '.' }

  /** Domain of OPERATION, `/=|>|<|!/`. */
  predicate InOperationDomain(c: char) { c == '=' || c == '>' || c == '<' || c == '!' }

  /** Domain of UNARY, `/-/`. */
  predicate InUnaryDomain(c: char) { c == '-' }

  /** Domain of SPACE, `/\s/`: the ECMAScript WhiteSpace and LineTerminator code points. */
  predicate IsSpace(c: char)
  {
    || c == '\t' || c == '\n' || c == '\U{000B}' || c == '\U{000C}' || c == '\r' || c == ' '
    || c == '\U{00A0}' || c == '\U{1680}' || '\U{2000}' <= c <= '\U{200A}'
    || c == '\U{2028}' || c == '\U{2029}' || c == '\U{202F}' || c == '\U{205F}'
    || c == '\U{3000}' || c == '\U{FEFF}'
  }

  const KelvinSign: char := '\U{212A}'
  const CapitalIWithDot: char := '\U{0130}'

  /**
   * `String.prototype.toLowerCase` of one character, as far as it can move a
   * character into or out of a class domain: Latin and Cyrillic capitals,
   * KELVIN SIGN (lower-cases to `k`) and LATIN CAPITAL LETTER I WITH DOT
   * ABOVE (lower-cases to `i` followed by a combining dot). Every other case
   * mapping sends a character outside all domains to another one outside them.
   */
  function LowerCase(c: char): string
  {
    if 'A' <= c <= 'Z' || 'А' <= c <= 'Я' then [(c as int + 32) as char]
    else if c == KelvinSign then "k"
    else if c == CapitalIWithDot then ['i', '\U{0307}']
    else [c]
  }

  /** `RegExp.prototype.test` of a one-character-class pattern: some character of `s` is in the domain. */
  predicate Test(domain: char -> bool, s: string)
  {
    |s| > 0 && (domain(s[0]) || Test(domain, s[1..]))
  }

  /** The letters the scanner accepts, in either case. */
  predicate IsLetter(c: char)
  {
    InAlphaDomain(c) || 'A' <= c <= 'Z' || 'А' <= c <= 'Я' || c == KelvinSign || c == CapitalIWithDot
  }

  /** Lower-casing keeps a character's digits, symbols and whitespace, and makes every accepted letter an ALPHA one. */
  lemma LowerCaseDomains(c: char)
    ensures Test(InAlphaDomain, LowerCase(c)) <==> IsLetter(c)
    ensures Test(InNumberDomain, LowerCase(c)) <==> InNumberDomain(c)
    ensures Test(InOperationDomain, LowerCase(c)) <==> InOperationDomain(c)
    ensures Test(InUnaryDomain, LowerCase(c)) <==> InUnaryDomain(c)
    ensures Test(IsSpace, LowerCase(c)) <==> IsSpace(c)
  {
    var low := LowerCase(c);
    if c == CapitalIWithDot {
      forall d: char -> bool ensures Test(d, low) <==> d('i') || d('\U{0307}') {
        var tail := low[1..];
        assert low[0] == 'i' && tail == ['\U{0307}'] && tail[1..] == [];
        assert Test(d, tail) <==> d('\U{0307}');
      }
    } else {
      assert |low| == 1 && low[1..] == [];
    }
  }

  /**
   * getCharClass as the source writes it, on a character: lower-case it,
   * then take the first class, in table order, whose domain matches; no
   * class at all when none does.
   */
  function LoweredClass(c: char): Option<CharClass>
  {
    var low := LowerCase(c);
    if Test(InAlphaDomain, low) then Some(AlphaClass)
    else if Test(InNumberDomain, low) then Some(NumberClass)
    else if Test(InOperationDomain, low) then Some(OperationClass)
    else if Test(InUnaryDomain, low) then Some(UnaryClass)
    else if Test(IsSpace, low) then Some(SpaceClass)
    else None
  }

  /**
   * getCharClass: end of input is NullClass; a character goes to the first
   * class, in table order, whose domain holds it, letters of either case
   * counting as ALPHA; no class at all for any other character.
   */
  function GetCharClass(ch: Option<char>): Option<CharClass>
  {
    match ch
    case None => Some(NullClass)
    case Some(c) =>
      if IsLetter(c) then Some(AlphaClass)
      else if InNumberDomain(c) then Some(NumberClass)
      else if InOperationDomain(c) then Some(OperationClass)
      else if InUnaryDomain(c) then Some(UnaryClass)
      else if IsSpace(c) then Some(SpaceClass)
      else None
  }

  /** Classifying a character directly agrees with lower-casing it first and testing the class patterns in order. */
  lemma ClassifiesLoweredCharacter(c: char)
    ensures GetCharClass(Some(c)) == LoweredClass(c)
  {
    LowerCaseDomains(c);
  }

  // ---------------------------------------------------------------------
  // The transition table
  // ---------------------------------------------------------------------

  /** getNextState: the `(state, class) -> state` table. */
  function NextState(state: State, cls: CharClass): State
  {
    match state
    case NoneState =>
      (match cls
        case AlphaClass => AlphaState
        case NumberClass => NumberState
        case OperationClass => OperationState
        case UnaryClass => NumberState
        case NullClass => EndState
        case SpaceClass => NoneState)
    case AlphaState =>
      (match cls
        case AlphaClass => AlphaState
        case NumberClass => NumberState
        case OperationClass => EndState
        case UnaryClass => ErrorState
        case NullClass => EndState
        case SpaceClass => EndState)
    case NumberState =>
      (match cls
        case AlphaClass => ErrorState
        case NumberClass => NumberState
        case OperationClass => EndState
        case UnaryClass => ErrorState
        case NullClass => EndState
        case SpaceClass => EndState)
    case AlphanumericState =>
      (match cls
        case AlphaClass => AlphanumericState
        case NumberClass => AlphanumericState
        case OperationClass => EndState
        case UnaryClass => ErrorState
        case NullClass => EndState
        case SpaceClass => EndState)
    case OperationState =>
      (match cls
        case AlphaClass => EndState
        case NumberClass => EndState
        case OperationClass => OperationState
        case UnaryClass => EndState
        case NullClass => EndState
        case SpaceClass => EndState)
    case ErrorState => ErrorState
    case EndState => ErrorState
  }

  /**
   * What the table promises: no transition enters ALPHANUMERIC, end of
   * input ends every live token, the start state skips whitespace and ends
   * only at the end of input, and exactly these transitions fail.
   */
  lemma TransitionTable(state: State, cls: CharClass)
    ensures NextState(state, cls) == AlphanumericState ==> state == AlphanumericState
    ensures cls == NullClass ==> (NextState(state, cls) == EndState <==> state != ErrorState && state != EndState)
    ensures state == NoneState ==> (NextState(state, cls) == EndState <==> cls == NullClass)
    ensures NextState(state, cls) == ErrorState <==>
      || state == ErrorState || state == EndState
      || (state == NumberState && (cls == AlphaClass || cls == UnaryClass))
      || (state == AlphaState && cls == UnaryClass)
      || (state == AlphanumericState && cls == UnaryClass)
  {
  }

  // ---------------------------------------------------------------------
  // Token classification
  // ---------------------------------------------------------------------

  /** Some character of `s` is an ASCII digit. */
  predicate HasDigit(s: string)
  {
    exists i | 0 <= i < |s| :: IsAsciiDigit(s[i])
  }

  /** The pattern `-?\d+(\.\d+)?` matches at index `i` of `s`: its optional parts never make it fail. */
  predicate NumberPatternAt(s: string, i: nat)
  {
    || (i < |s| && IsAsciiDigit(s[i]))
    || (i + 1 < |s| && s[i] == '-' && IsAsciiDigit(s[i + 1]))
  }

  /** isNumber: the unanchored `/-?\d+(\.\d+)?/.test(value)`, a match starting anywhere. */
  predicate IsNumber(value: string)
  {
    exists i | 0 <= i < |value| :: NumberPatternAt(value, i)
  }

  /** Because the pattern is unanchored, a text is a number exactly when it contains a digit. */
  lemma IsNumberIffHasDigit(value: string)
    ensures IsNumber(value) <==> HasDigit(value)
  {
    if IsNumber(value) {
      var i :| 0 <= i < |value| && NumberPatternAt(value, i);
      if !IsAsciiDigit(value[i]) {
        assert IsAsciiDigit(value[i + 1]);
      }
    }
    if HasDigit(value) {
      var i :| 0 <= i < |value| && IsAsciiDigit(value[i]);
      assert NumberPatternAt(value, i);
    }
  }

  /** `value` is one of the spellings in some group of `groups` (exact, case-sensitive). */
  predicate Spelled(groups: seq<SynonymGroup>, value: string)
  {
    exists i | 0 <= i < |groups| :: value in groups[i].values
  }

  /** `_.find` over a synonym table: the kind of the first group that contains `value`. */
  function FindGroup(groups: seq<SynonymGroup>, value: string): (r: Option<TokenType>)
    ensures r.None? <==> !Spelled(groups, value)
    ensures r.Some? ==>
      exists i | 0 <= i < |groups| ::
        && value in groups[i].values && groups[i].tokenType == r.value
        && forall j | 0 <= j < i :: value !in groups[j].values
  {
    if |groups| == 0 then None
    else if value in groups[0].values then Some(groups[0].tokenType)
    else
      var r := FindGroup(groups[1..], value);
      assert forall i | 1 <= i < |groups| :: groups[i] == groups[1..][i - 1];
      r
  }

  /**
   * deduceTokenType: empty text is EOF; otherwise a number test, then the
   * operator table, then the keyword table, and IDENTIFIER for anything else.
   */
  function DeduceTokenType(value: string): (r: TokenType)
    ensures r == Eof <==> value == ""
    ensures r == Number <==> value != "" && HasDigit(value)
    ensures r == Identifier <==>
      value != "" && !HasDigit(value) && !Spelled(Operations, value) && !Spelled(KeyWords, value)
  {
    IsNumberIffHasDigit(value);
    if value == "" then Eof
    else if IsNumber(value) then Number
    else
      match FindGroup(Operations, value)
      case Some(t) => t
      case None =>
        match FindGroup(KeyWords, value)
        case Some(t) => t
        case None => Identifier
  }

  // ---------------------------------------------------------------------
  // Scanning one token
  // ---------------------------------------------------------------------

  /** The two errors getNextToken reports through onError. */
  datatype LexError = UnknownCharacter(ch: char) | UnrecognizedToken(value: string)

  /** The message getNextToken passes to onError. */
  function ErrorMessage(e: LexError): string
  {
    match e
    case UnknownCharacter(ch) => "Unknown character: " + [ch]
    case UnrecognizedToken(value) => "Unrecognized token:" + value
  }

  /** What one getNextToken call gives back: a token, or the error it reports (after which it returns null). */
  datatype LexResult = Produced(token: Token) | Failed(error: LexError)

  /** A LexResult together with the stream cursor after the call. */
  datatype Scan = Scan(result: LexResult, pos: nat)

  /** StringStream.poll on a text and a cursor: the character under the cursor, or nothing at the end. */
  function CharAt(text: string, pos: nat): Option<char>
  {
    if pos < |text| then Some(text[pos]) else None
  }

  /** Where the cursor rests once a token ends at `e`: past the terminator if it is whitespace, on it otherwise. */
  function PastTerminator(text: string, e: nat): nat
    requires e <= |text|
  {
    if e < |text| && IsSpace(text[e]) then e + 1 else e
  }

  /** Where the scanning loop stops: at END with the token text, or with an error. */
  datatype Stop = Ended(value: string, pos: nat) | Aborted(error: LexError, pos: nat)

  /**
   * The scanning loop of getNextToken from cursor `pos`, in state `state`,
   * having accumulated `value`: each step peeks one character, classifies it
   * and moves through the table; every step that does not reach END appends
   * the character and advances; reaching END consumes the terminator only if
   * it is whitespace.
   */
  function ScanFrom(text: string, pos: nat, state: State, value: string): (r: Stop)
    requires pos <= |text|
    ensures pos <= r.pos <= |text|
    ensures r.Ended? ==> |value| <= |r.value| && pos + |r.value| - |value| <= r.pos
    decreases |text| - pos
  {
    var ch := CharAt(text, pos);
    match GetCharClass(ch)
    case None => Aborted(UnknownCharacter(text[pos]), pos)
    case Some(cls) =>
      var next := NextState(state, cls);
      if next == ErrorState then Aborted(UnrecognizedToken(value), pos)
      else if next == EndState then Ended(value, PastTerminator(text, pos))
      else ScanFrom(text, pos + 1, next, value + [text[pos]])
  }

  /** One getNextToken call on `text` with the cursor at `pos`: the scan from the start state, its text classified. */
  function NextToken(text: string, pos: nat): (r: Scan)
    requires pos <= |text|
    ensures pos <= r.pos <= |text|
    ensures r.result.Produced? ==> pos + |r.result.token.value| <= r.pos
  {
    match ScanFrom(text, pos, NoneState, "")
    case Ended(value, q) => Scan(Produced(Token(value)), q)
    case Aborted(error, q) => Scan(Failed(error), q)
  }

  /** The tokens that successive getNextToken calls produce from `pos`, up to and including the first EOF. */
  datatype Tokenization = Tokens(tokens: seq<Token>) | Stopped(error: LexError)

  function Tokenize(text: string, pos: nat): Tokenization
    requires pos <= |text|
    decreases |text| - pos
  {
    var s := NextToken(text, pos);
    match s.result
    case Failed(e) => Stopped(e)
    case Produced(tok) =>
      if tok.Kind() == Eof then Tokens([tok])
      else
        match Tokenize(text, s.pos)
        case Stopped(e) => Stopped(e)
        case Tokens(rest) => Tokens([tok] + rest)
  }

  // ---------------------------------------------------------------------
  // The stream and the lexer objects
  // ---------------------------------------------------------------------

  /** The character stream the lexer reads: a text and a cursor. */
  class StringStream {
    const text: string
    var pos: nat

    ghost predicate Valid()
      reads this
    {
      pos <= |text|
    }

    constructor (text: string)
      ensures this.text == text && pos == 0 && Valid()
    {
      this.text := text;
      pos := 0;
    }

    /** poll: the character under the cursor, or nothing at the end; the cursor stays. */
    function Poll(): Option<char>
      reads this
      requires Valid()
    {
      CharAt(text, pos)
    }

    /** next: advances the cursor by one character. */
    method Next()
      requires Valid() && pos < |text|
      modifies this
      ensures Valid() && pos == old(pos) + 1
    {
      pos := pos + 1;
    }
  }

  class Lexer {
    const stream: StringStream

    constructor (stream: StringStream)
      ensures this.stream == stream
    {
      this.stream := stream;
    }

    /**
     * getNextToken: the next token and the new cursor are those of NextToken
     * on the old cursor. The loop runs at most once per remaining character
     * plus once for the terminator.
     */
    method GetNextToken() returns (r: LexResult, ghost iterations: nat)
      requires stream.Valid()
      modifies stream
      ensures stream.Valid()
      ensures Scan(r, stream.pos) == NextToken(stream.text, old(stream.pos))
      ensures iterations <= |stream.text| - old(stream.pos) + 1
    {
      var value := "";
      var state := NoneState;
      ghost var start := stream.pos;
      iterations := 0;
      r := Failed(UnrecognizedToken(""));
      var ch := stream.Poll();
      while state != EndState
        invariant stream.Valid() && start <= stream.pos
        invariant state != ErrorState
        invariant state != EndState ==>
          && ScanFrom(stream.text, stream.pos, state, value) == ScanFrom(stream.text, start, NoneState, "")
          && iterations == stream.pos - start
        invariant state == EndState ==>
          && Scan(r, stream.pos) == NextToken(stream.text, start)
          && iterations <= |stream.text| - start + 1
        decreases |stream.text| - stream.pos, if state == EndState then 0 else 1
      {
        ch := stream.Poll();
        var charClass := GetCharClass(ch);
        if charClass.None? {
          r := Failed(UnknownCharacter(ch.value));
          return;
        }
        state := NextState(state, charClass.value);
        iterations := iterations + 1;
        if state == ErrorState {
          r := Failed(UnrecognizedToken(value));
          return;
        }
        if state != EndState {
          value := value + [ch.value];
          stream.Next();
        } else {
          // the terminator stays in the stream unless it is whitespace
          if ch.Some? && IsSpace(ch.value) {
            stream.Next();
          }
          r := Produced(Token(value));
        }
      }
    }
  }
}
