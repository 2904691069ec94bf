/** What the scanner promises across calls: lookahead, cursor, errors, end of input, and how finished texts are classified. */
module RulesLexerProperties {
  import opened Wrappers
  import opened RulesLexer

  /** The start-state row of the table. */
  lemma StartStateRow()
    ensures NextState(NoneState, AlphaClass) == AlphaState
    ensures NextState(NoneState, NumberClass) == NumberState
    ensures NextState(NoneState, UnaryClass) == NumberState
    ensures NextState(NoneState, OperationClass) == OperationState
    ensures NextState(NoneState, SpaceClass) == NoneState
    ensures NextState(NoneState, NullClass) == EndState
  {
  }

  /**
   * A finished token's text is exactly the characters consumed from the
   * cursor up to the terminator at `e` (whitespace read in the start state
   * included).
   */
  lemma {:induction false} ScanFromText(text: string, pos: nat, state: State, value: string)
    requires pos <= |text|
    ensures var r := ScanFrom(text, pos, state, value);
      r.Ended? ==>
        var e := pos + |r.value| - |value|;
        e <= |text| && r.value == value + text[pos..e]
    decreases |text| - pos
  {
    var r := ScanFrom(text, pos, state, value);
    var cls := GetCharClass(CharAt(text, pos));
    if cls.Some? && r.Ended? {
      var next := NextState(state, cls.value);
      if next == EndState {
        assert r.value == value && text[pos..pos] == [];
      } else {
        var value' := value + [text[pos]];
        assert r == ScanFrom(text, pos + 1, next, value');
        ScanFromText(text, pos + 1, next, value');
        var e := pos + |r.value| - |value|;
        assert text[pos..e] == [text[pos]] + text[pos + 1..e];
        assert value' + text[pos + 1..e] == value + text[pos..e];
      }
    }
  }

  /** The terminator at `e` stays in the stream unless it is whitespace, when exactly that one character is consumed. */
  lemma {:induction false} ScanFromTerminator(text: string, pos: nat, state: State, value: string)
    requires pos <= |text|
    ensures var r := ScanFrom(text, pos, state, value);
      r.Ended? ==>
        var e := pos + |r.value| - |value|;
        e <= |text| && r.pos == PastTerminator(text, e)
    decreases |text| - pos
  {
    var r := ScanFrom(text, pos, state, value);
    var ch := CharAt(text, pos);
    var cls := GetCharClass(ch);
    if cls.Some? && r.Ended? {
      var next := NextState(state, cls.value);
      if next == EndState {
        assert r == Ended(value, PastTerminator(text, pos));
      } else {
        var value' := value + [text[pos]];
        assert r == ScanFrom(text, pos + 1, next, value');
        ScanFromTerminator(text, pos + 1, next, value');
        assert |value'| == |value| + 1;
      }
    }
  }

  /** For one getNextToken call: the token text is exactly the characters from the cursor up to the terminator. */
  lemma NextTokenText(text: string, pos: nat)
    requires pos <= |text|
    ensures var r := NextToken(text, pos);
      r.result.Produced? ==>
        var e := pos + |r.result.token.value|;
        e <= |text| && r.result.token.value == text[pos..e]
  {
    var scan := ScanFrom(text, pos, NoneState, "");
    if scan.Ended? {
      ScanFromText(text, pos, NoneState, "");
      var e := pos + |scan.value|;
      assert "" + text[pos..e] == text[pos..e];
    }
  }

  /** For one getNextToken call: the cursor ends past the terminator if that is whitespace, on it otherwise. */
  lemma NextTokenCursor(text: string, pos: nat)
    requires pos <= |text|
    ensures var r := NextToken(text, pos);
      r.result.Produced? ==>
        var e := pos + |r.result.token.value|;
        e <= |text| && r.pos == PastTerminator(text, e)
  {
    match ScanFrom(text, pos, NoneState, "")
    case Ended(value, q) =>
      ScanFromTerminator(text, pos, NoneState, "");
      assert NextToken(text, pos) == Scan(Produced(Token(value)), q);
    case Aborted(_, _) =>
  }

  /**
   * A scan fails only at a real character, which it does not consume: one
   * with no class, or a letter or `-` that the current token cannot take.
   */
  lemma {:induction false} ScanFromFailsAt(text: string, pos: nat, state: State, value: string)
    requires pos <= |text|
    requires state != ErrorState && state != EndState
    ensures var r := ScanFrom(text, pos, state, value);
      r.Aborted? ==>
        && r.pos < |text|
        && (r.error.UnknownCharacter? <==> GetCharClass(Some(text[r.pos])).None?)
        && (r.error.UnrecognizedToken? ==> IsLetter(text[r.pos]) || text[r.pos] == '-')
    decreases |text| - pos
  {
    var r := ScanFrom(text, pos, state, value);
    var ch := CharAt(text, pos);
    var cls := GetCharClass(ch);
    if r.Aborted? && cls.Some? {
      var next := NextState(state, cls.value);
      if next == ErrorState {
        assert cls.value == AlphaClass || cls.value == UnaryClass;
      } else {
        var value' := value + [text[pos]];
        assert r == ScanFrom(text, pos + 1, next, value');
        ScanFromFailsAt(text, pos + 1, next, value');
      }
    }
  }

  /** A failure in the middle of a token reports the token text read so far. */
  lemma {:induction false} ScanFromUnrecognizedToken(text: string, pos: nat, state: State, value: string)
    requires pos <= |text|
    ensures var r := ScanFrom(text, pos, state, value);
      r.Aborted? && r.error.UnrecognizedToken? ==> r.error.value == value + text[pos..r.pos]
    decreases |text| - pos
  {
    var r := ScanFrom(text, pos, state, value);
    var cls := GetCharClass(CharAt(text, pos));
    if r.Aborted? && r.error.UnrecognizedToken? {
      assert cls.Some?;
      var next := NextState(state, cls.value);
      if next == ErrorState {
        assert r.error.value == value && text[pos..pos] == [];
      } else {
        assert next != EndState;
        var value' := value + [text[pos]];
        assert r == ScanFrom(text, pos + 1, next, value');
        ScanFromUnrecognizedToken(text, pos + 1, next, value');
        assert value' + text[pos + 1..r.pos] == value + text[pos..r.pos];
      }
    }
  }

  /** An unknown character is reported as the character under the cursor where the scan stopped. */
  lemma {:induction false} ScanFromUnknownCharacter(text: string, pos: nat, state: State, value: string)
    requires pos <= |text|
    ensures var r := ScanFrom(text, pos, state, value);
      r.Aborted? && r.error.UnknownCharacter? ==> r.pos < |text| && r.error.ch == text[r.pos]
    decreases |text| - pos
  {
    var r := ScanFrom(text, pos, state, value);
    var cls := GetCharClass(CharAt(text, pos));
    if r.Aborted? && r.error.UnknownCharacter? && cls.Some? {
      var next := NextState(state, cls.value);
      assert next != ErrorState && next != EndState;
      var value' := value + [text[pos]];
      assert r == ScanFrom(text, pos + 1, next, value');
      ScanFromUnknownCharacter(text, pos + 1, next, value');
    }
  }

  /**
   * One getNextToken call fails only at a character it leaves in the stream:
   * an unknown one, reported as such, or a letter or `-` that the token read
   * so far cannot take, reported with that text.
   */
  lemma NextTokenFailure(text: string, pos: nat)
    requires pos <= |text|
    ensures var r := NextToken(text, pos);
      r.result.Failed? ==>
        && r.pos < |text|
        && var c := text[r.pos];
        || (GetCharClass(Some(c)).None? && r.result.error == UnknownCharacter(c))
        || ((IsLetter(c) || c == '-') && r.result.error == UnrecognizedToken(text[pos..r.pos]))
  {
    ScanFromFailsAt(text, pos, NoneState, "");
    ScanFromUnrecognizedToken(text, pos, NoneState, "");
    ScanFromUnknownCharacter(text, pos, NoneState, "");
  }

  /**
   * A getNextToken call returns EOF exactly when the cursor is at the end;
   * there it returns an empty EOF token and leaves the cursor where it is,
   * so repeated calls keep returning EOF.
   */
  lemma EofExactlyAtEnd(text: string, pos: nat)
    requires pos <= |text|
    ensures var r := NextToken(text, pos);
      r.result.Produced? && r.result.token.Kind() == Eof <==> pos == |text|
    ensures pos == |text| ==> NextToken(text, pos) == Scan(Produced(Token("")), pos)
  {
    if pos < |text| {
      var ch := CharAt(text, pos);
      assert ch == Some(text[pos]);
      var cls := GetCharClass(ch);
      if cls.Some? {
        // the start state reads any character into the token
        var next := NextState(NoneState, cls.value);
        assert next != ErrorState && next != EndState;
        var r := ScanFrom(text, pos, NoneState, "");
        assert r == ScanFrom(text, pos + 1, next, "" + [text[pos]]);
        if r.Ended? {
          assert |r.value| > 0;
        }
      }
    } else {
      assert CharAt(text, pos) == None;
      assert ScanFrom(text, pos, NoneState, "") == Ended("", pos);
    }
  }

  /** Tokenizing with the cursor at the end yields the EOF token alone. */
  lemma TokenizeAtEnd(text: string)
    ensures Tokenize(text, |text|) == Tokens([Token("")])
  {
    EofExactlyAtEnd(text, |text|);
  }

  // ---------------------------------------------------------------------
  // Token classification
  // ---------------------------------------------------------------------

  /** A digit-free operator spelling is classified as the first operator group that lists it. */
  lemma OperatorListingWins(i: nat, v: string)
    requires i < |Operations| && v in Operations[i].values && v != "" && !HasDigit(v)
    requires forall j | 0 <= j < i :: v !in Operations[j].values
    ensures DeduceTokenType(v) == Operations[i].tokenType
  {
    FindGroupFirst(Operations, i, v);
  }

  /** A digit-free keyword spelling that is no operator is classified as the first keyword group that lists it. */
  lemma KeyWordListingWins(i: nat, v: string)
    requires i < |KeyWords| && v in KeyWords[i].values && v != "" && !HasDigit(v)
    requires forall j | 0 <= j < i :: v !in KeyWords[j].values
    requires !Spelled(Operations, v)
    ensures DeduceTokenType(v) == KeyWords[i].tokenType
  {
    FindGroupFirst(KeyWords, i, v);
  }

  /** The search through a table finds the first group that lists the spelling. */
  lemma {:induction false} FindGroupFirst(groups: seq<SynonymGroup>, i: nat, v: string)
    requires i < |groups| && v in groups[i].values
    requires forall j | 0 <= j < i :: v !in groups[j].values
    ensures FindGroup(groups, v) == Some(groups[i].tokenType)
  {
    if i > 0 {
      FindGroupFirst(groups[1..], i - 1, v);
      assert forall j | 0 <= j < i - 1 :: groups[1..][j] == groups[j + 1];
    }
  }

  lemma OperationGroup0Classified()
    ensures forall v | v in Operations[0].values :: DeduceTokenType(v) == Equal
  {
    forall v | v in Operations[0].values ensures DeduceTokenType(v) == Equal {
      assert v != "" && !HasDigit(v);
      OperatorListingWins(0, v);
    }
  }

  lemma OperationGroup1Classified()
    ensures forall v | v in Operations[1].values :: DeduceTokenType(v) == Less
  {
    forall v | v in Operations[1].values ensures DeduceTokenType(v) == Less {
      assert v != "" && !HasDigit(v) && v !in Operations[0].values;
      OperatorListingWins(1, v);
    }
  }

  lemma OperationGroup2Classified()
    ensures forall v | v in Operations[2].values :: DeduceTokenType(v) == More
  {
    forall v | v in Operations[2].values ensures DeduceTokenType(v) == More {
      assert v != "" && !HasDigit(v) && v !in Operations[0].values && v !in Operations[1].values;
      OperatorListingWins(2, v);
    }
  }

  lemma OperationGroup3Classified()
    ensures forall v | v in Operations[3].values :: DeduceTokenType(v) == NotEqual
  {
    forall v | v in Operations[3].values ensures DeduceTokenType(v) == NotEqual {
      assert v != "" && !HasDigit(v) && v !in Operations[0].values && v !in Operations[1].values && v !in Operations[2].values;
      OperatorListingWins(3, v);
    }
  }

  lemma OperationGroup4Classified()
    ensures forall v | v in Operations[4].values :: DeduceTokenType(v) == Assign
  {
    forall v | v in Operations[4].values ensures DeduceTokenType(v) == Assign {
      assert v != "" && !HasDigit(v) && v !in Operations[0].values && v !in Operations[1].values && v !in Operations[2].values && v !in Operations[3].values;
      OperatorListingWins(4, v);
    }
  }

  lemma KeyWordGroup0Classified()
    ensures forall v | v in KeyWords[0].values :: DeduceTokenType(v) == If
  {
    forall v | v in KeyWords[0].values ensures DeduceTokenType(v) == If {
      assert v != "" && !HasDigit(v);
      assert !Spelled(Operations, v);
      KeyWordListingWins(0, v);
    }
  }

  lemma KeyWordGroup1Classified()
    ensures forall v | v in KeyWords[1].values :: DeduceTokenType(v) == Then
  {
    forall v | v in KeyWords[1].values ensures DeduceTokenType(v) == Then {
      assert v != "" && !HasDigit(v) && v !in KeyWords[0].values;
      assert !Spelled(Operations, v);
      KeyWordListingWins(1, v);
    }
  }

  lemma KeyWordGroup2Classified()
    ensures forall v | v in KeyWords[2].values :: DeduceTokenType(v) == And
  {
    forall v | v in KeyWords[2].values ensures DeduceTokenType(v) == And {
      assert v != "" && !HasDigit(v) && v !in KeyWords[0].values && v !in KeyWords[1].values;
      assert !Spelled(Operations, v);
      KeyWordListingWins(2, v);
    }
  }

  /**
   * The tables are unambiguous and reachable: every spelling they list is
   * classified as its own group's kind (no spelling holds a digit, none is
   * listed twice, and no keyword is also an operator).
   */
  lemma SpellingsClassified()
    ensures forall i, v | 0 <= i < |Operations| && v in Operations[i].values ::
      DeduceTokenType(v) == Operations[i].tokenType
    ensures forall i, v | 0 <= i < |KeyWords| && v in KeyWords[i].values ::
      DeduceTokenType(v) == KeyWords[i].tokenType
  {
    forall i, v | 0 <= i < |Operations| && v in Operations[i].values
      ensures DeduceTokenType(v) == Operations[i].tokenType
    {
      if i == 0 { OperationGroup0Classified(); }
      else if i == 1 { OperationGroup1Classified(); }
      else if i == 2 { OperationGroup2Classified(); }
      else if i == 3 { OperationGroup3Classified(); }
      else { OperationGroup4Classified(); }
    }
    forall i, v | 0 <= i < |KeyWords| && v in KeyWords[i].values
      ensures DeduceTokenType(v) == KeyWords[i].tokenType
    {
      if i == 0 { KeyWordGroup0Classified(); }
      else if i == 1 { KeyWordGroup1Classified(); }
      else { KeyWordGroup2Classified(); }
    }
  }

  /** Every listed spelling starts with a lower-case letter, `_` or an operator character. */
  lemma SpellingsStartInAlphabet()
    ensures forall i, v | 0 <= i < |Operations| && v in Operations[i].values ::
      |v| > 0 && (InAlphaDomain(v[0]) || InOperationDomain(v[0]))
    ensures forall i, v | 0 <= i < |KeyWords| && v in KeyWords[i].values ::
      |v| > 0 && (InAlphaDomain(v[0]) || InOperationDomain(v[0]))
  {
  }

  /** A text starting with any other character is never a keyword or an operator: it is a number or an identifier. */
  lemma UnlistedLeadingCharacter(v: string)
    requires |v| > 0 && !InAlphaDomain(v[0]) && !InOperationDomain(v[0])
    ensures DeduceTokenType(v) == (if HasDigit(v) then Number else Identifier)
  {
    SpellingsStartInAlphabet();
  }

  /**
   * Matching is exact and case-sensitive although character classes are not:
   * a capital letter scans like its lower-case form, yet a text that starts
   * with one (`If`, `Если`, `Then`) is never a keyword or an operator.
   */
  lemma CapitalisedNeverListed(v: string)
    requires |v| > 0 && ('A' <= v[0] <= 'Z' || 'А' <= v[0] <= 'Я')
    ensures GetCharClass(Some(v[0])) == Some(AlphaClass)
    ensures DeduceTokenType(v) == (if HasDigit(v) then Number else Identifier)
  {
    UnlistedLeadingCharacter(v);
  }

  /** The tables list no `>=`; a lone `-` scans in the NUMBER state but holds no digit: both are identifiers. */
  lemma UnlistedSymbols()
    ensures DeduceTokenType(">=") == Identifier
    ensures DeduceTokenType("-") == Identifier
  {
    GreaterEqualNotOperator();
    GreaterEqualNotKeyWord();
    assert !HasDigit(">=");
    UnlistedLeadingCharacter("-");
  }

  lemma GreaterEqualNotOperator()
    ensures !Spelled(Operations, ">=")
  {
    var ge := ">=";
    assert ge !in Operations[0].values && ge !in Operations[1].values && ge !in Operations[2].values;
    assert ge !in Operations[3].values && ge !in Operations[4].values;
  }

  lemma GreaterEqualNotKeyWord()
    ensures !Spelled(KeyWords, ">=")
  {
    var ge := ">=";
    assert ge !in KeyWords[0].values && ge !in KeyWords[1].values && ge !in KeyWords[2].values;
  }

  /**
   * Whitespace read in the start state is appended to the token: a token
   * that starts at a whitespace character (the second of two spaces, say)
   * keeps it, and so is never a keyword or an operator.
   */
  lemma SpaceLedToken(text: string, pos: nat)
    requires pos < |text| && IsSpace(text[pos])
    ensures var r := NextToken(text, pos);
      r.result.Produced? ==>
        && r.result.token.value != ""
        && r.result.token.value[0] == text[pos]
        && r.result.token.Kind() in {Number, Identifier}
  {
    var r := NextToken(text, pos);
    if r.result.Produced? {
      var first := [text[pos]];
      SpaceSkipsNothing(text, pos);
      ScanFromText(text, pos + 1, NoneState, first);
      var v := r.result.token.value;
      assert v[0] == text[pos];
      SpaceOutsideTables(text[pos]);
      UnlistedLeadingCharacter(v);
    }
  }

  /** In the start state, a whitespace character is read into the token like any other. */
  lemma SpaceSkipsNothing(text: string, pos: nat)
    requires pos < |text| && IsSpace(text[pos])
    ensures ScanFrom(text, pos, NoneState, "") == ScanFrom(text, pos + 1, NoneState, [text[pos]])
  {
    var ch := CharAt(text, pos);
    assert GetCharClass(ch) == Some(SpaceClass);
    assert NextState(NoneState, SpaceClass) == NoneState;
    assert "" + [text[pos]] == [text[pos]];
  }

  /** Whitespace is neither a lower-case letter nor an operator character. */
  lemma SpaceOutsideTables(c: char)
    requires IsSpace(c)
    ensures !InAlphaDomain(c) && !InOperationDomain(c)
  {
  }

  /**
   * Adjacent tokens need no separating space: `age>30` yields `age`, then
   * `>`, then `30`, then EOF, each call leaving the terminator of its token
   * for the next one.
   */
  lemma AdjacentTokens()
    ensures NextToken("age>30", 0) == Scan(Produced(Token("age")), 3)
    ensures NextToken("age>30", 3) == Scan(Produced(Token(">")), 4)
    ensures NextToken("age>30", 4) == Scan(Produced(Token("30")), 6)
    ensures NextToken("age>30", 6) == Scan(Produced(Token("")), 6)
    ensures Token("age").Kind() == Identifier && Token(">").Kind() == More && Token("30").Kind() == Number
  {
    ScanAge();
    ScanMoreSign();
    ScanThirty();
    assert ScanFrom("age>30", 6, NoneState, "") == Ended("", 6);
    AgeIsIdentifier();
    MoreSignClassified();
    assert HasDigit("30") by { assert IsAsciiDigit("30"[0]); }
  }

  /** The first call on `age>30` reads `age` and stops on `>`. */
  lemma ScanAge()
    ensures ScanFrom("age>30", 0, NoneState, "") == Ended("age", 3)
  {
    var t := "age>30";
    assert t[0] == 'a' && t[1] == 'g' && t[2] == 'e' && t[3] == '>';
    assert ScanFrom(t, 3, AlphaState, "age") == Ended("age", 3);
    assert ScanFrom(t, 2, AlphaState, "ag") == Ended("age", 3);
    assert ScanFrom(t, 1, AlphaState, "a") == Ended("age", 3);
  }

  /** The second call reads `>` and stops on `3`. */
  lemma ScanMoreSign()
    ensures ScanFrom("age>30", 3, NoneState, "") == Ended(">", 4)
  {
    var t := "age>30";
    assert t[3] == '>' && t[4] == '3';
    assert ScanFrom(t, 4, OperationState, ">") == Ended(">", 4);
  }

  /** The third call reads `30` and stops at the end of the text. */
  lemma ScanThirty()
    ensures ScanFrom("age>30", 4, NoneState, "") == Ended("30", 6)
  {
    var t := "age>30";
    assert t[4] == '3' && t[5] == '0';
    assert ScanFrom(t, 6, NumberState, "30") == Ended("30", 6);
    assert ScanFrom(t, 5, NumberState, "3") == Ended("30", 6);
  }

  /** `age` is in neither table, so it is an identifier. */
  lemma AgeIsIdentifier()
    ensures DeduceTokenType("age") == Identifier
  {
    assert !HasDigit("age");
    assert "age" !in Operations[0].values && "age" !in Operations[1].values && "age" !in Operations[2].values;
    assert "age" !in Operations[3].values && "age" !in Operations[4].values;
    assert !Spelled(Operations, "age");
    assert "age" !in KeyWords[0].values && "age" !in KeyWords[1].values && "age" !in KeyWords[2].values;
    assert !Spelled(KeyWords, "age");
  }

  /** `>` is the first spelling of MORE. */
  lemma MoreSignClassified()
    ensures DeduceTokenType(">") == More
  {
    assert !HasDigit(">");
    assert ">" !in Operations[0].values && ">" !in Operations[1].values && ">" in Operations[2].values;
    OperatorListingWins(2, ">");
  }
}