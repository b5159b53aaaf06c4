/** The COBOL recognition grammar (`CobolParser`): six token-level rules and
    the empty fallback, combined by one longest-match alternation. */
module CobolGrammar {
  import opened Tokens
  import opened Engine

  /** `program-id . <word>`; the stop is discarded. */
  function ProgramIDParts(): seq<Parser>
  {
    [Terminal(Caseless("program-id"), false, NoHook),
     Terminal(Sym("."), true, NoHook),
     Terminal(AnyWord, false, ProgramIdHook)]
  }

  function ProgramID(): Parser { Sequence(ProgramIDParts(), NoHook) }

  /** `<word> division .`; the stop is discarded. */
  function DivisionNameParts(): seq<Parser>
  {
    [Terminal(AnyWord, false, DivisionHook),
     Terminal(Caseless("division"), false, NoHook),
     Terminal(Sym("."), true, NoHook)]
  }

  function DivisionName(): Parser { Sequence(DivisionNameParts(), NoHook) }

  /** `<word> section .`; the stop is discarded. */
  function SectionNameParts(): seq<Parser>
  {
    [Terminal(AnyWord, false, SectionNameHook),
     Terminal(Caseless("section"), false, NoHook),
     Terminal(Sym("."), true, NoHook)]
  }

  function SectionName(): Parser { Sequence(SectionNameParts(), NoHook) }

  /** `date-written . <num> - <word> - <word> .`; only the literal, the number
      and the first word are kept. */
  function DateWrittenParts(): seq<Parser>
  {
    [Terminal(Caseless("date-written"), false, NoHook),
     Terminal(Sym("."), true, NoHook),
     Terminal(AnyNum, false, NoHook),
     Terminal(Sym("-"), true, NoHook),
     Terminal(AnyWord, false, NoHook),
     Terminal(Sym("-"), true, NoHook),
     Terminal(AnyWord, true, NoHook),
     Terminal(Sym("."), true, NoHook)]
  }

  function DateWritten(): Parser { Sequence(DateWrittenParts(), DateHook) }

  /** `* * * - - - <word>`; nothing is discarded. */
  function CommentLineParts(): seq<Parser>
  {
    [Terminal(Sym("*"), false, NoHook),
     Terminal(Sym("*"), false, NoHook),
     Terminal(Sym("*"), false, NoHook),
     Terminal(Sym("-"), false, NoHook),
     Terminal(Sym("-"), false, NoHook),
     Terminal(Sym("-"), false, NoHook),
     Terminal(AnyWord, false, CommentLineHook)]
  }

  function CommentLine(): Parser { Sequence(CommentLineParts(), NoHook) }

  /** `<word> .`; the stop is discarded. */
  function FunctionParts(): seq<Parser>
  {
    [Terminal(AnyWord, false, NoHook), Terminal(Sym("."), true, NoHook)]
  }

  function Function(): Parser { Sequence(FunctionParts(), FunctionHook) }

  /** The alternatives of `cobol()`, in declaration order. */
  function Rules(): seq<Parser>
  {
    [ProgramID(), DivisionName(), SectionName(), DateWritten(), CommentLine(), Function(), Empty]
  }

  function Cobol(): Parser { Alternation(Rules()) }

  /** The primary parser, `start()`. */
  function Start(): Parser { Cobol() }

  // ---------------------------------------------------------------------
  // Token shapes, stated directly on the tokens

  predicate IsKeyword(t: Token, lit: string)
  {
    t.Word? && EqualsIgnoreCase(t.text, lit)
  }

  predicate ProgramIDShape(rest: seq<Token>)
  {
    |rest| >= 3 && IsKeyword(rest[0], "program-id") && rest[1] == Symbol(".") && rest[2].Word?
  }

  predicate DivisionNameShape(rest: seq<Token>)
  {
    |rest| >= 3 && rest[0].Word? && IsKeyword(rest[1], "division") && rest[2] == Symbol(".")
  }

  predicate SectionNameShape(rest: seq<Token>)
  {
    |rest| >= 3 && rest[0].Word? && IsKeyword(rest[1], "section") && rest[2] == Symbol(".")
  }

  predicate DateWrittenShape(rest: seq<Token>)
  {
    |rest| >= 8 && IsKeyword(rest[0], "date-written") && rest[1] == Symbol(".") &&
    rest[2].Num? && rest[3] == Symbol("-") && rest[4].Word? && rest[5] == Symbol("-") &&
    rest[6].Word? && rest[7] == Symbol(".")
  }

  predicate CommentLineShape(rest: seq<Token>)
  {
    |rest| >= 7 && rest[0] == rest[1] == rest[2] == Symbol("*") &&
    rest[3] == rest[4] == rest[5] == Symbol("-") && rest[6].Word?
  }

  predicate FunctionShape(rest: seq<Token>)
  {
    |rest| >= 2 && rest[0].Word? && rest[1] == Symbol(".")
  }

  // ---------------------------------------------------------------------
  // One lemma per rule: exactly which inputs it accepts, how many tokens it
  // consumes, what it pushes and which assembler fires.

  lemma ProgramIDFits(rest: seq<Token>)
    ensures AllTerminals(ProgramIDParts())
    ensures Fits(ProgramIDParts(), rest) <==> ProgramIDShape(rest)
  {
    var ts := ProgramIDParts();
    forall i | 0 <= i < |ts| ensures ts[i].Terminal? {}
    if Fits(ts, rest) {
      assert Qualifies(ts[0].kind, rest[0]) && Qualifies(ts[1].kind, rest[1]) &&
             Qualifies(ts[2].kind, rest[2]);
    }
    if ProgramIDShape(rest) {
      forall i | 0 <= i < 3 ensures Qualifies(ts[i].kind, rest[i]) {}
    }
  }

  lemma ProgramIDHooks()
    ensures HooksFrom(ProgramIDParts(), 0, 0) + Fire(NoHook, |KeptPositions(ProgramIDParts(), 0)|) ==
      [Firing(ProgramIdHook, 2)]
  {
    assert KeptPositions(ProgramIDParts(), 0) == [0, 2];
    assert HooksFrom(ProgramIDParts(), 0, 0) == [Firing(ProgramIdHook, 2)];
  }

  lemma ProgramIDPushes(rest: seq<Token>)
    requires |rest| >= 3
    ensures Pick(rest, KeptPositions(ProgramIDParts(), 0)) == [rest[0], rest[2]]
  {
    assert KeptPositions(ProgramIDParts(), 0) == [0, 2];
    assert Pick(rest, [0, 2]) == [rest[0], rest[2]];
  }

  lemma ProgramIDMatches(rest: seq<Token>)
    ensures Parse(ProgramID(), rest) ==
      if ProgramIDShape(rest) then Some(Outcome(3, [rest[0], rest[2]], [Firing(ProgramIdHook, 2)]))
      else None
  {
    ProgramIDFits(rest);
    SequenceOfTerminals(ProgramIDParts(), NoHook, rest);
    if ProgramIDShape(rest) {
      ProgramIDPushes(rest);
      ProgramIDHooks();
    }
  }

  lemma DivisionNameFits(rest: seq<Token>)
    ensures AllTerminals(DivisionNameParts())
    ensures Fits(DivisionNameParts(), rest) <==> DivisionNameShape(rest)
  {
    var ts := DivisionNameParts();
    forall i | 0 <= i < |ts| ensures ts[i].Terminal? {}
    if Fits(ts, rest) {
      assert Qualifies(ts[0].kind, rest[0]) && Qualifies(ts[1].kind, rest[1]) &&
             Qualifies(ts[2].kind, rest[2]);
    }
    if DivisionNameShape(rest) {
      forall i | 0 <= i < 3 ensures Qualifies(ts[i].kind, rest[i]) {}
    }
  }

  lemma DivisionNameHooks()
    ensures HooksFrom(DivisionNameParts(), 0, 0) + Fire(NoHook, |KeptPositions(DivisionNameParts(), 0)|) ==
      [Firing(DivisionHook, 1)]
  {
    assert KeptPositions(DivisionNameParts(), 0) == [0, 1];
    assert HooksFrom(DivisionNameParts(), 0, 0) == [Firing(DivisionHook, 1)];
  }

  lemma DivisionNamePushes(rest: seq<Token>)
    requires |rest| >= 3
    ensures Pick(rest, KeptPositions(DivisionNameParts(), 0)) == [rest[0], rest[1]]
  {
    assert KeptPositions(DivisionNameParts(), 0) == [0, 1];
    assert Pick(rest, [0, 1]) == [rest[0], rest[1]];
  }

  lemma DivisionNameMatches(rest: seq<Token>)
    ensures Parse(DivisionName(), rest) ==
      if DivisionNameShape(rest) then Some(Outcome(3, [rest[0], rest[1]], [Firing(DivisionHook, 1)]))
      else None
  {
    DivisionNameFits(rest);
    SequenceOfTerminals(DivisionNameParts(), NoHook, rest);
    if DivisionNameShape(rest) {
      DivisionNamePushes(rest);
      DivisionNameHooks();
    }
  }

  lemma SectionNameFits(rest: seq<Token>)
    ensures AllTerminals(SectionNameParts())
    ensures Fits(SectionNameParts(), rest) <==> SectionNameShape(rest)
  {
    var ts := SectionNameParts();
    forall i | 0 <= i < |ts| ensures ts[i].Terminal? {}
    if Fits(ts, rest) {
      assert Qualifies(ts[0].kind, rest[0]) && Qualifies(ts[1].kind, rest[1]) &&
             Qualifies(ts[2].kind, rest[2]);
    }
    if SectionNameShape(rest) {
      forall i | 0 <= i < 3 ensures Qualifies(ts[i].kind, rest[i]) {}
    }
  }

  lemma SectionNameHooks()
    ensures HooksFrom(SectionNameParts(), 0, 0) + Fire(NoHook, |KeptPositions(SectionNameParts(), 0)|) ==
      [Firing(SectionNameHook, 1)]
  {
    assert KeptPositions(SectionNameParts(), 0) == [0, 1];
    assert HooksFrom(SectionNameParts(), 0, 0) == [Firing(SectionNameHook, 1)];
  }

  lemma SectionNamePushes(rest: seq<Token>)
    requires |rest| >= 3
    ensures Pick(rest, KeptPositions(SectionNameParts(), 0)) == [rest[0], rest[1]]
  {
    assert KeptPositions(SectionNameParts(), 0) == [0, 1];
    assert Pick(rest, [0, 1]) == [rest[0], rest[1]];
  }

  lemma SectionNameMatches(rest: seq<Token>)
    ensures Parse(SectionName(), rest) ==
      if SectionNameShape(rest) then Some(Outcome(3, [rest[0], rest[1]], [Firing(SectionNameHook, 1)]))
      else None
  {
    SectionNameFits(rest);
    SequenceOfTerminals(SectionNameParts(), NoHook, rest);
    if SectionNameShape(rest) {
      SectionNamePushes(rest);
      SectionNameHooks();
    }
  }

  lemma DateWrittenFits(rest: seq<Token>)
    ensures AllTerminals(DateWrittenParts())
    ensures Fits(DateWrittenParts(), rest) <==> DateWrittenShape(rest)
  {
    var ts := DateWrittenParts();
    forall i | 0 <= i < |ts| ensures ts[i].Terminal? {}
    if Fits(ts, rest) {
      assert Qualifies(ts[0].kind, rest[0]) && Qualifies(ts[1].kind, rest[1]) &&
             Qualifies(ts[2].kind, rest[2]) && Qualifies(ts[3].kind, rest[3]) &&
             Qualifies(ts[4].kind, rest[4]) && Qualifies(ts[5].kind, rest[5]) &&
             Qualifies(ts[6].kind, rest[6]) && Qualifies(ts[7].kind, rest[7]);
    }
    if DateWrittenShape(rest) {
      forall i | 0 <= i < 8 ensures Qualifies(ts[i].kind, rest[i]) {}
    }
  }

  lemma DateWrittenHooks()
    ensures HooksFrom(DateWrittenParts(), 0, 0) + Fire(DateHook, |KeptPositions(DateWrittenParts(), 0)|) ==
      [Firing(DateHook, 3)]
  {
    DateWrittenKeeps();
    var ts := DateWrittenParts();
    forall i | 0 <= i < |ts| ensures ts[i].hook == NoHook {}
    NoHooks(ts, 0, 0);
  }

  /** The DateWritten sequence keeps the keyword, the day and the month-and-year
      word: its parts 0, 2 and 4. */
  lemma DateWrittenKeeps()
    ensures KeptPositions(DateWrittenParts(), 0) == [0, 2, 4]
  {
    var ts := DateWrittenParts();
    assert KeptPositions(ts, 5) == [];
    assert KeptPositions(ts, 4) == [4];
    assert KeptPositions(ts, 2) == [2, 4];
  }

  lemma DateWrittenPushes(rest: seq<Token>)
    requires |rest| >= 8
    ensures Pick(rest, KeptPositions(DateWrittenParts(), 0)) == [rest[0], rest[2], rest[4]]
  {
    DateWrittenKeeps();
    assert Pick(rest, [0, 2, 4]) == [rest[0], rest[2], rest[4]];
  }

  lemma DateWrittenMatches(rest: seq<Token>)
    ensures Parse(DateWritten(), rest) ==
      if DateWrittenShape(rest) then Some(Outcome(8, [rest[0], rest[2], rest[4]], [Firing(DateHook, 3)]))
      else None
  {
    DateWrittenFits(rest);
    SequenceOfTerminals(DateWrittenParts(), DateHook, rest);
    if DateWrittenShape(rest) {
      DateWrittenPushes(rest);
      DateWrittenHooks();
    }
  }

  lemma CommentLineFits(rest: seq<Token>)
    ensures AllTerminals(CommentLineParts())
    ensures Fits(CommentLineParts(), rest) <==> CommentLineShape(rest)
  {
    var ts := CommentLineParts();
    forall i | 0 <= i < |ts| ensures ts[i].Terminal? {}
    if Fits(ts, rest) {
      assert Qualifies(ts[0].kind, rest[0]) && Qualifies(ts[1].kind, rest[1]) &&
             Qualifies(ts[2].kind, rest[2]) && Qualifies(ts[3].kind, rest[3]) &&
             Qualifies(ts[4].kind, rest[4]) && Qualifies(ts[5].kind, rest[5]) &&
             Qualifies(ts[6].kind, rest[6]);
    }
    if CommentLineShape(rest) {
      forall i | 0 <= i < 7 ensures Qualifies(ts[i].kind, rest[i]) {}
    }
  }

  lemma CommentLineHooks()
    ensures HooksFrom(CommentLineParts(), 0, 0) + Fire(NoHook, |KeptPositions(CommentLineParts(), 0)|) ==
      [Firing(CommentLineHook, 7)]
  {
    assert KeptPositions(CommentLineParts(), 0) == [0, 1, 2, 3, 4, 5, 6];
    assert HooksFrom(CommentLineParts(), 0, 0) == [Firing(CommentLineHook, 7)];
  }

  lemma CommentLinePushes(rest: seq<Token>)
    requires |rest| >= 7
    ensures Pick(rest, KeptPositions(CommentLineParts(), 0)) == rest[..7]
  {
    assert KeptPositions(CommentLineParts(), 0) == [0, 1, 2, 3, 4, 5, 6];
    PickPrefix(rest, [0, 1, 2, 3, 4, 5, 6]);
  }

  lemma CommentLineMatches(rest: seq<Token>)
    ensures Parse(CommentLine(), rest) ==
      if CommentLineShape(rest) then Some(Outcome(7, rest[..7], [Firing(CommentLineHook, 7)]))
      else None
  {
    CommentLineFits(rest);
    SequenceOfTerminals(CommentLineParts(), NoHook, rest);
    if CommentLineShape(rest) {
      CommentLinePushes(rest);
      CommentLineHooks();
    }
  }

  lemma FunctionFits(rest: seq<Token>)
    ensures AllTerminals(FunctionParts())
    ensures Fits(FunctionParts(), rest) <==> FunctionShape(rest)
  {
    var ts := FunctionParts();
    forall i | 0 <= i < |ts| ensures ts[i].Terminal? {}
    if Fits(ts, rest) {
      assert Qualifies(ts[0].kind, rest[0]) && Qualifies(ts[1].kind, rest[1]);
    }
    if FunctionShape(rest) {
      forall i | 0 <= i < 2 ensures Qualifies(ts[i].kind, rest[i]) {}
    }
  }

  lemma FunctionHooks()
    ensures HooksFrom(FunctionParts(), 0, 0) + Fire(FunctionHook, |KeptPositions(FunctionParts(), 0)|) ==
      [Firing(FunctionHook, 1)]
  {
    assert KeptPositions(FunctionParts(), 0) == [0];
    assert HooksFrom(FunctionParts(), 0, 0) == [];
  }

  lemma FunctionPushes(rest: seq<Token>)
    requires |rest| >= 2
    ensures Pick(rest, KeptPositions(FunctionParts(), 0)) == [rest[0]]
  {
    assert KeptPositions(FunctionParts(), 0) == [0];
    assert Pick(rest, [0]) == [rest[0]];
  }

  lemma FunctionMatches(rest: seq<Token>)
    ensures Parse(Function(), rest) ==
      if FunctionShape(rest) then Some(Outcome(2, [rest[0]], [Firing(FunctionHook, 1)]))
      else None
  {
    FunctionFits(rest);
    SequenceOfTerminals(FunctionParts(), FunctionHook, rest);
    if FunctionShape(rest) {
      FunctionPushes(rest);
      FunctionHooks();
    }
  }

  // ---------------------------------------------------------------------
  // Which rule the top-level alternation selects

  /** What `start()` recognises at the head of `rest`, stated directly on
      the token shapes. At most one of ProgramID, DivisionName, SectionName,
      DateWritten and CommentLine can match; Function also matches the inputs
      of ProgramID and DateWritten but consumes fewer tokens; Empty is the
      fallback. */
  function Recognized(rest: seq<Token>): Outcome
  {
    if ProgramIDShape(rest) then Outcome(3, [rest[0], rest[2]], [Firing(ProgramIdHook, 2)])
    else if DivisionNameShape(rest) then Outcome(3, [rest[0], rest[1]], [Firing(DivisionHook, 1)])
    else if SectionNameShape(rest) then Outcome(3, [rest[0], rest[1]], [Firing(SectionNameHook, 1)])
    else if DateWrittenShape(rest) then Outcome(8, [rest[0], rest[2], rest[4]], [Firing(DateHook, 3)])
    else if CommentLineShape(rest) then Outcome(7, rest[..7], [Firing(CommentLineHook, 7)])
    else if FunctionShape(rest) then Outcome(2, [rest[0]], [Firing(FunctionHook, 1)])
    else Outcome(0, [], [])
  }

  /** Two caseless literals of different lengths never match the same word. */
  lemma KeywordsDiffer(t: Token, a: string, b: string)
    requires |a| != |b|
    ensures !(IsKeyword(t, a) && IsKeyword(t, b))
  {
  }

  /** The outcome of `start()` as the longest-match choice among the seven
      alternatives' outcomes, in declaration order. */
  lemma StartUnfolds(rest: seq<Token>)
    ensures Parse(Start(), rest) ==
      Longer(Parse(ProgramID(), rest), Longer(Parse(DivisionName(), rest), Longer(Parse(SectionName(), rest),
        Longer(Parse(DateWritten(), rest), Longer(Parse(CommentLine(), rest), Longer(Parse(Function(), rest),
          Longer(Some(Outcome(0, [], [])), None)))))))
  {
    Alternation7(ProgramID(), DivisionName(), SectionName(), DateWritten(), CommentLine(), Function(), Empty,
                 rest);
    assert Start() == Alternation([ProgramID(), DivisionName(), SectionName(), DateWritten(), CommentLine(),
                                   Function(), Empty]);
  }

  /** On a ProgramID or DateWritten input, Function also matches but consumes
      fewer tokens, and no other rule matches. */
  lemma StartOnStopAfterKeyword(rest: seq<Token>)
    requires ProgramIDShape(rest) || DateWrittenShape(rest)
    ensures Parse(Start(), rest) == Some(Recognized(rest))
    ensures Parse(Function(), rest).Some? &&
      Parse(Function(), rest).value.consumed < Parse(Start(), rest).value.consumed
    ensures Parse(ProgramID(), rest).None? || Parse(DateWritten(), rest).None?
    ensures Parse(DivisionName(), rest).None? && Parse(SectionName(), rest).None? &&
      Parse(CommentLine(), rest).None?
  {
    StartUnfolds(rest);
    ProgramIDMatches(rest);
    DivisionNameMatches(rest);
    SectionNameMatches(rest);
    DateWrittenMatches(rest);
    CommentLineMatches(rest);
    FunctionMatches(rest);
    KeywordsDiffer(rest[0], "program-id", "date-written");
  }

  /** On a DivisionName, SectionName or CommentLine input, that rule is the
      only one of the six that matches, so `start()` returns its match. */
  lemma StartOnSoleRule(rest: seq<Token>)
    requires DivisionNameShape(rest) || SectionNameShape(rest) || CommentLineShape(rest)
    ensures Parse(Start(), rest) == Some(Recognized(rest))
    ensures Parse(ProgramID(), rest).None? && Parse(DateWritten(), rest).None? &&
      Parse(Function(), rest).None?
    ensures DivisionNameShape(rest) ==> Parse(SectionName(), rest).None? && Parse(CommentLine(), rest).None?
    ensures SectionNameShape(rest) ==> Parse(DivisionName(), rest).None? && Parse(CommentLine(), rest).None?
    ensures CommentLineShape(rest) ==> Parse(DivisionName(), rest).None? && Parse(SectionName(), rest).None?
  {
    StartUnfolds(rest);
    ProgramIDMatches(rest);
    DivisionNameMatches(rest);
    SectionNameMatches(rest);
    DateWrittenMatches(rest);
    CommentLineMatches(rest);
    FunctionMatches(rest);
    KeywordsDiffer(rest[1], "division", "section");
  }

  /** `start()` never fails: it returns exactly the outcome `Recognized`
      describes, which is the longest match among the seven alternatives,
      the earliest declared on a tie. */
  lemma StartSelects(rest: seq<Token>)
    ensures Parse(Start(), rest) == Some(Recognized(rest))
  {
    if ProgramIDShape(rest) || DateWrittenShape(rest) {
      StartOnStopAfterKeyword(rest);
    } else if DivisionNameShape(rest) || SectionNameShape(rest) || CommentLineShape(rest) {
      StartOnSoleRule(rest);
    } else {
      StartUnfolds(rest);
      ProgramIDMatches(rest);
      DivisionNameMatches(rest);
      SectionNameMatches(rest);
      DateWrittenMatches(rest);
      CommentLineMatches(rest);
      FunctionMatches(rest);
    }
  }

  /** No input matches both DivisionName and SectionName. */
  lemma DivisionSectionDisjoint(rest: seq<Token>)
    ensures !(Parse(DivisionName(), rest).Some? && Parse(SectionName(), rest).Some?)
  {
    DivisionNameMatches(rest);
    SectionNameMatches(rest);
    if |rest| >= 2 {
      KeywordsDiffer(rest[1], "division", "section");
    }
  }

  /** Function never matches an input whose second token is a word, so it
      rejects every input DivisionName or SectionName accepts. */
  lemma FunctionRejectsWordAfterWord(rest: seq<Token>)
    ensures |rest| >= 2 && rest[1].Word? ==> Parse(Function(), rest).None?
    ensures Parse(DivisionName(), rest).Some? || Parse(SectionName(), rest).Some? ==>
      Parse(Function(), rest).None?
  {
    FunctionMatches(rest);
    DivisionNameMatches(rest);
    SectionNameMatches(rest);
  }

  /** Every ProgramID input also has a two-token Function match; ProgramID's
      three-token match is longer, so `start()` selects ProgramID. */
  lemma ProgramIDBeatsFunction(rest: seq<Token>)
    requires ProgramIDShape(rest)
    ensures Parse(ProgramID(), rest).Some?
    ensures Parse(Function(), rest) == Some(Outcome(2, [rest[0]], [Firing(FunctionHook, 1)]))
    ensures Parse(ProgramID(), rest).value.consumed > Parse(Function(), rest).value.consumed
    ensures Parse(Start(), rest) == Parse(ProgramID(), rest)
  {
    ProgramIDMatches(rest);
    FunctionMatches(rest);
    StartSelects(rest);
  }

  /** Every DateWritten input also has a two-token Function match; `start()`
      selects DateWritten's eight-token match. */
  lemma DateWrittenBeatsFunction(rest: seq<Token>)
    requires DateWrittenShape(rest)
    ensures Parse(DateWritten(), rest).Some?
    ensures Parse(Function(), rest) == Some(Outcome(2, [rest[0]], [Firing(FunctionHook, 1)]))
    ensures Parse(Start(), rest) == Parse(DateWritten(), rest)
  {
    DateWrittenMatches(rest);
    FunctionMatches(rest);
    ProgramIDMatches(rest);
    KeywordsDiffer(rest[0], "program-id", "date-written");
    StartSelects(rest);
  }

  /** `start()` never fails. It consumes 0, 2, 3, 7 or 8 tokens, and it
      consumes none exactly when none of the six rules matches; then it is
      the Empty fallback, which pushes nothing and fires no assembler. */
  lemma StartNeverFails(rest: seq<Token>)
    ensures Parse(Start(), rest).Some?
    ensures Parse(Start(), rest).value.consumed in {0, 2, 3, 7, 8}
    ensures Parse(Start(), rest).value.consumed == 0 <==>
      Parse(ProgramID(), rest).None? && Parse(DivisionName(), rest).None? &&
      Parse(SectionName(), rest).None? && Parse(DateWritten(), rest).None? &&
      Parse(CommentLine(), rest).None? && Parse(Function(), rest).None?
    ensures Parse(Start(), rest).value.consumed == 0 ==> Parse(Start(), rest).value == Outcome(0, [], [])
  {
    StartSelects(rest);
    ProgramIDMatches(rest);
    DivisionNameMatches(rest);
    SectionNameMatches(rest);
    DateWrittenMatches(rest);
    CommentLineMatches(rest);
    FunctionMatches(rest);
  }

  /** `start()` runs the function assembler exactly on a word followed by a
      stop that is neither a ProgramID nor a DateWritten header, and then its
      outcome is the two-token Function match keeping only the word. */
  lemma StartFiresFunction(rest: seq<Token>)
    ensures FunctionHook in HooksOf(Recognized(rest).fired) <==>
      FunctionShape(rest) && !ProgramIDShape(rest) && !DateWrittenShape(rest)
    ensures FunctionHook in HooksOf(Recognized(rest).fired) ==>
      Recognized(rest) == Outcome(2, [rest[0]], [Firing(FunctionHook, 1)])
  {
    var fs := Recognized(rest).fired;
    assert |fs| <= 1;
    if fs != [] {
      assert HooksOf(fs) == [fs[0].hook];
    }
  }
}
