/** Concrete source lines, already tokenized, and the outcome `Recognized`
    assigns them, which is what `start()` returns (`StartSelects`). */
module CobolScenarios {
  import opened Tokens
  import opened Engine
  import opened CobolGrammar

  /** `PROGRAM-ID. hello` is a ProgramID header: the keyword and the name are
      kept, the stop is dropped, and the Function rule's shorter match of
      `PROGRAM-ID.` loses. */
  lemma ProgramIdLine()
    ensures Recognized([Word("PROGRAM-ID"), Symbol("."), Word("hello")]) ==
      Outcome(3, [Word("PROGRAM-ID"), Word("hello")], [Firing(ProgramIdHook, 2)])
  {
    var rest := [Word("PROGRAM-ID"), Symbol("."), Word("hello")];
    assert IsKeyword(rest[0], "program-id");
  }

  /** `IDENTIFICATION DIVISION.` names a division; the stop is dropped. */
  lemma DivisionLine()
    ensures Recognized([Word("IDENTIFICATION"), Word("DIVISION"), Symbol(".")]) ==
      Outcome(3, [Word("IDENTIFICATION"), Word("DIVISION")], [Firing(DivisionHook, 1)])
  {
    var rest := [Word("IDENTIFICATION"), Word("DIVISION"), Symbol(".")];
    assert IsKeyword(rest[1], "division");
  }

  /** `DATE-WRITTEN. 21-jan-1995 - mb.` keeps the keyword, the day and the
      month-and-year word; the author's initials are dropped. */
  lemma DateWrittenLine()
    ensures Recognized([Word("DATE-WRITTEN"), Symbol("."), Num(21), Symbol("-"), Word("jan-1995"),
                        Symbol("-"), Word("mb"), Symbol(".")]) ==
      Outcome(8, [Word("DATE-WRITTEN"), Num(21), Word("jan-1995")], [Firing(DateHook, 3)])
  {
    var rest := [Word("DATE-WRITTEN"), Symbol("."), Num(21), Symbol("-"), Word("jan-1995"),
                 Symbol("-"), Word("mb"), Symbol(".")];
    assert IsKeyword(rest[0], "date-written");
  }

  /** `main.` is a function header whose stop is dropped. */
  lemma FunctionLine()
    ensures Recognized([Word("main"), Symbol(".")]) ==
      Outcome(2, [Word("main")], [Firing(FunctionHook, 1)])
  {
  }

  /** `PROGRAM-ID.` with no name after it is not a ProgramID header. Function
      matches it, so `start()` fires the function assembler on the keyword. */
  lemma ProgramIdWithoutName()
    ensures Recognized([Word("PROGRAM-ID"), Symbol(".")]) ==
      Outcome(2, [Word("PROGRAM-ID")], [Firing(FunctionHook, 1)])
  {
  }

  /** A date line without the author's initials is not a DateWritten line.
      Function matches its first two tokens, so `start()` fires the function
      assembler on the keyword. */
  lemma DateWrittenWithoutInitials()
    ensures Recognized([Word("DATE-WRITTEN"), Symbol("."), Num(21), Symbol("-"), Word("jan-1995"),
                        Symbol(".")]) ==
      Outcome(2, [Word("DATE-WRITTEN")], [Firing(FunctionHook, 1)])
  {
  }

  /** `main` without a stop matches no rule: `start()` falls back to Empty. */
  lemma UnrecognizedLine()
    ensures Recognized([Word("main")]) == Outcome(0, [], [])
  {
  }
}
