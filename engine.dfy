/** A minimal parser-combinator engine with the semantics the COBOL grammar
    relies on: terminals that consume one token and push it unless they
    discard it, sequences, an alternation that keeps the longest successful
    match (the first declared on a tie), and the empty parser.

    A parser reads the tokens that remain after the assembly's cursor. Its
    outcome says how many tokens it consumed, which of them it pushed onto the
    assembly stack (in order) and which attached assemblers fired (in order).
    An assembler runs as soon as its parser has matched, so it sees only the
    tokens pushed up to that point: each firing records how many tokens of the
    match had been pushed when it ran. Assemblers are only recorded here;
    running them is the business of the assembly module. */
module Engine {
  import opened Tokens

  datatype Option<T> = None | Some(value: T)

  /** The assembler attached to a parser, if any: `ProgramIdHook` stands for
      `Program_idAssembler`, `DivisionHook` for `DivisionAssembler`, and so on. */
  datatype Hook =
    | NoHook
    | ProgramIdHook
    | DivisionHook
    | SectionNameHook
    | DateHook
    | CommentLineHook
    | FunctionHook

  /** What a terminal accepts: any word, any number, one symbol, or a word
      equal to a literal ignoring case. */
  datatype Kind = AnyWord | AnyNum | Sym(sym: string) | Caseless(literal: string)

  datatype Parser =
    | Terminal(kind: Kind, discard: bool, hook: Hook)
    | Sequence(parts: seq<Parser>, hook: Hook)
    | Alternation(alts: seq<Parser>)
    | Empty

  /** An assembler that ran, and how many of the match's pushed tokens were
      on the stack when it ran. */
  datatype Firing = Firing(hook: Hook, depth: nat)

  /** A successful match. */
  datatype Outcome = Outcome(consumed: nat, pushed: seq<Token>, fired: seq<Firing>)

  /** Every firing of `fs` ran when at most `n` tokens had been pushed. */
  predicate DepthsWithin(fs: seq<Firing>, n: nat)
  {
    forall i :: 0 <= i < |fs| ==> fs[i].depth <= n
  }

  /** The assemblers of `fs`, in the order they ran. */
  function HooksOf(fs: seq<Firing>): seq<Hook>
  {
    seq(|fs|, i requires 0 <= i < |fs| => fs[i].hook)
  }

  /** The firings of a later part of a sequence, seen from the whole
      sequence: `n` tokens had been pushed before that part began. */
  function Shift(fs: seq<Firing>, n: nat): seq<Firing>
  {
    seq(|fs|, i requires 0 <= i < |fs| => Firing(fs[i].hook, fs[i].depth + n))
  }

  /** Whether a terminal of kind `k` accepts the token `t`. */
  predicate Qualifies(k: Kind, t: Token)
  {
    match k
    case AnyWord => t.Word?
    case AnyNum => t.Num?
    case Sym(s) => t == Symbol(s)
    case Caseless(lit) => t.Word? && EqualsIgnoreCase(t.text, lit)
  }

  /** The firing an attachment contributes when its parser succeeds, after
      `depth` tokens of the match were pushed. */
  function Fire(h: Hook, depth: nat): seq<Firing>
  {
    if h == NoHook then [] else [Firing(h, depth)]
  }

  /** Matches `p` against the remaining tokens `rest`. A parser never consumes
      more than remains, and never pushes more tokens than it consumed. */
  function Parse(p: Parser, rest: seq<Token>): (r: Option<Outcome>)
    ensures r.Some? ==> r.value.consumed <= |rest| && |r.value.pushed| <= r.value.consumed
    decreases p, |rest|
  {
    match p
    case Terminal(k, d, h) =>
      if |rest| > 0 && Qualifies(k, rest[0])
      then Some(Outcome(1, if d then [] else [rest[0]], Fire(h, if d then 0 else 1)))
      else None
    case Sequence(parts, h) =>
      var o := ParseSeq(parts, rest);
      if o.None? then None
      else Some(Outcome(o.value.consumed, o.value.pushed, o.value.fired + Fire(h, |o.value.pushed|)))
    case Alternation(alts) => ParseAlt(alts, rest)
    case Empty => Some(Outcome(0, [], []))
  }

  /** Matches `parts` one after another, each on what the previous left; fails
      as a whole when any part fails. */
  function ParseSeq(parts: seq<Parser>, rest: seq<Token>): (r: Option<Outcome>)
    ensures r.Some? ==> r.value.consumed <= |rest| && |r.value.pushed| <= r.value.consumed
    decreases parts, |rest|
  {
    if parts == [] then Some(Outcome(0, [], []))
    else
      var first := Parse(parts[0], rest);
      if first.None? then None
      else
        var more := ParseSeq(parts[1..], rest[first.value.consumed..]);
        if more.None? then None
        else Some(Outcome(first.value.consumed + more.value.consumed,
                          first.value.pushed + more.value.pushed,
                          first.value.fired + Shift(more.value.fired, |first.value.pushed|)))
  }

  /** Of two candidate matches, the one that consumed more; the first on a tie. */
  function Longer(a: Option<Outcome>, b: Option<Outcome>): Option<Outcome>
  {
    if a.None? then b
    else if b.None? then a
    else if b.value.consumed > a.value.consumed then b
    else a
  }

  /** Tries every alternative on the same tokens and keeps the longest match. */
  function ParseAlt(alts: seq<Parser>, rest: seq<Token>): (r: Option<Outcome>)
    ensures r.Some? ==> r.value.consumed <= |rest| && |r.value.pushed| <= r.value.consumed
    decreases alts, |rest|
  {
    if alts == [] then None
    else Longer(Parse(alts[0], rest), ParseAlt(alts[1..], rest))
  }

  /** No assembler a parser runs sees more tokens than its match pushed. */
  lemma {:induction false} ParseDepths(p: Parser, rest: seq<Token>)
    ensures Parse(p, rest).Some? ==> DepthsWithin(Parse(p, rest).value.fired, |Parse(p, rest).value.pushed|)
    decreases p, 2
  {
    match p
    case Terminal(_, _, _) =>
    case Sequence(parts, _) => ParseSeqDepths(parts, rest);
    case Alternation(alts) => ParseAltDepths(alts, rest);
    case Empty =>
  }

  lemma {:induction false} ParseSeqDepths(parts: seq<Parser>, rest: seq<Token>)
    ensures ParseSeq(parts, rest).Some? ==>
      DepthsWithin(ParseSeq(parts, rest).value.fired, |ParseSeq(parts, rest).value.pushed|)
    decreases parts, 1
  {
    if parts != [] {
      ParseDepths(parts[0], rest);
      var first := Parse(parts[0], rest);
      if first.Some? {
        ParseSeqDepths(parts[1..], rest[first.value.consumed..]);
      }
    }
  }

  lemma {:induction false} ParseAltDepths(alts: seq<Parser>, rest: seq<Token>)
    ensures ParseAlt(alts, rest).Some? ==>
      DepthsWithin(ParseAlt(alts, rest).value.fired, |ParseAlt(alts, rest).value.pushed|)
    decreases alts, 1
  {
    if alts != [] {
      ParseDepths(alts[0], rest);
      ParseAltDepths(alts[1..], rest);
    }
  }

  // ---------------------------------------------------------------------
  // Sequences of terminals

  predicate AllTerminals(ts: seq<Parser>)
  {
    forall i :: 0 <= i < |ts| ==> ts[i].Terminal?
  }

  /** Each terminal of `ts` accepts the token at its own position. */
  predicate Fits(ts: seq<Parser>, rest: seq<Token>)
    requires AllTerminals(ts)
  {
    |ts| <= |rest| && forall i :: 0 <= i < |ts| ==> Qualifies(ts[i].kind, rest[i])
  }

  /** The tokens matched by the terminals of `ts` from position `k` on that
      do not discard. */
  function KeptFrom(ts: seq<Parser>, rest: seq<Token>, k: nat): seq<Token>
    requires k <= |ts| <= |rest|
    decreases |ts| - k
  {
    if k == |ts| then []
    else (if ts[k].Terminal? && ts[k].discard then [] else [rest[k]]) + KeptFrom(ts, rest, k + 1)
  }

  /** How many tokens the part at position `k` pushes: one, unless it discards. */
  function Keeps(ts: seq<Parser>, k: nat): nat
    requires k < |ts|
  {
    if ts[k].Terminal? && ts[k].discard then 0 else 1
  }

  /** The firings of the assemblers attached to the terminals of `ts` from
      position `k` on, in order, when `n` tokens had been pushed before `k`. */
  function HooksFrom(ts: seq<Parser>, k: nat, n: nat): seq<Firing>
    requires k <= |ts|
    decreases |ts| - k
  {
    if k == |ts| then []
    else (if ts[k].Terminal? then Fire(ts[k].hook, n + Keeps(ts, k)) else [])
         + HooksFrom(ts, k + 1, n + Keeps(ts, k))
  }

  /** Terminals without an attached assembler fire nothing. */
  lemma {:induction false} NoHooks(ts: seq<Parser>, k: nat, n: nat)
    requires k <= |ts|
    requires forall i :: k <= i < |ts| ==> ts[i].Terminal? ==> ts[i].hook == NoHook
    ensures HooksFrom(ts, k, n) == []
    decreases |ts| - k
  {
    if k < |ts| {
      NoHooks(ts, k + 1, n + Keeps(ts, k));
    }
  }

  /** Starting the count at `m + n` is starting it at `m` and shifting by `n`. */
  lemma {:induction false} HooksFromShift(ts: seq<Parser>, k: nat, m: nat, n: nat)
    requires k <= |ts|
    ensures Shift(HooksFrom(ts, k, m), n) == HooksFrom(ts, k, m + n)
    decreases |ts| - k
  {
    if k < |ts| {
      var c := Keeps(ts, k);
      HooksFromShift(ts, k + 1, m + c, n);
      var head := if ts[k].Terminal? then Fire(ts[k].hook, m + c) else [];
      ShiftAppend(head, HooksFrom(ts, k + 1, m + c), n);
      assert Shift(head, n) == if ts[k].Terminal? then Fire(ts[k].hook, m + n + c) else [];
    }
  }

  lemma ShiftAppend(fs: seq<Firing>, gs: seq<Firing>, n: nat)
    ensures Shift(fs + gs, n) == Shift(fs, n) + Shift(gs, n)
  {
  }

  /** Dropping the first terminal and the first token shifts positions by one. */
  lemma {:induction false} FromShift(ts: seq<Parser>, rest: seq<Token>, k: nat)
    requires 0 < |ts| <= |rest| && k < |ts|
    ensures KeptFrom(ts, rest, k + 1) == KeptFrom(ts[1..], rest[1..], k)
    decreases |ts| - k
  {
    if k + 1 < |ts| {
      FromShift(ts, rest, k + 1);
      assert ts[1..][k] == ts[k + 1] && rest[1..][k] == rest[k + 1];
    }
  }

  /** Dropping the first terminal shifts the positions of the firings by one. */
  lemma {:induction false} HooksFromDrop(ts: seq<Parser>, k: nat, n: nat)
    requires 0 < |ts| && k < |ts|
    ensures HooksFrom(ts, k + 1, n) == HooksFrom(ts[1..], k, n)
    decreases |ts| - k
  {
    if k + 1 < |ts| {
      assert ts[1..][k] == ts[k + 1];
      assert Keeps(ts, k + 1) == Keeps(ts[1..], k);
      HooksFromDrop(ts, k + 1, n + Keeps(ts, k + 1));
    }
  }

  /** The positions of the terminals of `ts`, from `k` on, whose tokens are
      kept on the stack. */
  function KeptPositions(ts: seq<Parser>, k: nat): (ps: seq<nat>)
    requires k <= |ts|
    ensures forall i :: 0 <= i < |ps| ==> k <= ps[i] < |ts|
    decreases |ts| - k
  {
    if k == |ts| then []
    else (if ts[k].Terminal? && ts[k].discard then [] else [k]) + KeptPositions(ts, k + 1)
  }

  /** The tokens of `rest` at positions `ps`, in the order of `ps`. */
  function Pick(rest: seq<Token>, ps: seq<nat>): seq<Token>
    requires forall i :: 0 <= i < |ps| ==> ps[i] < |rest|
  {
    seq(|ps|, i requires 0 <= i < |ps| => rest[ps[i]])
  }

  lemma PickAppend(rest: seq<Token>, ps: seq<nat>, qs: seq<nat>)
    requires forall i :: 0 <= i < |ps| ==> ps[i] < |rest|
    requires forall i :: 0 <= i < |qs| ==> qs[i] < |rest|
    ensures Pick(rest, ps + qs) == Pick(rest, ps) + Pick(rest, qs)
  {
  }

  /** Picking positions `0, 1, …, n - 1` takes the first `n` tokens. */
  lemma PickPrefix(rest: seq<Token>, ps: seq<nat>)
    requires |ps| <= |rest| && forall i :: 0 <= i < |ps| ==> ps[i] == i
    ensures Pick(rest, ps) == rest[..|ps|]
  {
  }

  /** The kept tokens are the tokens at the kept positions. */
  lemma {:induction false} KeptAtPositions(ts: seq<Parser>, rest: seq<Token>, k: nat)
    requires k <= |ts| <= |rest|
    ensures KeptFrom(ts, rest, k) == Pick(rest, KeptPositions(ts, k))
    decreases |ts| - k
  {
    if k < |ts| {
      KeptAtPositions(ts, rest, k + 1);
      var head: seq<nat> := if ts[k].Terminal? && ts[k].discard then [] else [k];
      var tail := KeptPositions(ts, k + 1);
      assert KeptPositions(ts, k) == head + tail;
      PickAppend(rest, head, tail);
    }
  }

  /** Once the first terminal accepts the first token, the whole sequence fits
      exactly when the remaining terminals fit the remaining tokens. */
  lemma FitsTail(ts: seq<Parser>, rest: seq<Token>)
    requires AllTerminals(ts) && ts != [] && |rest| > 0 && Qualifies(ts[0].kind, rest[0])
    ensures AllTerminals(ts[1..])
    ensures Fits(ts, rest) <==> Fits(ts[1..], rest[1..])
  {
    assert AllTerminals(ts[1..]);
    if Fits(ts[1..], rest[1..]) {
      forall i | 0 <= i < |ts| ensures Qualifies(ts[i].kind, rest[i]) {
        if i > 0 { assert ts[1..][i - 1] == ts[i] && rest[1..][i - 1] == rest[i]; }
      }
    }
    if Fits(ts, rest) {
      forall i | 0 <= i < |ts| - 1 ensures Qualifies(ts[1..][i].kind, rest[1..][i]) {
        assert ts[1..][i] == ts[i + 1] && rest[1..][i] == rest[i + 1];
      }
    }
  }

  /** The firings of a sequence of terminals are those of its first terminal,
      followed by those of the rest counted from what the first pushed. */
  lemma HooksFromFirst(ts: seq<Parser>)
    requires ts != [] && ts[0].Terminal?
    ensures HooksFrom(ts, 0, 0) == Fire(ts[0].hook, Keeps(ts, 0)) + Shift(HooksFrom(ts[1..], 0, 0), Keeps(ts, 0))
  {
    HooksFromShift(ts[1..], 0, 0, Keeps(ts, 0));
    HooksFromDrop(ts, 0, Keeps(ts, 0));
  }

  /** A sequence of terminals succeeds exactly when every terminal accepts the
      token at its position; it then consumes one token per terminal, pushes
      the tokens of the terminals that do not discard, and fires the
      terminals' assemblers followed by its own. */
  lemma {:induction false} ParseSeqTerminals(ts: seq<Parser>, rest: seq<Token>)
    requires AllTerminals(ts)
    ensures ParseSeq(ts, rest) ==
      if Fits(ts, rest) then Some(Outcome(|ts|, KeptFrom(ts, rest, 0), HooksFrom(ts, 0, 0))) else None
  {
    if ts != [] {
      if |rest| > 0 && Qualifies(ts[0].kind, rest[0]) {
        FitsTail(ts, rest);
        ParseSeqTerminals(ts[1..], rest[1..]);
        if |ts| <= |rest| { FromShift(ts, rest, 0); }
        HooksFromFirst(ts);
      } else {
        assert !Fits(ts, rest);
      }
    }
  }

  /** A sequence of terminals with an attached assembler `h` pushes the
      tokens at its kept positions, then fires the terminals' assemblers,
      each after the tokens up to its own terminal, followed by `h` after
      all of them. */
  lemma SequenceOfTerminals(ts: seq<Parser>, h: Hook, rest: seq<Token>)
    requires AllTerminals(ts)
    ensures Parse(Sequence(ts, h), rest) ==
      if Fits(ts, rest)
      then Some(Outcome(|ts|, Pick(rest, KeptPositions(ts, 0)),
                        HooksFrom(ts, 0, 0) + Fire(h, |KeptPositions(ts, 0)|)))
      else None
  {
    ParseSeqTerminals(ts, rest);
    if Fits(ts, rest) { KeptAtPositions(ts, rest, 0); }
  }

  // ---------------------------------------------------------------------
  // Alternation

  /** Alternative `i` is the one the longest-match policy selects: it succeeds,
      no alternative consumes more, and every earlier successful alternative
      consumes strictly less. */
  predicate Selects(alts: seq<Parser>, rest: seq<Token>, i: nat)
  {
    i < |alts| && Parse(alts[i], rest).Some? &&
    (forall j :: 0 <= j < |alts| && Parse(alts[j], rest).Some? ==>
       Parse(alts[j], rest).value.consumed <= Parse(alts[i], rest).value.consumed) &&
    (forall j :: 0 <= j < i && Parse(alts[j], rest).Some? ==>
       Parse(alts[j], rest).value.consumed < Parse(alts[i], rest).value.consumed)
  }

  /** An alternation fails exactly when every alternative fails. */
  lemma {:induction false} AlternationFails(alts: seq<Parser>, rest: seq<Token>)
    ensures ParseAlt(alts, rest).None? <==> forall j :: 0 <= j < |alts| ==> Parse(alts[j], rest).None?
  {
    if alts != [] {
      AlternationFails(alts[1..], rest);
      assert forall j :: 1 <= j < |alts| ==> alts[1..][j - 1] == alts[j];
    }
  }

  /** No alternative consuming more than `n` makes the alternation consume more than `n`. */
  lemma {:induction false} AlternationBounded(alts: seq<Parser>, rest: seq<Token>, n: nat)
    requires forall j :: 0 <= j < |alts| && Parse(alts[j], rest).Some? ==> Parse(alts[j], rest).value.consumed <= n
    ensures ParseAlt(alts, rest).Some? ==> ParseAlt(alts, rest).value.consumed <= n
  {
    if alts != [] {
      assert forall j :: 1 <= j < |alts| ==> alts[1..][j - 1] == alts[j];
      AlternationBounded(alts[1..], rest, n);
    }
  }

  /** The alternation's result is that of the alternative the longest-match
      policy selects. */
  lemma {:induction false} AlternationPicks(alts: seq<Parser>, rest: seq<Token>, i: nat)
    requires Selects(alts, rest, i)
    ensures ParseAlt(alts, rest) == Parse(alts[i], rest)
  {
    var c := Parse(alts[i], rest).value.consumed;
    assert forall j :: 1 <= j < |alts| ==> alts[1..][j - 1] == alts[j];
    if i == 0 {
      AlternationBounded(alts[1..], rest, c);
    } else {
      assert Selects(alts[1..], rest, i - 1);
      AlternationPicks(alts[1..], rest, i - 1);
    }
  }

  /** Unfolds an alternation by its first alternative. */
  lemma AlternationCons(a: Parser, alts: seq<Parser>, rest: seq<Token>)
    ensures ParseAlt([a] + alts, rest) == Longer(Parse(a, rest), ParseAlt(alts, rest))
  {
    assert ([a] + alts)[1..] == alts;
  }

  /** An alternation of seven parsers, unfolded into its chain of longest-match choices. */
  lemma Alternation7(a0: Parser, a1: Parser, a2: Parser, a3: Parser, a4: Parser, a5: Parser, a6: Parser,
                     rest: seq<Token>)
    ensures ParseAlt([a0, a1, a2, a3, a4, a5, a6], rest) ==
      Longer(Parse(a0, rest), Longer(Parse(a1, rest), Longer(Parse(a2, rest), Longer(Parse(a3, rest),
        Longer(Parse(a4, rest), Longer(Parse(a5, rest), Longer(Parse(a6, rest), None)))))))
  {
    var s6: seq<Parser> := [a6];
    var s5 := [a5] + s6;
    var s4 := [a4] + s5;
    var s3 := [a3] + s4;
    var s2 := [a2] + s3;
    var s1 := [a1] + s2;
    var s0 := [a0] + s1;
    AlternationCons(a6, [], rest);
    assert [a6] + [] == s6;
    AlternationCons(a5, s6, rest);
    AlternationCons(a4, s5, rest);
    AlternationCons(a3, s4, rest);
    AlternationCons(a2, s3, rest);
    AlternationCons(a1, s2, rest);
    AlternationCons(a0, s1, rest);
    assert s0 == [a0, a1, a2, a3, a4, a5, a6];
  }
}
