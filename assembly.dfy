/** The mutable parse state (`Assembly`) and the output document (`Cobol`). */
module Assemblies {
  import opened Tokens
  import opened Engine

  /** An entry of the assembly stack: a token a terminal pushed, or a value
      some other assembler pushed. */
  datatype Entry = TokenEntry(token: Token) | ValueEntry(description: string)

  /** The stack entries a match pushes, one per pushed token, in order. */
  function Entries(ts: seq<Token>): seq<Entry>
  {
    seq(|ts|, i requires 0 <= i < |ts| => TokenEntry(ts[i]))
  }

  /** An element of the output document. Only the function element is built
      by an assembler that is part of this model. */
  datatype Element = FunctionElement(name: string)

  /** The output document, an insertion-ordered list of elements. */
  class Cobol {
    var elements: seq<Element>

    /** A new document holds no element. */
    constructor()
      ensures elements == []
    {
      elements := [];
    }

    /** Appends one function element. */
    method AddFunctionElement(name: string)
      modifies this
      ensures elements == old(elements) + [FunctionElement(name)]
    {
      elements := elements + [FunctionElement(name)];
    }
  }

  /** The parse state: the token sequence with a cursor, the stack (its top
      is the last entry) and the target document. */
  class Assembly {
    const tokens: seq<Token>
    var index: nat
    var stack: seq<Entry>
    var target: Cobol?

    ghost predicate Valid()
      reads this
    {
      index <= |tokens|
    }

    /** The tokens after the cursor. */
    function Remaining(): (rest: seq<Token>)
      reads this
      requires Valid()
      ensures |rest| == |tokens| - index
    {
      tokens[index..]
    }

    constructor(toks: seq<Token>)
      ensures Valid() && tokens == toks && index == 0 && stack == [] && target == null
    {
      tokens := toks;
      index := 0;
      stack := [];
      target := null;
    }

    /** Pops the top entry; `None` stands for the exception an empty stack raises. */
    method Pop() returns (e: Option<Entry>)
      modifies this`stack
      ensures old(stack) == [] ==> e == None && stack == []
      ensures old(stack) != [] ==>
        e == Some(old(stack)[|old(stack)| - 1]) && stack == old(stack)[..|old(stack)| - 1]
    {
      if stack == [] {
        e := None;
      } else {
        e := Some(stack[|stack| - 1]);
        stack := stack[..|stack| - 1];
      }
    }

    method SetTarget(c: Cobol)
      modifies this`target
      ensures target == c
    {
      target := c;
    }

    /** Commits a match: advances the cursor past the consumed tokens and
      pushes the tokens the match kept. */
    method Accept(o: Outcome)
      requires Valid() && o.consumed <= |tokens| - index
      modifies this`index, this`stack
      ensures Valid()
      ensures index == old(index) + o.consumed
      ensures stack == old(stack) + Entries(o.pushed)
    {
      index := index + o.consumed;
      stack := stack + Entries(o.pushed);
    }

    /** Applies a parser to the tokens after the cursor and commits its match;
      when the parser fails, the assembly is left as it was. */
    method Match(p: Parser) returns (r: Option<Outcome>)
      requires Valid()
      modifies this`index, this`stack
      ensures Valid()
      ensures r == Parse(p, old(Remaining()))
      ensures r.None? ==> index == old(index) && stack == old(stack)
      ensures r.Some? ==>
        index == old(index) + r.value.consumed && stack == old(stack) + Entries(r.value.pushed)
    {
      r := Parse(p, Remaining());
      if r.Some? {
        Accept(r.value);
      }
    }
  }
}

/** The assembler attached to the Function rule. */
module FunctionAssembler {
  import opened Tokens
  import opened Engine
  import opened Assemblies
  import CobolGrammar

  /** How `WorkOn` ends: normally, or with the exception an empty stack or a
      non-token top entry raises. */
  datatype Status = Done | EmptyStack | NotAToken

  /** Pops the top entry, which must be a token, and replaces the target with
      a new document holding one function element named by the token's
      trimmed string value. Only the stack and the target change. */
  method WorkOn(a: Assembly) returns (status: Status)
    modifies a`stack, a`target
    ensures a.index == old(a.index)
    ensures old(a.stack) == [] ==> status == EmptyStack && a.stack == [] && a.target == old(a.target)
    ensures old(a.stack) != [] ==> a.stack == old(a.stack)[..|old(a.stack)| - 1]
    ensures old(a.stack) != [] && !old(a.stack)[|old(a.stack)| - 1].TokenEntry? ==>
      status == NotAToken && a.target == old(a.target)
    ensures old(a.stack) != [] && old(a.stack)[|old(a.stack)| - 1].TokenEntry? ==>
      status == Done && a.target != null && fresh(a.target) &&
      a.target.elements == [FunctionElement(Trim(Sval(old(a.stack)[|old(a.stack)| - 1].token)))]
  {
    var c := new Cobol();
    var e := a.Pop();
    if e.None? {
      return EmptyStack;
    }
    if !e.value.TokenEntry? {
      return NotAToken;
    }
    c.AddFunctionElement(Trim(Sval(e.value.token)));
    a.SetTarget(c);
    status := Done;
  }

  /** After a Function match the top of the stack is the function-name word
      (the stop was discarded), and the entries below it are the stack as it
      was before the match. */
  lemma FunctionMatchLeavesName(stack: seq<Entry>, rest: seq<Token>)
    requires Parse(CobolGrammar.Function(), rest).Some?
    ensures var s := stack + Entries(Parse(CobolGrammar.Function(), rest).value.pushed);
      |s| == |stack| + 1 && s[..|stack|] == stack && s[|stack|] == TokenEntry(rest[0]) && rest[0].Word?
  {
    CobolGrammar.FunctionMatches(rest);
  }

  /** Applies `start()` to the assembly, commits the selected match and, when
      that match fired this assembler, runs it on the result. The net effect
      of a Function match is that the stack is as before and the target is a
      new document naming the matched word, trimmed. Other selected rules
      leave their kept tokens on the stack. */
  method MatchAndAssemble(a: Assembly) returns (o: Outcome, status: Option<Status>)
    requires a.Valid()
    modifies a`index, a`stack, a`target
    ensures a.Valid()
    ensures o == CobolGrammar.Recognized(old(a.Remaining()))
    ensures a.index == old(a.index) + o.consumed
    ensures FunctionHook in HooksOf(o.fired) ==>
      status == Some(Done) && a.stack == old(a.stack) && a.target != null && fresh(a.target) &&
      a.target.elements == [FunctionElement(Trim(old(a.Remaining())[0].text))]
    ensures FunctionHook !in HooksOf(o.fired) ==>
      status == None && a.stack == old(a.stack) + Entries(o.pushed) && a.target == old(a.target)
  {
    ghost var rest := a.Remaining();
    ghost var before := a.stack;
    CobolGrammar.StartSelects(rest);
    CobolGrammar.StartFiresFunction(rest);
    var r := a.Match(CobolGrammar.Start());
    o := r.value;
    if FunctionHook in HooksOf(o.fired) {
      assert a.stack == before + [TokenEntry(rest[0])];
      var st := WorkOn(a);
      assert a.stack == before;
      status := Some(st);
    } else {
      status := None;
    }
  }
}
