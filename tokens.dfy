/** Lexical units of the COBOL front end: the tokens the grammar reads, the
    string operations the grammar and its assemblers apply to them, and the
    one tokenizer setting the grammar configures. */
module Tokens {

  /** A token as the tokenizer produces it. Numbers carry an integer value; the
      library's double is not modelled. */
  datatype Token = Word(text: string) | Num(value: int) | Symbol(text: string)

  /** The token's string value (`Token.sval()`): the text of a word or a
      symbol; a number token has the empty string as its string value. */
  function Sval(t: Token): string
  {
    match t
    case Word(w) => w
    case Num(_) => []
    case Symbol(y) => y
  }

  /** Lower-cases an ASCII capital letter and leaves every other character alone. */
  function LowerAscii(c: char): char
  {
    if 'A' <= c <= 'Z' then (c as int + 32) as char else c
  }

  /** Equality of two strings ignoring the case of ASCII letters, compared
      character by character as `String.equalsIgnoreCase` does. */
  predicate EqualsIgnoreCase(a: string, b: string)
  {
    |a| == |b| && forall i :: 0 <= i < |a| ==> LowerAscii(a[i]) == LowerAscii(b[i])
  }

  /** The characters `String.trim` removes: every code point up to and including the space. */
  predicate Trimmable(c: char)
  {
    c <= ' '
  }

  /** Removes the leading trimmable characters. */
  function TrimStart(s: string): (r: string)
    ensures |r| <= |s| && r == s[|s| - |r|..]
    ensures forall k :: 0 <= k < |s| - |r| ==> Trimmable(s[k])
    ensures r == [] || !Trimmable(r[0])
  {
    if |s| > 0 && Trimmable(s[0]) then TrimStart(s[1..]) else s
  }

  /** Removes the trailing trimmable characters. */
  function TrimEnd(s: string): (r: string)
    ensures |r| <= |s| && r == s[..|r|]
    ensures forall k :: |r| <= k < |s| ==> Trimmable(s[k])
    ensures r == [] || !Trimmable(r[|r| - 1])
  {
    if |s| > 0 && Trimmable(s[|s| - 1]) then TrimEnd(s[..|s| - 1]) else s
  }

  /** `String.trim`: the string without its leading and trailing trimmable
      characters. The result is the slice `s[i..i + |r|]`, everything of `s`
      outside that slice is trimmable, and the result neither begins nor ends
      with a trimmable character. */
  function Trim(s: string): (r: string)
    ensures |r| <= |s|
    ensures var i := |s| - |TrimStart(s)|;
      i + |r| <= |s| && r == s[i..i + |r|] &&
      (forall k :: 0 <= k < i ==> Trimmable(s[k])) &&
      (forall k :: i + |r| <= k < |s| ==> Trimmable(s[k]))
    ensures r == [] || (!Trimmable(r[0]) && !Trimmable(r[|r| - 1]))
  {
    var t := TrimStart(s);
    var r := TrimEnd(t);
    assert r == [] || r[0] == t[0];
    r
  }

  /** A string with no trimmable character at either end is its own trim. */
  lemma {:induction false} TrimOfTrimmed(s: string)
    requires s == [] || (!Trimmable(s[0]) && !Trimmable(s[|s| - 1]))
    ensures Trim(s) == s
  {
    assert TrimStart(s) == s;
    assert TrimEnd(s) == s;
  }

  /** Trimming twice is trimming once. */
  lemma TrimIdempotent(s: string)
    ensures Trim(Trim(s)) == Trim(s)
  {
    TrimOfTrimmed(Trim(s));
  }

  /** The tokenizer's word-character table, reduced to the one entry the COBOL
      grammar sets: whether a space may occur inside a word. */
  datatype TokenizerConfig = TokenizerConfig(spaceIsWordChar: bool)

  /** The tokenizer the COBOL grammar uses: spaces end words. */
  const CobolTokenizer := TokenizerConfig(spaceIsWordChar := false)

  /** The tokens respect the configuration: unless spaces are word characters,
      no word contains a space. */
  predicate Respects(cfg: TokenizerConfig, toks: seq<Token>)
  {
    cfg.spaceIsWordChar || forall i :: 0 <= i < |toks| && toks[i].Word? ==> ' ' !in toks[i].text
  }

  /** Under the COBOL tokenizer, the trimmed string value of a word never
      contains a space. */
  lemma TrimmedWordHasNoSpace(toks: seq<Token>, i: nat)
    requires Respects(CobolTokenizer, toks)
    requires i < |toks| && toks[i].Word?
    ensures ' ' !in Trim(Sval(toks[i]))
  {
  }
}
