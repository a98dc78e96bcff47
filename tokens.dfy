/** Booking tokens: six characters drawn from upper-case letters and digits. */
module Tokens {

  const Alphabet: string := "ABCDEFGHIJKLMNOPQRSTUVWXYZ0123456789"
  const TokenLength: nat := 6

  /** One draw of `Math.floor(Math.random() * chars.length)`: an index into the alphabet. */
  type Roll = r: int | 0 <= r < 36

  /** The six draws that make one token. */
  predicate IsDraw(d: seq<Roll>)
  {
    |d| == TokenLength
  }

  /** A well-formed token: six symbols of the alphabet. */
  predicate IsToken(t: string)
  {
    |t| == TokenLength && forall i :: 0 <= i < |t| ==> t[i] in Alphabet
  }

  /** The string the draws spell, one alphabet symbol per draw. */
  function Spell(d: seq<Roll>): (t: string)
    ensures |t| == |d|
  {
    seq(|d|, i requires 0 <= i < |d| => Alphabet[d[i]])
  }

  /** Builds a token from six draws, one character per iteration of the loop. */
  method GenerateToken(d: seq<Roll>) returns (token: string)
    requires IsDraw(d)
    ensures IsToken(token)
    ensures token == Spell(d)
  {
    token := "";
    for i := 0 to TokenLength
      invariant |token| == i
      invariant forall k :: 0 <= k < i ==> token[k] == Alphabet[d[k]]
    {
      token := token + [Alphabet[d[i]]];
    }
  }

  /** Position of a symbol in the alphabet. */
  function SymbolIndex(c: char): (r: Roll)
    requires c in Alphabet
    ensures Alphabet[r] == c
  {
    if 'A' <= c <= 'Z' then (c as int) - ('A' as int) else 26 + (c as int) - ('0' as int)
  }

  /** Every token can be drawn: spelling the symbol indices of a token gives the token back. */
  lemma TokenIsDrawable(t: string)
    requires IsToken(t)
    ensures IsDraw(seq(|t|, i requires 0 <= i < |t| => SymbolIndex(t[i])))
    ensures Spell(seq(|t|, i requires 0 <= i < |t| => SymbolIndex(t[i]))) == t
  {
  }

  /** The symbol a draw selects: letters first, then digits. */
  function Symbol(r: Roll): char
  {
    if r < 26 then ('A' as int + r) as char else ('0' as int + r - 26) as char
  }

  /** The alphabet literal lists exactly the symbols `Symbol` selects. */
  lemma AlphabetIsSymbols()
    ensures |Alphabet| == 36
    ensures forall r: Roll :: Alphabet[r] == Symbol(r)
  {
    assert Alphabet == seq(36, (r: int) requires 0 <= r < 36 => Symbol(r));
  }

  /** Different draws give different tokens: the 36 symbols are pairwise distinct. */
  lemma SpellIsInjective(d1: seq<Roll>, d2: seq<Roll>)
    requires |d1| == |d2|
    requires Spell(d1) == Spell(d2)
    ensures d1 == d2
  {
    AlphabetIsSymbols();
    forall i | 0 <= i < |d1|
      ensures d1[i] == d2[i]
    {
      assert Symbol(d1[i]) == Spell(d1)[i] == Spell(d2)[i] == Symbol(d2[i]);
    }
  }
}
