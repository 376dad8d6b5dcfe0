/** `generateId` (src/lib/utils.ts): a random identifier of letters and
    digits, built one character per loop pass. */
module Ids {
  import opened RandomSource

  /** The alphabet identifiers are drawn from: `A`-`Z`, `a`-`z`, `0`-`9`. */
  const Chars := "ABCDEFGHIJKLMNOPQRSTUVWXYZabcdefghijklmnopqrstuvwxyz0123456789"

  const DefaultLength := 12

  /** `Math.floor(r * CHARS.length)` */
  function CharIndex(r: real): int {
    (r * |Chars| as real).Floor
  }

  /** A draw in [0, 1) always picks an index inside the alphabet. */
  lemma CharIndexInRange(r: real)
    requires 0.0 <= r < 1.0
    ensures 0 <= CharIndex(r) < |Chars|
  {
  }

  /** `CHARS.charAt(k)`: the one-character string at `k`, or the empty
      string outside the alphabet. */
  function CharAt(k: int): (c: string)
    ensures |c| <= 1
    ensures 0 <= k < |Chars| ==> c == [Chars[k]]
    ensures c != [] ==> c[0] in Chars
  {
    if 0 <= k < |Chars| then [Chars[k]] else ""
  }

  /** The identifier the draws spell, one `charAt` per draw. */
  function Spell(draws: seq<real>): (id: string)
    ensures |id| <= |draws|
    ensures forall i :: 0 <= i < |id| ==> id[i] in Chars
  {
    if draws == [] then "" else Spell(draws[..|draws| - 1]) + CharAt(CharIndex(draws[|draws| - 1]))
  }

  /** Draws in [0, 1) give one character each. */
  lemma {:induction false} SpellLength(draws: seq<real>)
    requires IsRandomSource(draws)
    ensures |Spell(draws)| == |draws|
  {
    if draws != [] {
      SpellLength(draws[..|draws| - 1]);
      CharIndexInRange(draws[|draws| - 1]);
    }
  }

  /** The number of loop passes `i < length` makes. */
  function Passes(length: int): nat {
    if length <= 0 then 0 else length
  }

  /** `generateId(length)`: one draw per pass of the counting loop. */
  method GenerateId(draws: seq<real>, length: int := DefaultLength) returns (id: string)
    requires |draws| >= Passes(length)
    ensures id == Spell(draws[..Passes(length)])
    ensures forall i :: 0 <= i < |id| ==> id[i] in Chars
  {
    id := "";
    var i := 0;
    while i < length
      invariant 0 <= i <= Passes(length)
      invariant id == Spell(draws[..i])
    {
      assert draws[..i + 1][..i] == draws[..i];
      id := id + CharAt(CharIndex(draws[i]));
      i := i + 1;
    }
  }

  /** With genuine draws the identifier has exactly `length` characters,
      and none for a length of zero or less. */
  lemma GeneratedLength(draws: seq<real>, length: int)
    requires |draws| >= Passes(length) && IsRandomSource(draws)
    ensures |Spell(draws[..Passes(length)])| == Passes(length)
    ensures length <= 0 ==> Spell(draws[..Passes(length)]) == ""
  {
    SpellLength(draws[..Passes(length)]);
  }
}
