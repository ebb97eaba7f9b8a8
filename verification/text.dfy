/** The case folding the tracker applies to typed answers before comparing them. */
module Text {

  /** `str.lower()` on one character, for the ASCII letters. */
  function LowerChar(c: char): char
  {
    if 'A' <= c <= 'Z' then (c as int + 32) as char else c
  }

  /** `str.lower()`: every character folded, the length kept. */
  function Lower(s: string): (r: string)
    ensures |r| == |s|
    ensures forall i :: 0 <= i < |s| ==> r[i] == LowerChar(s[i])
  {
    if s == [] then [] else [LowerChar(s[0])] + Lower(s[1..])
  }

  /** A confirmation prompt is accepted when the lowered reply is `yes`. */
  predicate IsYes(reply: string)
  {
    Lower(reply) == "yes"
  }

  /** The replies that confirm are exactly the eight spellings of `yes` in mixed case. */
  lemma IsYesExactly(reply: string)
    ensures IsYes(reply) <==>
      |reply| == 3 && reply[0] in "yY" && reply[1] in "eE" && reply[2] in "sS"
  {
  }
}
