/**
 * The per-step description text. Some topics show `descriptions[step]` as
 * it is; the others render `Iteration ${iterations}: ${descriptions[step]}`.
 * The prefixed form is given a reader that recovers the lap number and the
 * step text from the rendered string.
 */
module Content {
  import opened Js
  import opened Decimal

  /** The plain form: `descriptions[step]`, undefined past the table. */
  function PlainDescription(descriptions: seq<string>, step: int): (r: Lookup<string>)
    ensures r.Defined? <==> 0 <= step < |descriptions|
    ensures r.Defined? ==> r.value == descriptions[step]
  {
    Index(descriptions, step)
  }

  const IterationLabel := "Iteration "

  /** The prefixed form: `Iteration ${iterations}: ${descriptions[step]}`. */
  function IterationDescription(descriptions: seq<string>, step: int, iterations: nat): string {
    IterationLabel + NatToString(iterations) + ": " + TemplateText(Index(descriptions, step))
  }

  /** What a prefixed description is read back as. */
  datatype Reading = Reading(iterations: nat, text: string) | Unprefixed

  /**
   * Reads "Iteration ", a decimal numeral without leading zeros and ": " off
   * the front of `s`; the text is whatever follows.
   */
  function ReadIterationDescription(s: string): Reading {
    if |s| < |IterationLabel| || s[..|IterationLabel|] != IterationLabel then Unprefixed
    else
      var rest := s[|IterationLabel|..];
      var k := LeadingDigits(rest);
      if k == 0 || (k > 1 && rest[0] == '0') || |rest| < k + 2 || rest[k..k + 2] != ": " then Unprefixed
      else Reading(DigitsValue(rest[..k]), rest[k + 2..])
  }

  /** "Iteration ", the numeral of `n` and ": " in front of `text` read back as `n` and `text`. */
  lemma PrefixReadsBack(n: nat, text: string)
    ensures ReadIterationDescription(IterationLabel + NatToString(n) + ": " + text) == Reading(n, text)
  {
    var digits := NatToString(n);
    var tail := ": " + text;
    var s := IterationLabel + NatToString(n) + ": " + text;
    assert s == IterationLabel + (digits + tail);
    assert s[..|IterationLabel|] == IterationLabel;
    var rest := s[|IterationLabel|..];
    assert rest == digits + tail;
    LeadingDigitsOfNumeral(digits, tail);
    assert LeadingDigits(rest) == |digits|;
    assert rest[..|digits|] == digits;
    assert rest[|digits|..|digits| + 2] == ": ";
    assert rest[|digits| + 2..] == text;
  }

  /**
   * A string that reads back as lap `n` and `text` is exactly "Iteration ",
   * the numeral of `n`, ": " and `text`: the reading fixes the rendering.
   */
  lemma ReadingDeterminesText(s: string, n: nat, text: string)
    requires ReadIterationDescription(s) == Reading(n, text)
    ensures s == IterationLabel + NatToString(n) + ": " + text
  {
    assert |s| >= |IterationLabel| && s[..|IterationLabel|] == IterationLabel;
    var rest := s[|IterationLabel|..];
    var k := LeadingDigits(rest);
    assert k >= 1 && |rest| >= k + 2 && rest[k..k + 2] == ": ";
    var digits := rest[..k];
    assert digits[0] == rest[0];
    assert DigitsValue(digits) == n;
    CanonicalNumeral(digits);
    assert rest[k + 2..] == text;
    assert rest == digits + rest[k..k + 2] + rest[k + 2..];
    assert s == s[..|IterationLabel|] + rest;
  }

  /**
   * A prefixed description carries the current lap number and the step's
   * text (or "undefined" past the table), and both can be read back from it.
   */
  lemma IterationDescriptionReadsBack(descriptions: seq<string>, step: int, iterations: nat)
    ensures ReadIterationDescription(IterationDescription(descriptions, step, iterations)) ==
      Reading(iterations, TemplateText(Index(descriptions, step)))
  {
    PrefixReadsBack(iterations, TemplateText(Index(descriptions, step)));
  }

  /** Different laps of the same step render different descriptions. */
  lemma IterationDescriptionDistinguishesLaps(descriptions: seq<string>, step: int, i: nat, j: nat)
    requires IterationDescription(descriptions, step, i) == IterationDescription(descriptions, step, j)
    ensures i == j
  {
    IterationDescriptionReadsBack(descriptions, step, i);
    IterationDescriptionReadsBack(descriptions, step, j);
  }
}
