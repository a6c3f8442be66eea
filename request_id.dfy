/**
 * The `requestId` of the outbound payload (population/utils.py,
 * `generate_request_id`): the decimal digits of the wall clock in
 * milliseconds followed by eight symbols drawn from upper-case letters,
 * digits and lower-case letters. The clock reading and the eight random
 * draws are parameters.
 */
module RequestIds {
  import opened Wrappers

  const AsciiUppercase: string := "ABCDEFGHIJKLMNOPQRSTUVWXYZ"
  const Digits: string := "0123456789"
  const AsciiLowercase: string := "abcdefghijklmnopqrstuvwxyz"

  /** The 62 symbols `random.choice` picks from, in the order `ascii_uppercase + digits + ascii_lowercase`. */
  const Alphabet: string := AsciiUppercase + Digits + AsciiLowercase

  /** Length of the random suffix. */
  const SuffixLength: nat := 8

  predicate IsDigit(c: char) {
    '0' <= c <= '9'
  }

  predicate IsAlphanumeric(c: char) {
    'A' <= c <= 'Z' || '0' <= c <= '9' || 'a' <= c <= 'z'
  }

  predicate AllDigits(s: string) {
    forall i :: 0 <= i < |s| ==> IsDigit(s[i])
  }

  /** The symbol at position `i` of the alphabet, computed from the ASCII ranges. */
  function SymbolAt(i: nat): (c: char)
    requires i < 62
    ensures IsAlphanumeric(c)
  {
    if i < 26 then (65 + i) as char
    else if i < 36 then (48 + i - 26) as char
    else (97 + i - 36) as char
  }

  /** The alphabet spelled out is the one computed from the ASCII ranges. */
  lemma AlphabetSymbols()
    ensures |Alphabet| == 62
    ensures forall i :: 0 <= i < 62 ==> Alphabet[i] == SymbolAt(i)
  {
  }

  /** Distinct positions of the alphabet hold distinct symbols. */
  lemma SymbolAtInjective(i: nat, j: nat)
    requires i < 62 && j < 62
    requires SymbolAt(i) == SymbolAt(j)
    ensures i == j
  {
  }

  /** The decimal digit character of a value below ten. */
  function DigitChar(d: nat): (c: char)
    requires d < 10
    ensures IsDigit(c) && DigitValue(c) == d
  {
    (48 + d) as char
  }

  function DigitValue(c: char): (d: nat)
    requires IsDigit(c)
    ensures d < 10
  {
    c as int - 48
  }

  /** The value of a string of decimal digits. */
  function ParseDecimal(s: string): (n: nat)
    requires AllDigits(s)
  {
    if s == [] then 0 else 10 * ParseDecimal(s[..|s| - 1]) + DigitValue(s[|s| - 1])
  }

  /**
   * Python's `str` of a non-negative int: its decimal digits, most significant
   * first, with no leading zero, which read back as the number.
   */
  function Decimal(n: nat): (s: string)
    ensures |s| >= 1 && AllDigits(s)
    ensures s[0] == '0' ==> n == 0 && s == "0"
    ensures ParseDecimal(s) == n
  {
    if n < 10 then [DigitChar(n)]
    else
      var prefix := Decimal(n / 10);
      var s := prefix + [DigitChar(n % 10)];
      assert s[..|s| - 1] == prefix;
      s
  }

  /** The eight symbols picked by `random.choice`, one per draw. */
  function RandomSuffix(draws: seq<nat>): (s: string)
    requires forall i :: 0 <= i < |draws| ==> draws[i] < |Alphabet|
    ensures |s| == |draws|
    ensures forall i :: 0 <= i < |s| ==> s[i] == Alphabet[draws[i]] && IsAlphanumeric(s[i])
  {
    AlphabetSymbols();
    if draws == [] then []
    else [Alphabet[draws[0]]] + RandomSuffix(draws[1..])
  }

  /** What the randomness source may hand out: eight indices into the alphabet. */
  predicate ValidDraws(draws: seq<nat>) {
    |draws| == SuffixLength && forall i :: 0 <= i < |draws| ==> draws[i] < |Alphabet|
  }

  /**
   * `generate_request_id` for a clock reading in milliseconds and eight
   * draws: the clock's decimal digits followed by exactly eight alphanumeric
   * symbols, from which the timestamp and the draws can be read back.
   */
  function RequestId(clockMs: nat, draws: seq<nat>): (id: string)
    requires ValidDraws(draws)
    ensures |id| == |Decimal(clockMs)| + SuffixLength
    ensures AllDigits(id[..|id| - SuffixLength])
    ensures forall i :: |id| - SuffixLength <= i < |id| ==> IsAlphanumeric(id[i])
    ensures ClockOfRequestId(id) == Some(clockMs)
    ensures SuffixOfRequestId(id) == RandomSuffix(draws)
  {
    var id := Decimal(clockMs) + RandomSuffix(draws);
    assert id[..|id| - SuffixLength] == Decimal(clockMs);
    assert id[|id| - SuffixLength..] == RandomSuffix(draws);
    id
  }

  /** The millisecond timestamp a request id starts with, if it is well formed. */
  function ClockOfRequestId(id: string): Option<nat> {
    if |id| > SuffixLength && AllDigits(id[..|id| - SuffixLength])
    then Some(ParseDecimal(id[..|id| - SuffixLength]))
    else None
  }

  /** The random suffix of a request id. */
  function SuffixOfRequestId(id: string): string
    requires |id| >= SuffixLength
  {
    id[|id| - SuffixLength..]
  }

  /**
   * Different clock readings or different draws give different request ids,
   * so two ids of the same millisecond collide only when all eight draws agree.
   */
  lemma RequestIdInjective(clockMs1: nat, draws1: seq<nat>, clockMs2: nat, draws2: seq<nat>)
    requires ValidDraws(draws1) && ValidDraws(draws2)
    requires RequestId(clockMs1, draws1) == RequestId(clockMs2, draws2)
    ensures clockMs1 == clockMs2 && draws1 == draws2
  {
    var s1, s2 := RandomSuffix(draws1), RandomSuffix(draws2);
    AlphabetSymbols();
    forall i | 0 <= i < SuffixLength
      ensures draws1[i] == draws2[i]
    {
      assert s1[i] == s2[i];
      SymbolAtInjective(draws1[i], draws2[i]);
    }
  }
}
