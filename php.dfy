/**
 * The few PHP built-ins and conversions the menu editor controller depends on,
 * written out with PHP 7 semantics: truthiness, `stripos`, single-character
 * `str_replace`, string conversion of a scalar, and the loose `>` between an
 * integer and a configuration scalar.
 */
module Php {
  import opened Wrappers

  /** A scalar read from the extension's YAML configuration. */
  datatype Setting = SNull | SBool(b: bool) | SInt(i: int) | SStr(s: string)

  /** PHP's conversion of a string to bool: only "" and "0" are false. */
  predicate TruthyString(s: string) {
    s != "" && s != "0"
  }

  /**
   * PHP's conversion of a configuration scalar to bool. It agrees with
   * converting the scalar's string form: null, false and 0 print as "" or "0".
   */
  predicate Truthy(v: Setting): (r: bool)
    ensures r <==> TruthyString(PhpString(v))
  {
    match v
    case SNull => false
    case SBool(b) => b
    case SInt(i) => i != 0
    case SStr(s) => TruthyString(s)
  }

  /** `$section[$key]`: a missing key reads as null. */
  function Lookup(section: map<string, Setting>, key: string): Setting {
    if key in section then section[key] else SNull
  }

  /** ASCII lower-casing, the part of `strtolower` this model keeps. */
  function Lower(c: char): (r: char)
    ensures 'A' <= c <= 'Z' ==> 'a' <= r <= 'z'
    ensures !('A' <= c <= 'Z') ==> r == c
  {
    if 'A' <= c <= 'Z' then (c as int + 32) as char else c
  }

  /** `needle` occurs in `hay` at offset `p`, ignoring ASCII case. */
  predicate MatchAt(hay: string, needle: string, p: nat) {
    p + |needle| <= |hay| &&
    forall k :: 0 <= k < |needle| ==> Lower(hay[p + k]) == Lower(needle[k])
  }

  /** The first case-insensitive occurrence of `needle` in `hay` at or after `from`. */
  function FirstMatchFrom(hay: string, needle: string, from: nat): (r: Option<nat>)
    ensures r.Some? ==> from <= r.value && MatchAt(hay, needle, r.value)
    ensures r.Some? ==> forall p :: from <= p < r.value ==> !MatchAt(hay, needle, p)
    ensures r.None? ==> forall p: nat :: from <= p ==> !MatchAt(hay, needle, p)
    decreases |hay| - from
  {
    if from + |needle| > |hay| then None
    else if MatchAt(hay, needle, from) then Some(from)
    else FirstMatchFrom(hay, needle, from + 1)
  }

  /**
   * PHP 7 `stripos($hay, $needle)`: the 0-based offset of the first
   * case-insensitive occurrence, or `false` (None). An empty needle gives
   * `false`, as does a needle longer than the haystack.
   */
  function StrIPos(hay: string, needle: string): (r: Option<nat>)
    ensures r.Some? ==> MatchAt(hay, needle, r.value)
    ensures r.Some? ==> forall p :: 0 <= p < r.value ==> !MatchAt(hay, needle, p)
    ensures r.None? <==> |needle| == 0 || forall p: nat :: !MatchAt(hay, needle, p)
  {
    if |needle| == 0 then None else FirstMatchFrom(hay, needle, 0)
  }

  /** A `stripos` result tested with `!== false`. */
  predicate Found(r: Option<nat>) {
    r.Some?
  }

  /** A `stripos` result tested by truthiness: offset 0 is as false as `false`. */
  predicate TruthyPosition(r: Option<nat>) {
    r.Some? && r.value != 0
  }

  /** `stripos(...) !== false` holds exactly when the needle is non-empty and occurs somewhere. */
  lemma FoundIff(hay: string, needle: string)
    ensures Found(StrIPos(hay, needle)) <==>
            |needle| > 0 && exists p: nat :: MatchAt(hay, needle, p)
  {
  }

  /**
   * A truthy `stripos(...)` holds exactly when the needle is non-empty, occurs
   * somewhere, and does not occur at offset 0: a later occurrence does not help
   * when there is also one at the start.
   */
  lemma TruthyIff(hay: string, needle: string)
    ensures TruthyPosition(StrIPos(hay, needle)) <==>
            |needle| > 0 && (exists p: nat :: MatchAt(hay, needle, p)) && !MatchAt(hay, needle, 0)
  {
  }

  /** `str_replace($from, $to, $s)` for one-character search and replacement strings. */
  function StrReplaceChar(s: string, from: char, to: char): (r: string)
    ensures |r| == |s|
    ensures forall i :: 0 <= i < |s| ==> r[i] == (if s[i] == from then to else s[i])
    ensures from != to ==> from !in r
  {
    if s == [] then []
    else
      var last := s[|s| - 1];
      StrReplaceChar(s[..|s| - 1], from, to) + [if last == from then to else last]
  }

  /** Every character of `s` is a decimal digit. */
  predicate AllDigits(s: string) {
    forall i :: 0 <= i < |s| ==> '0' <= s[i] <= '9'
  }

  /** The decimal digits of a natural number, as PHP prints it; only 0 prints as "0". */
  function NatString(n: nat): (r: string)
    ensures r != [] && AllDigits(r)
    ensures r == "0" <==> n == 0
    decreases n
  {
    var digit := ['0' + (n % 10) as char];
    if n < 10 then digit else NatString(n / 10) + digit
  }

  /**
   * PHP's conversion of a configuration scalar to string (`.` concatenation).
   * An integer's string form reads back as the same integer.
   */
  function PhpString(v: Setting): (r: string)
    ensures v.SInt? ==> LeadingInt(r) == v.i
  {
    match v
    case SNull => ""
    case SBool(b) => if b then "1" else ""
    case SInt(i) =>
      if i < 0 then
        var digits := NatString(-i);
        NatStringValue(-i);
        assert ("-" + digits)[1..] == digits;
        "-" + digits
      else
        NatStringValue(i);
        NatString(i)
    case SStr(s) => s
  }

  /** The value of the leading run of decimal digits of `s`, accumulated onto `acc`. */
  function DigitsValue(s: string, acc: nat): nat {
    if s != [] && '0' <= s[0] <= '9' then DigitsValue(s[1..], acc * 10 + (s[0] - '0') as nat)
    else acc
  }

  /** Reading a digit string after a prefix continues from the prefix's value. */
  lemma {:induction false} DigitsValueAppend(s: string, t: string, acc: nat)
    requires AllDigits(s)
    ensures DigitsValue(s + t, acc) == DigitsValue(t, DigitsValue(s, acc))
    decreases |s|
  {
    if s != [] {
      assert (s + t)[0] == s[0];
      assert (s + t)[1..] == s[1..] + t;
      DigitsValueAppend(s[1..], t, acc * 10 + (s[0] - '0') as nat);
    } else {
      assert s + t == t;
    }
  }

  /** The digits PHP prints for `n` read back as `n`. */
  lemma {:induction false} NatStringValue(n: nat)
    ensures DigitsValue(NatString(n), 0) == n
    decreases n
  {
    var digit := ['0' + (n % 10) as char];
    assert DigitsValue(digit, n / 10) == n by {
      assert digit[1..] == [];
    }
    if n >= 10 {
      NatStringValue(n / 10);
      DigitsValueAppend(NatString(n / 10), digit, 0);
    }
  }

  /** PHP 7's numeric reading of a string: an optional sign and a digit prefix, else 0. */
  function LeadingInt(s: string): int {
    if s != [] && s[0] == '-' then -(DigitsValue(s[1..], 0) as int)
    else if s != [] && s[0] == '+' then DigitsValue(s[1..], 0)
    else DigitsValue(s, 0)
  }

  /**
   * PHP 7's loose `$n > $v` for an integer `$n` and a configuration scalar:
   * against null or a bool both sides are compared as bools; against a
   * string, the string is read as a number.
   */
  predicate LooseGreater(n: int, v: Setting) {
    match v
    case SNull => n != 0
    case SBool(b) => n != 0 && !b
    case SInt(k) => n > k
    case SStr(s) => n > LeadingInt(s)
  }

  /** A `keep` given as the string form of an integer compares exactly as that integer. */
  lemma LooseGreaterReadsIntString(n: int, k: int)
    ensures LooseGreater(n, SStr(PhpString(SInt(k)))) <==> LooseGreater(n, SInt(k))
  {
  }

  /** An absent (null) `keep` compares as `false`: any non-zero count is greater. */
  lemma LooseGreaterNullIsFalse(n: int)
    ensures LooseGreater(n, SNull) <==> LooseGreater(n, SBool(false))
    ensures LooseGreater(n, SNull) <==> n != 0
  {
  }
}
