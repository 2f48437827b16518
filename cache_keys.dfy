/** Cache keys of stories: the default `StoryCacheKey` template
    "HackerNewsStory-{0}" with the story id written in decimal. */
module CacheKeys {
  import opened Models

  /** The template up to its one placeholder. */
  const StoryKeyPrefix: string := "HackerNewsStory-"

  predicate IsDigit(c: char) {
    '0' <= c <= '9'
  }

  predicate AllDigits(s: string) {
    forall i :: 0 <= i < |s| ==> IsDigit(s[i])
  }

  function DigitChar(d: nat): (c: char)
    requires d < 10
    ensures IsDigit(c) && c as int - '0' as int == d
  {
    ('0' as int + d) as char
  }

  /** The decimal digits of `n`, most significant first, without leading zeros. */
  function NatToDecimal(n: nat): (s: string)
    ensures |s| >= 1 && AllDigits(s)
    decreases n
  {
    if n < 10 then [DigitChar(n)] else NatToDecimal(n / 10) + [DigitChar(n % 10)]
  }

  /** The value of a string of decimal digits. */
  function DecimalToNat(s: string): nat
    requires AllDigits(s)
  {
    if s == [] then 0 else DecimalToNat(s[..|s| - 1]) * 10 + (s[|s| - 1] as int - '0' as int)
  }

  /** How `string.Format` writes an int: a minus sign before the magnitude when negative. */
  function IntToDecimal(i: int): string {
    if i < 0 then "-" + NatToDecimal(-i) else NatToDecimal(i)
  }

  function ParseDecimal(s: string): Option<int> {
    if |s| >= 2 && s[0] == '-' && AllDigits(s[1..]) then Some(0 - DecimalToNat(s[1..]))
    else if |s| >= 1 && AllDigits(s) then Some(DecimalToNat(s) as int)
    else None
  }

  /** The cache key of the story with id `id`. */
  function KeyOf(id: int): string {
    StoryKeyPrefix + IntToDecimal(id)
  }

  /** The story id a cache key was made from, if it is a story key. */
  function ParseKey(key: string): Option<int> {
    if |key| > |StoryKeyPrefix| && key[..|StoryKeyPrefix|] == StoryKeyPrefix
    then ParseDecimal(key[|StoryKeyPrefix|..])
    else None
  }

  lemma {:induction false} DecimalRoundTrip(n: nat)
    ensures DecimalToNat(NatToDecimal(n)) == n
    decreases n
  {
    if n >= 10 {
      var s := NatToDecimal(n);
      assert s[..|s| - 1] == NatToDecimal(n / 10);
      DecimalRoundTrip(n / 10);
    }
  }

  lemma DecimalIntRoundTrip(i: int)
    ensures ParseDecimal(IntToDecimal(i)) == Some(i)
  {
    var s := IntToDecimal(i);
    if i < 0 {
      assert s[1..] == NatToDecimal(-i);
      DecimalRoundTrip(-i);
    } else {
      assert !IsDigit('-');
      DecimalRoundTrip(i);
    }
  }

  /** Every story key names the id it was made from. */
  lemma KeyRoundTrip(id: int)
    ensures ParseKey(KeyOf(id)) == Some(id)
  {
    var key := KeyOf(id);
    assert key[..|StoryKeyPrefix|] == StoryKeyPrefix;
    assert key[|StoryKeyPrefix|..] == IntToDecimal(id);
    DecimalIntRoundTrip(id);
  }

  /** Distinct stories never share a cache entry. */
  lemma KeyOfInjective(a: int, b: int)
    ensures KeyOf(a) == KeyOf(b) ==> a == b
  {
    KeyRoundTrip(a);
    KeyRoundTrip(b);
  }
}
