/** The optional title filter of GetNewestStoriesAsync: a story is kept when
    its title contains the filter text under ordinal case-insensitive
    comparison, which compares characters after upper-casing them (ASCII
    letters only in this model). */
module TitleFilter {
  import opened Models

  function ToUpperAscii(c: char): char {
    if 'a' <= c <= 'z' then (c as int - 32) as char else c
  }

  /** `value` occurs in `text` at index `i`, ignoring case. */
  ghost predicate OccursAt(text: string, value: string, i: int)
    requires 0 <= i && i + |value| <= |text|
  {
    forall j :: 0 <= j < |value| ==> ToUpperAscii(text[i + j]) == ToUpperAscii(value[j])
  }

  function StartsWithIgnoreCase(text: string, value: string): (b: bool)
    ensures b <==> |value| <= |text| && OccursAt(text, value, 0)
  {
    if value == [] then true
    else if text == [] then false
    else
      assert forall j :: 1 <= j < |value| && |value| <= |text| ==>
        text[j] == text[1..][j - 1] && value[j] == value[1..][j - 1];
      ToUpperAscii(text[0]) == ToUpperAscii(value[0]) && StartsWithIgnoreCase(text[1..], value[1..])
  }

  /** `string.Contains(value, StringComparison.OrdinalIgnoreCase)`. */
  function ContainsIgnoreCase(text: string, value: string): (b: bool)
    ensures b <==> exists i :: 0 <= i && i + |value| <= |text| && OccursAt(text, value, i)
    decreases |text|
  {
    if |value| > |text| then false
    else
      OccursAfterFirst(text, value);
      StartsWithIgnoreCase(text, value) || ContainsIgnoreCase(text[1..], value)
  }

  /** An occurrence is at the first index or is an occurrence in the rest. */
  lemma OccursAfterFirst(text: string, value: string)
    requires |value| <= |text|
    ensures (exists i :: 0 <= i && i + |value| <= |text| && OccursAt(text, value, i)) <==>
            (OccursAt(text, value, 0) ||
             exists i :: 0 <= i && i + |value| <= |text[1..]| && OccursAt(text[1..], value, i))
  {
    forall i | 0 <= i && i + |value| <= |text| - 1
      ensures OccursAt(text[1..], value, i) <==> OccursAt(text, value, i + 1)
    {
    }
    if exists i :: 0 <= i && i + |value| <= |text| && OccursAt(text, value, i) {
      var i :| 0 <= i && i + |value| <= |text| && OccursAt(text, value, i);
      if i > 0 {
        assert OccursAt(text[1..], value, i - 1);
      }
    }
  }

  function TitleMatches(s: Story, value: string): bool {
    ContainsIgnoreCase(s.title, value)
  }

  /** The `Where` of lines 49-50: the stories whose title contains `value`, in order. */
  function KeepMatching(stories: seq<Story>, value: string): (r: seq<Story>)
    ensures |r| <= |stories|
  {
    if stories == [] then []
    else (if TitleMatches(stories[0], value) then [stories[0]] else [])
         + KeepMatching(stories[1..], value)
  }

  /** The filter keeps exactly the stories whose title contains `value`. */
  lemma {:induction false} KeepMatchingSelects(stories: seq<Story>, value: string)
    ensures forall s :: s in KeepMatching(stories, value) <==> s in stories && TitleMatches(s, value)
    decreases |stories|
  {
    if stories != [] {
      KeepMatchingSelects(stories[1..], value);
      assert stories == [stories[0]] + stories[1..];
    }
  }

  /** Lines 47-51: a null or empty filter keeps every story. */
  function FilterByTitle(stories: seq<Story>, title: Option<string>): seq<Story> {
    if title.None? || title.value == [] then stories else KeepMatching(stories, title.value)
  }

  /** Filtering keeps the relative order of the stories: filtering a
      concatenation is concatenating the filtered parts. */
  lemma {:induction false} KeepMatchingConcat(a: seq<Story>, b: seq<Story>, value: string)
    ensures KeepMatching(a + b, value) == KeepMatching(a, value) + KeepMatching(b, value)
    decreases |a|
  {
    if a == [] {
      assert a + b == b;
    } else {
      var head := if TitleMatches(a[0], value) then [a[0]] else [];
      KeepMatchingConcat(a[1..], b, value);
      assert KeepMatching(a + b, value) == head + KeepMatching(a[1..] + b, value) by {
        assert (a + b)[0] == a[0];
        assert (a + b)[1..] == a[1..] + b;
      }
      assert head + (KeepMatching(a[1..], value) + KeepMatching(b, value))
          == (head + KeepMatching(a[1..], value)) + KeepMatching(b, value);
    }
  }

  /** When every title contains the filter, nothing is dropped. */
  lemma {:induction false} KeepMatchingAll(stories: seq<Story>, value: string)
    requires forall s :: s in stories ==> TitleMatches(s, value)
    ensures KeepMatching(stories, value) == stories
    decreases |stories|
  {
    if stories != [] {
      assert forall s :: s in stories[1..] ==> s in stories;
      KeepMatchingAll(stories[1..], value);
    }
  }

  /** When no title contains the filter, nothing is kept. */
  lemma {:induction false} NoTitleMatches(stories: seq<Story>, value: string)
    requires forall s :: s in stories ==> !TitleMatches(s, value)
    ensures KeepMatching(stories, value) == []
    decreases |stories|
  {
    if stories != [] {
      assert stories[0] in stories;
      assert forall s :: s in stories[1..] ==> s in stories;
      NoTitleMatches(stories[1..], value);
    }
  }

  /** The filter drops exactly the stories whose title does not contain the
      filter: kept and dropped together are the input, counted with multiplicity. */
  lemma {:induction false} KeepMatchingPartition(stories: seq<Story>, value: string)
    ensures multiset(KeepMatching(stories, value)) + multiset(KeepNonMatching(stories, value))
            == multiset(stories)
    decreases |stories|
  {
    if stories != [] {
      assert stories == [stories[0]] + stories[1..];
      KeepMatchingPartition(stories[1..], value);
      assert multiset(stories) == multiset{stories[0]} + multiset(stories[1..]);
    }
  }

  /** The number of positions in `stories` whose title contains `value`. */
  function CountMatching(stories: seq<Story>, value: string): nat {
    if stories == [] then 0
    else (if TitleMatches(stories[0], value) then 1 else 0) + CountMatching(stories[1..], value)
  }

  /** The filter keeps one story for every matching position, duplicates included. */
  lemma {:induction false} KeepMatchingCount(stories: seq<Story>, value: string)
    ensures |KeepMatching(stories, value)| == CountMatching(stories, value)
    decreases |stories|
  {
    if stories != [] {
      KeepMatchingCount(stories[1..], value);
    }
  }

  /** The stories the filter drops, in order. */
  function KeepNonMatching(stories: seq<Story>, value: string): (r: seq<Story>)
    ensures forall s :: s in r ==> !TitleMatches(s, value)
  {
    if stories == [] then []
    else (if TitleMatches(stories[0], value) then [] else [stories[0]])
         + KeepNonMatching(stories[1..], value)
  }
}
