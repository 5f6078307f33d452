/**
 PHP's byte-string search functions used by the preset resolver:
 `strpos` (first occurrence of a substring) and `strrpos` with a
 one-character needle (last occurrence of a character). Both return
 `false` in PHP when nothing is found; here that is `None`.
 */
module PhpStrings {
  import opened PhpValues

  /** `needle` occurs in `s` starting at index `i`. */
  predicate OccursAt(s: string, needle: string, i: nat) {
    i + |needle| <= |s| && s[i..i + |needle|] == needle
  }

  /** `needle` occurs somewhere in `s`. */
  ghost predicate Contains(s: string, needle: string) {
    exists i: nat :: OccursAt(s, needle, i)
  }

  /** The first occurrence of `needle` in `s` at or after `from`. */
  function IndexOfFrom(s: string, needle: string, from: nat): (r: Option<nat>)
    ensures r.Some? ==> from <= r.value && OccursAt(s, needle, r.value)
    ensures r.Some? ==> forall j: nat :: from <= j < r.value ==> !OccursAt(s, needle, j)
    ensures r.None? ==> forall j: nat :: from <= j ==> !OccursAt(s, needle, j)
    decreases |s| - from
  {
    if from + |needle| > |s| then None
    else if s[from..from + |needle|] == needle then Some(from)
    else IndexOfFrom(s, needle, from + 1)
  }

  /** `strpos( $s, $needle )`: the first index where `needle` occurs in `s`. */
  function StrPos(s: string, needle: string): (r: Option<nat>)
    ensures r.Some? <==> Contains(s, needle)
    ensures r.Some? ==> OccursAt(s, needle, r.value)
    ensures r.Some? ==> forall j: nat :: j < r.value ==> !OccursAt(s, needle, j)
  {
    IndexOfFrom(s, needle, 0)
  }

  /** `strrpos( $s, $c )` for a single character: the last index holding `c`. */
  function StrRPos(s: string, c: char): (r: Option<nat>)
    ensures r.None? <==> c !in s
    ensures r.Some? ==> r.value < |s| && s[r.value] == c
    ensures r.Some? ==> c !in s[r.value + 1..]
  {
    if s == [] then None
    else if s[|s| - 1] == c then Some(|s| - 1)
    else
      var r := StrRPos(s[..|s| - 1], c);
      assert s == s[..|s| - 1] + [s[|s| - 1]];
      if r.Some? then
        assert s[r.value + 1..] == s[..|s| - 1][r.value + 1..] + [s[|s| - 1]];
        r
      else r
  }

  /** A string holding an occurrence of a needle that ends in `c` holds `c`. */
  lemma OccurrenceEndingInChar(s: string, needle: string, i: nat, c: char)
    requires OccursAt(s, needle, i)
    requires needle != [] && needle[|needle| - 1] == c
    ensures c in s
  {
    assert s[i..i + |needle|][|needle| - 1] == s[i + |needle| - 1];
  }
}
