/**
 * The string operations the data layer relies on: SQLite's `LIKE` compares ASCII
 * letters without regard to case, and Python's `str.endswith` tests a suffix.
 */
module Text {
  predicate IsUpper(c: char)
  {
    'A' <= c <= 'Z'
  }

  /** Fold one ASCII upper-case letter to lower case; every other character is kept. */
  function LowerChar(c: char): (d: char)
    ensures !IsUpper(d)
    ensures IsUpper(c) ==> 'a' <= d <= 'z' && d as int - c as int == 32
    ensures !IsUpper(c) ==> d == c
  {
    if IsUpper(c) then (c as int + 32) as char else c
  }

  function Lower(s: string): (t: string)
    ensures |t| == |s|
    ensures forall i :: 0 <= i < |s| ==> t[i] == LowerChar(s[i])
  {
    seq(|s|, i requires 0 <= i < |s| => LowerChar(s[i]))
  }

  /** `needle` occurs in `hay` at offset i, ASCII case-insensitively. */
  predicate OccursAt(hay: string, needle: string, i: int)
  {
    0 <= i && i + |needle| <= |hay| && Lower(hay[i..i + |needle|]) == Lower(needle)
  }

  /** `hay LIKE '%needle%'` for a pattern with no wildcard characters of its own. */
  predicate ContainsIgnoreCase(hay: string, needle: string)
  {
    exists i :: 0 <= i <= |hay| - |needle| && OccursAt(hay, needle, i)
  }

  predicate EndsWith(s: string, suffix: string)
  {
    |suffix| <= |s| && s[|s| - |suffix|..] == suffix
  }

  /** Matching ignores case on both sides: re-casing the pattern changes nothing. */
  lemma {:induction false} ContainsIgnoresPatternCase(hay: string, needle: string)
    ensures ContainsIgnoreCase(hay, needle) <==> ContainsIgnoreCase(hay, Lower(needle))
  {
    assert Lower(Lower(needle)) == Lower(needle) by {
      forall i | 0 <= i < |needle|
        ensures Lower(Lower(needle))[i] == Lower(needle)[i]
      {
      }
    }
    if ContainsIgnoreCase(hay, needle) {
      var i :| 0 <= i <= |hay| - |needle| && OccursAt(hay, needle, i);
      assert Lower(hay[i..i + |needle|]) == Lower(needle);
      assert OccursAt(hay, Lower(needle), i);
    }
    if ContainsIgnoreCase(hay, Lower(needle)) {
      var i :| 0 <= i <= |hay| - |Lower(needle)| && OccursAt(hay, Lower(needle), i);
      assert Lower(hay[i..i + |needle|]) == Lower(Lower(needle));
      assert OccursAt(hay, needle, i);
    }
  }
}
