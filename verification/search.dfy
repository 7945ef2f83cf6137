/** The search box shared by every list screen:
    `field.toLowerCase().includes(term.toLowerCase())`. */
module Search {

  /** Lower-cases the ASCII capitals and leaves every other character alone. */
  function LowerChar(c: char): char
  {
    if 'A' <= c <= 'Z' then (c as int + 32) as char else c
  }

  predicate IsUpper(c: char)
  {
    'A' <= c <= 'Z'
  }

  /** `s.toLowerCase()` restricted to ASCII: same length, no capitals left,
      every capital replaced by its own lower-case letter (32 code points
      on), and every character that was not a capital kept. */
  function Lower(s: string): (r: string)
    ensures |r| == |s|
    ensures forall i :: 0 <= i < |r| ==> !IsUpper(r[i])
    ensures forall i :: 0 <= i < |s| && IsUpper(s[i]) ==> r[i] as int == s[i] as int + 32 && 'a' <= r[i] <= 'z'
    ensures forall i :: 0 <= i < |s| && !IsUpper(s[i]) ==> r[i] == s[i]
  {
    seq(|s|, i requires 0 <= i < |s| => LowerChar(s[i]))
  }

  /** Lower-casing a lower-cased string changes nothing. */
  lemma LowerIdempotent(s: string)
    ensures Lower(Lower(s)) == Lower(s)
  {
  }

  /** `n` occurs in `h` starting at position `i`. */
  ghost predicate OccursAt(h: string, n: string, i: int)
  {
    0 <= i && i + |n| <= |h| && h[i..i + |n|] == n
  }

  /** An occurrence in `h[1..]` is an occurrence in `h` one position later. */
  lemma OccursShift(h: string, n: string, i: int)
    requires |h| > 0 && 0 <= i
    ensures OccursAt(h[1..], n, i) <==> OccursAt(h, n, i + 1)
  {
    if i + |n| <= |h| - 1 {
      assert h[1..][i..i + |n|] == h[i + 1..i + 1 + |n|];
    }
  }

  lemma IncludesStep(h: string, n: string)
    requires |h| > 0
    ensures (exists i :: OccursAt(h, n, i)) <==> OccursAt(h, n, 0) || exists i :: OccursAt(h[1..], n, i)
  {
    if exists i :: OccursAt(h, n, i) {
      var i :| OccursAt(h, n, i);
      if i > 0 {
        OccursShift(h, n, i - 1);
      }
    }
    if exists i :: OccursAt(h[1..], n, i) {
      var i :| OccursAt(h[1..], n, i);
      OccursShift(h, n, i);
    }
  }

  /** `h.includes(n)`: scans `h` from the left for an occurrence of `n`. */
  function Includes(h: string, n: string): (r: bool)
    ensures r <==> exists i :: OccursAt(h, n, i)
    decreases |h|
  {
    if |n| <= |h| && h[..|n|] == n then
      assert OccursAt(h, n, 0);
      true
    else if |h| == 0 then
      false
    else
      IncludesStep(h, n);
      Includes(h[1..], n)
  }

  /** The case-insensitive substring test every filter uses. */
  predicate Matches(field: string, term: string)
  {
    Includes(Lower(field), Lower(term))
  }

  /** An empty search term matches every field. */
  lemma EmptyTermMatches(field: string)
    ensures Matches(field, "")
  {
    assert OccursAt(Lower(field), Lower(""), 0);
  }

  /** Matching ignores the case of both the field and the term, and a field
      always matches its own text. */
  lemma MatchesIgnoresCase(field: string, term: string)
    ensures Matches(field, term) == Matches(Lower(field), term)
    ensures Matches(field, term) == Matches(field, Lower(term))
    ensures Matches(field, field)
  {
    LowerIdempotent(field);
    LowerIdempotent(term);
    assert Lower(field)[0..|Lower(field)|] == Lower(field);
    assert OccursAt(Lower(field), Lower(field), 0);
  }
}
