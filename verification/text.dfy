/**
 * Name matching for search: the SQL `name ILIKE '%' || term || '%'` test,
 * taken as "the lower-cased term is a substring of the lower-cased name",
 * with ASCII case folding.
 */
module Text {

  function LowerChar(c: char): char {
    if 'A' <= c <= 'Z' then (c as int - 'A' as int + 'a' as int) as char else c
  }

  function Lower(s: string): (r: string)
    ensures |r| == |s|
    ensures forall i :: 0 <= i < |s| ==> !('A' <= r[i] <= 'Z')
    ensures forall i :: 0 <= i < |s| && !('A' <= s[i] <= 'Z') ==> r[i] == s[i]
  {
    seq(|s|, i requires 0 <= i < |s| => LowerChar(s[i]))
  }

  /** `t` occurs in `s` starting at position `i`. */
  predicate OccursAt(s: string, t: string, i: int) {
    0 <= i <= |s| - |t| && s[i..i + |t|] == t
  }

  /** `t` occurs in `s` as a contiguous piece. */
  predicate Contains(s: string, t: string) {
    exists i | 0 <= i <= |s| - |t| :: OccursAt(s, t, i)
  }

  /** Case-insensitive substring match of `term` in `name`. */
  predicate ILike(name: string, term: string) {
    Contains(Lower(name), Lower(term))
  }

  /** The empty search term matches every name. */
  lemma EmptyTermMatches(name: string)
    ensures ILike(name, "")
  {
    assert OccursAt(Lower(name), Lower(""), 0);
  }

  /** Lower-casing is idempotent. */
  lemma LowerIdempotent(s: string)
    ensures Lower(Lower(s)) == Lower(s)
  {
    assert forall i :: 0 <= i < |s| ==> LowerChar(LowerChar(s[i])) == LowerChar(s[i]);
  }

  /** The match ignores the case of both the term and the name. */
  lemma ILikeIgnoresCase(name: string, term: string)
    ensures ILike(name, term) <==> ILike(Lower(name), Lower(term))
  {
    LowerIdempotent(name);
    LowerIdempotent(term);
  }

  /** A term matches every name that contains it literally. */
  lemma {:induction false} ContainedMatches(name: string, term: string, i: nat)
    requires i + |term| <= |name| && name[i..i + |term|] == term
    ensures ILike(name, term)
  {
    assert OccursAt(Lower(name), Lower(term), i);
  }

  /** "hop" finds "The Musical Hop"; "Music" finds it and "Park Square Live Music & Coffee". */
  lemma VenueSearchExamples()
    ensures ILike("The Musical Hop", "hop")
    ensures ILike("The Musical Hop", "Music")
    ensures ILike("Park Square Live Music & Coffee", "Music")
  {
    assert OccursAt(Lower("The Musical Hop"), Lower("hop"), 12);
    assert OccursAt(Lower("The Musical Hop"), Lower("Music"), 4);
    assert OccursAt(Lower("Park Square Live Music & Coffee"), Lower("Music"), 17);
  }

  /** "A" finds "Guns N Petals", "Matt Quevado" and "The Wild Sax Band"; "band" finds the last. */
  lemma ArtistSearchExamples()
    ensures ILike("Guns N Petals", "A")
    ensures ILike("Matt Quevado", "A")
    ensures ILike("The Wild Sax Band", "A")
    ensures ILike("The Wild Sax Band", "band")
  {
    assert OccursAt(Lower("Guns N Petals"), Lower("A"), 10);
    assert OccursAt(Lower("Matt Quevado"), Lower("A"), 1);
    assert OccursAt(Lower("The Wild Sax Band"), Lower("A"), 10);
    assert OccursAt(Lower("The Wild Sax Band"), Lower("band"), 13);
  }
}
