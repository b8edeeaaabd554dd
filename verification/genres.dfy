/**
 * Genre tags are stored as one text column: the tag list joined with ", " on
 * write and split on ", " on read, with the semantics of Python's
 * `", ".join(...)` and `str.split(", ")`.
 */
module Genres {

  /** The separator ", " starts at position `j` of `s`. */
  predicate SepAt(s: string, j: int) {
    0 <= j && j + 1 < |s| && s[j] == ',' && s[j + 1] == ' '
  }

  /** `t` does not contain the separator, so it can be stored as one tag. */
  predicate NoSep(t: string) {
    forall j :: 0 <= j < |t| ==> !SepAt(t, j)
  }

  /** `", ".join(tags)`. */
  function Join(tags: seq<string>): (r: string)
    ensures tags != [] ==> tags[0] <= r
  {
    if tags == [] then ""
    else if |tags| == 1 then tags[0]
    else tags[0] + ", " + Join(tags[1..])
  }

  /** `s.split(", ")`: scan left to right, cutting at each separator not overlapping an earlier one. */
  function Split(s: string): (r: seq<string>)
    ensures |r| >= 1
  {
    SplitFrom(s, "")
  }

  /** Splitting the rest `s` of a string whose current piece so far is `cur`. */
  function SplitFrom(s: string, cur: string): (r: seq<string>)
    ensures |r| >= 1
    decreases |s|
  {
    if SepAt(s, 0) then [cur] + SplitFrom(s[2..], "")
    else if s == [] then [cur]
    else SplitFrom(s[1..], cur + [s[0]])
  }

  /** The first `k` characters of `u` hold no separator start, so they accumulate into the current piece. */
  lemma {:induction false} SkipPlain(u: string, k: nat, cur: string)
    requires k <= |u|
    requires forall j :: 0 <= j < k ==> !SepAt(u, j)
    ensures SplitFrom(u, cur) == SplitFrom(u[k..], cur + u[..k])
    decreases k
  {
    if k == 0 {
      assert u[0..] == u;
      assert cur + u[..0] == cur;
    } else {
      assert !SepAt(u, 0);
      var u' := u[1..];
      forall j | 0 <= j < k - 1 ensures !SepAt(u', j) {
        assert !SepAt(u, j + 1);
      }
      SkipPlain(u', k - 1, cur + [u[0]]);
      assert u'[k - 1..] == u[k..];
      assert cur + [u[0]] + u'[..k - 1] == cur + u[..k];
    }
  }

  /**
   * Round trip: a non-empty list of tags none of which contains ", " reads back
   * unchanged after being stored.
   */
  lemma {:induction false} SplitJoin(tags: seq<string>)
    requires |tags| >= 1
    requires forall i :: 0 <= i < |tags| ==> NoSep(tags[i])
    ensures Split(Join(tags)) == tags
    decreases |tags|
  {
    var t := tags[0];
    assert NoSep(t);
    if |tags| == 1 {
      assert Join(tags) == t;
      SkipPlain(t, |t|, "");
      assert t[|t|..] == "" && "" + t[..|t|] == t;
      assert SplitFrom("", t) == [t];
      assert tags == [t];
    } else {
      var rest := Join(tags[1..]);
      var u := t + ", " + rest;
      assert Join(tags) == u;
      forall j | 0 <= j < |t| ensures !SepAt(u, j) {
        if j + 1 < |t| {
          assert !SepAt(t, j);
          assert u[j] == t[j] && u[j + 1] == t[j + 1];
        } else {
          assert u[j + 1] == ',';
        }
      }
      SkipPlain(u, |t|, "");
      assert "" + u[..|t|] == t;
      assert u[|t|..] == ", " + rest;
      assert SepAt(", " + rest, 0);
      assert (", " + rest)[2..] == rest;
      SplitJoin(tags[1..]);
      calc {
        Split(Join(tags));
        SplitFrom(u, "");
        SplitFrom(", " + rest, t);
        [t] + SplitFrom(rest, "");
        [t] + tags[1..];
        tags;
      }
    }
  }

  /** The other direction holds for every stored string: joining what was split restores it. */
  lemma {:induction false} JoinSplitFrom(s: string, cur: string)
    ensures Join(SplitFrom(s, cur)) == cur + s
    decreases |s|
  {
    if SepAt(s, 0) {
      JoinSplitFrom(s[2..], "");
      assert s == ", " + s[2..];
    } else if s == [] {
    } else {
      JoinSplitFrom(s[1..], cur + [s[0]]);
      assert s == [s[0]] + s[1..];
    }
  }

  lemma JoinSplit(s: string)
    ensures Join(Split(s)) == s
  {
    JoinSplitFrom(s, "");
  }

  /** An empty tag list is stored as "" and reads back as one empty tag, not as an empty list. */
  lemma EmptyTagsReadBackAsOneEmptyTag()
    ensures Join([]) == "" && Split(Join([])) == [""]
  {
  }
}
