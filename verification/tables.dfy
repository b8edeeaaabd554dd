/** Tables keyed by an auto-increment integer id, read back in ascending id order. */
module Tables {

  /** Every key of `m` is a natural number below `n`, the next id the table hands out. */
  ghost predicate KeysBelow<V>(m: map<int, V>, n: nat) {
    forall k :: k in m ==> 0 <= k < n
  }

  /** The ids of `m` below `n`, ascending: the row order of an unordered query. */
  function Ids<V>(m: map<int, V>, n: nat): (r: seq<int>)
    ensures forall k :: k in r <==> k in m && 0 <= k < n
    ensures forall i, j :: 0 <= i < j < |r| ==> r[i] < r[j]
    decreases n
  {
    if n == 0 then []
    else
      var prev := Ids(m, n - 1);
      assert forall i :: 0 <= i < |prev| ==> prev[i] in prev;
      prev + (if n - 1 in m then [n - 1] else [])
  }

  /** The ids of `m` that lie in [0, n). */
  ghost function KeysUnder<V>(m: map<int, V>, n: nat): set<int> {
    set k | k in m && 0 <= k < n
  }

  /** Raising the bound to `n` adds the key `n - 1` when the table holds it. */
  lemma KeysUnderWith<V>(m: map<int, V>, n: nat)
    requires 0 < n && n - 1 in m
    ensures |KeysUnder(m, n)| == |KeysUnder(m, n - 1)| + 1
  {
    assert KeysUnder(m, n) == KeysUnder(m, n - 1) + {n - 1} by {
      forall k ensures k in KeysUnder(m, n) <==> k in KeysUnder(m, n - 1) + {n - 1} {
      }
    }
    assert n - 1 !in KeysUnder(m, n - 1);
  }

  /** Raising the bound to `n` past a missing key `n - 1` adds nothing. */
  lemma KeysUnderWithout<V>(m: map<int, V>, n: nat)
    requires 0 < n && n - 1 !in m
    ensures |KeysUnder(m, n)| == |KeysUnder(m, n - 1)|
  {
    assert KeysUnder(m, n) == KeysUnder(m, n - 1) by {
      forall k ensures k in KeysUnder(m, n) <==> k in KeysUnder(m, n - 1) {
      }
    }
  }

  /** Raising the bound to `n` adds one id exactly when the table holds the key `n - 1`. */
  lemma IdsStep<V>(m: map<int, V>, n: nat)
    requires 0 < n
    ensures |Ids(m, n)| == |Ids(m, n - 1)| + (if n - 1 in m then 1 else 0)
  {
  }

  /** The query up to any bound returns as many ids as there are keys under it. */
  lemma {:induction false} IdsCountUnder<V>(m: map<int, V>, n: nat)
    ensures |Ids(m, n)| == |KeysUnder(m, n)|
    decreases n
  {
    if n > 0 {
      IdsCountUnder(m, n - 1);
      IdsStep(m, n);
      if n - 1 in m {
        KeysUnderWith(m, n);
      } else {
        KeysUnderWithout(m, n);
      }
    } else {
      assert KeysUnder(m, 0) == {};
    }
  }

  /** When every key lies below `n`, the query returns each row once: as many ids as rows. */
  lemma IdsCount<V>(m: map<int, V>, n: nat)
    requires KeysBelow(m, n)
    ensures |Ids(m, n)| == |m|
  {
    IdsCountUnder(m, n);
    assert KeysUnder(m, n) == m.Keys;
  }

  /** The rows of `m` named by `ids`, in that order. */
  function Rows<V>(m: map<int, V>, ids: seq<int>): (r: seq<V>)
    requires forall i :: 0 <= i < |ids| ==> ids[i] in m
    ensures |r| == |ids|
    ensures forall i :: 0 <= i < |ids| ==> r[i] == m[ids[i]]
  {
    seq(|ids|, i requires 0 <= i < |ids| => m[ids[i]])
  }
}
