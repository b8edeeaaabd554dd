/**
 * Shows and their classification against the reference instant `now`: a show
 * is upcoming when its start time is not before `now`, and past otherwise.
 */
module Schedule {
  import opened Seqs

  /** A `Show` row: when it starts and the artist and venue it links. */
  datatype Show = Show(startTime: int, artistId: int, venueId: int)

  predicate IsUpcoming(s: Show, now: int) {
    s.startTime >= now
  }

  /** The upcoming shows of `ss`, in order. */
  function Upcoming(ss: seq<Show>, now: int): seq<Show> {
    Filter(ss, (s: Show) => IsUpcoming(s, now))
  }

  /** The past shows of `ss`, in order. */
  function Past(ss: seq<Show>, now: int): seq<Show> {
    Filter(ss, (s: Show) => !IsUpcoming(s, now))
  }

  /** Extending the list of shows by one extends exactly one of the two buckets by that show. */
  lemma ClassifyNext(ss: seq<Show>, s: Show, now: int)
    ensures IsUpcoming(s, now) ==> Upcoming(ss + [s], now) == Upcoming(ss, now) + [s]
    ensures IsUpcoming(s, now) ==> Past(ss + [s], now) == Past(ss, now)
    ensures !IsUpcoming(s, now) ==> Upcoming(ss + [s], now) == Upcoming(ss, now)
    ensures !IsUpcoming(s, now) ==> Past(ss + [s], now) == Past(ss, now) + [s]
  {
    assert (ss + [s])[..|ss|] == ss;
    assert Upcoming(ss, now) + [] == Upcoming(ss, now);
    assert Past(ss, now) + [] == Past(ss, now);
  }

  /** A show is upcoming exactly when it starts at or after `now`, past exactly when it starts before. */
  lemma BucketMembers(ss: seq<Show>, now: int)
    ensures forall s :: s in Upcoming(ss, now) <==> s in ss && s.startTime >= now
    ensures forall s :: s in Past(ss, now) <==> s in ss && s.startTime < now
  {
  }

  /**
   * Past and upcoming partition a list of shows: every show lands in exactly
   * one bucket (counting repeats), and the two counts add up to the total.
   */
  lemma {:induction false} TimePartition(ss: seq<Show>, now: int)
    ensures multiset(Upcoming(ss, now)) + multiset(Past(ss, now)) == multiset(ss)
    ensures |Upcoming(ss, now)| + |Past(ss, now)| == |ss|
    decreases |ss|
  {
    if ss != [] {
      var ss' := ss[..|ss| - 1];
      var s := ss[|ss| - 1];
      assert ss == ss' + [s];
      TimePartition(ss', now);
      ClassifyNext(ss', s, now);
    }
  }

  /** The loop behind each `num_upcoming_shows` counter: counts the shows that have not yet started. */
  method CountUpcoming(ss: seq<Show>, now: int) returns (n: nat)
    ensures n == |Upcoming(ss, now)|
    ensures n == |ss| - |Past(ss, now)|
  {
    n := 0;
    var i := 0;
    while i < |ss|
      invariant 0 <= i <= |ss|
      invariant n == |Upcoming(ss[..i], now)|
    {
      ClassifyNext(ss[..i], ss[i], now);
      assert ss[..i + 1] == ss[..i] + [ss[i]];
      if ss[i].startTime >= now {
        n := n + 1;
      }
      i := i + 1;
    }
    assert ss[..i] == ss;
    TimePartition(ss, now);
  }

  /** `Show.query.filter_by(venue_id=v)`: the shows at venue `v`, in row order. */
  function AtVenue(ss: seq<Show>, v: int): (r: seq<Show>)
    ensures forall s :: s in r <==> s in ss && s.venueId == v
  {
    Filter(ss, (s: Show) => s.venueId == v)
  }

  /** `Show.query.filter_by(artist_id=a)`: the shows of artist `a`, in row order. */
  function ByArtist(ss: seq<Show>, a: int): (r: seq<Show>)
    ensures forall s :: s in r <==> s in ss && s.artistId == a
  {
    Filter(ss, (s: Show) => s.artistId == a)
  }

  /** Shows in non-decreasing order of start time. */
  predicate SortedByStart(ss: seq<Show>) {
    forall i, j :: 0 <= i < j < |ss| ==> ss[i].startTime <= ss[j].startTime
  }

  /** A show starting no earlier than every show of a sorted list may follow them. */
  lemma SortedAppend(ss: seq<Show>, last: Show)
    requires SortedByStart(ss)
    requires forall x :: x in ss ==> x.startTime <= last.startTime
    ensures SortedByStart(ss + [last])
  {
    assert forall i :: 0 <= i < |ss| ==> (ss + [last])[i] == ss[i] && ss[i] in ss;
  }

  /** Insert `s` into the sorted `ss` after every show that starts no later than it. */
  function Insert(ss: seq<Show>, s: Show): (r: seq<Show>)
    requires SortedByStart(ss)
    ensures SortedByStart(r)
    ensures multiset(r) == multiset(ss) + multiset{s}
    ensures forall x :: x in r <==> x in ss || x == s
    decreases |ss|
  {
    if ss == [] then [s]
    else if ss[|ss| - 1].startTime <= s.startTime then
      SortedAppend(ss, s);
      ss + [s]
    else
      var init, last := ss[..|ss| - 1], ss[|ss| - 1];
      assert ss == init + [last];
      assert forall x :: x in init ==> x.startTime <= last.startTime;
      var r := Insert(init, s);
      SortedAppend(r, last);
      r + [last]
  }

  /** `Show.query.order_by('start_time')`: a stable sort of the rows by start time. */
  function SortByStart(ss: seq<Show>): (r: seq<Show>)
    ensures SortedByStart(r)
    ensures multiset(r) == multiset(ss)
    ensures forall x :: x in r <==> x in ss
    decreases |ss|
  {
    if ss == [] then []
    else
      assert ss == ss[..|ss| - 1] + [ss[|ss| - 1]];
      Insert(SortByStart(ss[..|ss| - 1]), ss[|ss| - 1])
  }
}
