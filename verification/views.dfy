/**
 * What the read handlers return, as functions of the three tables: the venue
 * listing grouped by location, name search, the venue and artist detail pages
 * and the show listing. The store's methods compute these with loops; the
 * lemmas here state what the results mean.
 */
module Views {
  import opened Wrappers
  import opened Seqs
  import opened Tables
  import opened Genres
  import opened Text
  import opened Schedule
  import opened Records

  datatype Location = Location(city: string, state: string)

  /** One line of a listing or search result: a row's id, name and number of upcoming shows. */
  datatype Summary = Summary(id: int, name: string, numUpcomingShows: nat)

  /** The venues of one (city, state) pair. */
  datatype Area = Area(city: string, state: string, venues: seq<Summary>)

  datatype SearchResult = SearchResult(count: nat, data: seq<Summary>)

  /** A show on a venue's page, joined to its artist. */
  datatype ArtistSlot = ArtistSlot(artistId: int, artistName: string, artistImageLink: string, startTime: int)

  /** A show on an artist's page, joined to its venue. */
  datatype VenueSlot = VenueSlot(venueId: int, venueName: string, venueImageLink: string, startTime: int)

  datatype VenueDetail = VenueDetail(
    id: int, name: string, genres: seq<string>, address: string, city: string, state: string,
    phone: string, website: string, facebookLink: string, seekingTalent: bool,
    seekingDescription: string, imageLink: string,
    pastShows: seq<ArtistSlot>, upcomingShows: seq<ArtistSlot>,
    pastShowsCount: nat, upcomingShowsCount: nat)

  datatype ArtistDetail = ArtistDetail(
    id: int, name: string, genres: seq<string>, city: string, state: string,
    phone: string, website: string, facebookLink: string, seekingVenue: bool,
    seekingDescription: string, imageLink: string,
    pastShows: seq<VenueSlot>, upcomingShows: seq<VenueSlot>,
    pastShowsCount: nat, upcomingShowsCount: nat)

  /** A line of the show listing. */
  datatype ShowListing = ShowListing(
    venueId: int, venueName: string, artistId: int, artistName: string,
    artistImageLink: string, startTime: int)

  /** Every id of `ids` names a row of `m`. */
  predicate AllIn<V>(ids: seq<int>, m: map<int, V>) {
    forall i :: 0 <= i < |ids| ==> ids[i] in m
  }

  function IdsOf(s: seq<Summary>): seq<int> {
    seq(|s|, i requires 0 <= i < |s| => s[i].id)
  }

  // ---------------------------------------------------------------- summaries

  /** Number of upcoming shows at venue `id`. */
  function VenueUpcoming(ss: seq<Show>, id: int, now: int): nat {
    |Upcoming(AtVenue(ss, id), now)|
  }

  /** Number of upcoming shows of artist `id`. */
  function ArtistUpcoming(ss: seq<Show>, id: int, now: int): nat {
    |Upcoming(ByArtist(ss, id), now)|
  }

  function VenueSummaries(venues: map<int, Venue>, ids: seq<int>, ss: seq<Show>, now: int): seq<Summary>
    requires AllIn(ids, venues)
  {
    seq(|ids|, i requires 0 <= i < |ids| => Summary(ids[i], venues[ids[i]].name, VenueUpcoming(ss, ids[i], now)))
  }

  function ArtistSummaries(artists: map<int, Artist>, ids: seq<int>, ss: seq<Show>, now: int): seq<Summary>
    requires AllIn(ids, artists)
  {
    seq(|ids|, i requires 0 <= i < |ids| => Summary(ids[i], artists[ids[i]].name, ArtistUpcoming(ss, ids[i], now)))
  }

  /**
   * Each listed count is the number of that row's shows that start at or after
   * `now`; the shows before `now` make up the rest.
   */
  lemma UpcomingCountsAreExact(ss: seq<Show>, id: int, now: int)
    ensures VenueUpcoming(ss, id, now) + |Past(AtVenue(ss, id), now)| == |AtVenue(ss, id)|
    ensures ArtistUpcoming(ss, id, now) + |Past(ByArtist(ss, id), now)| == |ByArtist(ss, id)|
    ensures forall s :: s in Upcoming(AtVenue(ss, id), now) <==> s in ss && s.venueId == id && s.startTime >= now
    ensures forall s :: s in Upcoming(ByArtist(ss, id), now) <==> s in ss && s.artistId == id && s.startTime >= now
  {
    TimePartition(AtVenue(ss, id), now);
    TimePartition(ByArtist(ss, id), now);
  }

  // ---------------------------------------------------------------- venue listing

  function LocOf(v: Venue): Location {
    Location(v.city, v.state)
  }

  /**
   * `SELECT DISTINCT city, state FROM Venue`: the locations of the venues
   * named by `ids`, each once, in order of first appearance.
   */
  function Locations(venues: map<int, Venue>, ids: seq<int>): (r: seq<Location>)
    requires AllIn(ids, venues)
    ensures Distinct(r)
    ensures forall i :: 0 <= i < |ids| ==> LocOf(venues[ids[i]]) in r
    ensures forall loc :: loc in r ==> exists i :: 0 <= i < |ids| && LocOf(venues[ids[i]]) == loc
    decreases |ids|
  {
    if ids == [] then []
    else
      var init := ids[..|ids| - 1];
      var prev := Locations(venues, init);
      var loc := LocOf(venues[ids[|ids| - 1]]);
      assert forall i :: 0 <= i < |init| ==> init[i] == ids[i];
      if loc in prev then prev else prev + [loc]
  }

  /** `Venue.query.filter_by(city=…, state=…)`: the venues at `loc`, in row order. */
  function VenuesAt(venues: map<int, Venue>, ids: seq<int>, loc: Location): (r: seq<int>)
    ensures AllIn(r, venues)
  {
    var r := Filter(ids, (id: int) => id in venues && LocOf(venues[id]) == loc);
    assert forall i :: 0 <= i < |r| ==> r[i] in r;
    r
  }

  function AreaAt(venues: map<int, Venue>, ids: seq<int>, ss: seq<Show>, now: int, loc: Location): Area {
    Area(loc.city, loc.state, VenueSummaries(venues, VenuesAt(venues, ids, loc), ss, now))
  }

  /** The venue listing: one area per distinct location. */
  function VenueAreas(venues: map<int, Venue>, ids: seq<int>, ss: seq<Show>, now: int): seq<Area>
    requires AllIn(ids, venues)
  {
    var locs := Locations(venues, ids);
    seq(|locs|, i requires 0 <= i < |locs| => AreaAt(venues, ids, ss, now, locs[i]))
  }

  function AreaLoc(a: Area): Location {
    Location(a.city, a.state)
  }

  /** No two areas of the listing share a (city, state) key. */
  lemma AreaKeysDistinct(venues: map<int, Venue>, ids: seq<int>, ss: seq<Show>, now: int)
    requires AllIn(ids, venues)
    ensures var r := VenueAreas(venues, ids, ss, now);
      forall i, j :: 0 <= i < j < |r| ==> AreaLoc(r[i]) != AreaLoc(r[j])
  {
    var locs := Locations(venues, ids);
    var r := VenueAreas(venues, ids, ss, now);
    assert forall i :: 0 <= i < |r| ==> AreaLoc(r[i]) == locs[i];
  }

  /**
   * The listing partitions the venues: every venue is listed in the area of
   * its own city and state and in no other, and every listed entry is a venue
   * of that area with its name and upcoming-show count.
   */
  lemma {:induction false} AreasPartitionVenues(venues: map<int, Venue>, ids: seq<int>, ss: seq<Show>, now: int)
    requires AllIn(ids, venues)
    ensures var r := VenueAreas(venues, ids, ss, now);
      && (forall k :: k in ids ==> exists i :: 0 <= i < |r| && AreaLoc(r[i]) == LocOf(venues[k]))
      && (forall i, k :: 0 <= i < |r| && k in ids ==>
            (k in IdsOf(r[i].venues) <==> AreaLoc(r[i]) == LocOf(venues[k])))
      && (forall i, j :: 0 <= i < |r| && 0 <= j < |r[i].venues| ==>
            var e := r[i].venues[j];
            && e.id in ids && e.id in venues
            && LocOf(venues[e.id]) == AreaLoc(r[i])
            && e.name == venues[e.id].name
            && e.numUpcomingShows == VenueUpcoming(ss, e.id, now))
  {
    var locs := Locations(venues, ids);
    var r := VenueAreas(venues, ids, ss, now);
    forall k | k in ids
      ensures exists i :: 0 <= i < |r| && AreaLoc(r[i]) == LocOf(venues[k])
    {
      var n :| 0 <= n < |ids| && ids[n] == k;
      var i :| 0 <= i < |locs| && locs[i] == LocOf(venues[ids[n]]);
      assert AreaLoc(r[i]) == locs[i];
    }
    forall i, k | 0 <= i < |r| && k in ids
      ensures k in IdsOf(r[i].venues) <==> AreaLoc(r[i]) == LocOf(venues[k])
    {
      var at := VenuesAt(venues, ids, locs[i]);
      assert IdsOf(r[i].venues) == at;
    }
    forall i, j | 0 <= i < |r| && 0 <= j < |r[i].venues|
      ensures var e := r[i].venues[j];
            && e.id in ids && e.id in venues
            && LocOf(venues[e.id]) == AreaLoc(r[i])
            && e.name == venues[e.id].name
            && e.numUpcomingShows == VenueUpcoming(ss, e.id, now)
    {
      var at := VenuesAt(venues, ids, locs[i]);
      assert r[i].venues[j].id == at[j];
      assert at[j] in at;
    }
  }

  /**
   * Each area lists each of its venues once: the rows come from a query
   * without repeats, and `filter_by` keeps that.
   */
  lemma AreasListVenuesOnce(venues: map<int, Venue>, ids: seq<int>, ss: seq<Show>, now: int)
    requires AllIn(ids, venues)
    requires Distinct(ids)
    ensures var r := VenueAreas(venues, ids, ss, now);
      forall i :: 0 <= i < |r| ==> Distinct(IdsOf(r[i].venues))
  {
    var locs := Locations(venues, ids);
    var r := VenueAreas(venues, ids, ss, now);
    forall i | 0 <= i < |r|
      ensures Distinct(IdsOf(r[i].venues))
    {
      FilterDistinct(ids, (id: int) => id in venues && LocOf(venues[id]) == locs[i]);
      assert IdsOf(r[i].venues) == VenuesAt(venues, ids, locs[i]);
    }
  }

  /** Hence each venue appears in exactly one area. */
  lemma VenueInExactlyOneArea(venues: map<int, Venue>, ids: seq<int>, ss: seq<Show>, now: int, k: int)
    requires AllIn(ids, venues)
    requires k in ids
    ensures var r := VenueAreas(venues, ids, ss, now);
      exists i :: 0 <= i < |r| && k in IdsOf(r[i].venues)
        && forall j :: 0 <= j < |r| && k in IdsOf(r[j].venues) ==> j == i
  {
    var r := VenueAreas(venues, ids, ss, now);
    AreasPartitionVenues(venues, ids, ss, now);
    AreaKeysDistinct(venues, ids, ss, now);
    var i :| 0 <= i < |r| && AreaLoc(r[i]) == LocOf(venues[k]);
    assert k in IdsOf(r[i].venues);
    forall j | 0 <= j < |r| && k in IdsOf(r[j].venues) ensures j == i {
      assert AreaLoc(r[j]) == LocOf(venues[k]);
    }
  }

  // ---------------------------------------------------------------- search

  /** `Venue.query.filter(Venue.name.ilike('%' + term + '%'))`. */
  function MatchingVenues(venues: map<int, Venue>, ids: seq<int>, term: string): (r: seq<int>)
    ensures AllIn(r, venues)
  {
    var r := Filter(ids, (id: int) => id in venues && ILike(venues[id].name, term));
    assert forall i :: 0 <= i < |r| ==> r[i] in r;
    r
  }

  /** `Artist.query.filter(Artist.name.ilike('%' + term + '%'))`. */
  function MatchingArtists(artists: map<int, Artist>, ids: seq<int>, term: string): (r: seq<int>)
    ensures AllIn(r, artists)
  {
    var r := Filter(ids, (id: int) => id in artists && ILike(artists[id].name, term));
    assert forall i :: 0 <= i < |r| ==> r[i] in r;
    r
  }

  function VenueSearch(venues: map<int, Venue>, ids: seq<int>, ss: seq<Show>, term: string, now: int): (r: SearchResult)
    ensures r.count == |r.data|
  {
    var m := MatchingVenues(venues, ids, term);
    SearchResult(|m|, VenueSummaries(venues, m, ss, now))
  }

  function ArtistSearch(artists: map<int, Artist>, ids: seq<int>, ss: seq<Show>, term: string, now: int): (r: SearchResult)
    ensures r.count == |r.data|
  {
    var m := MatchingArtists(artists, ids, term);
    SearchResult(|m|, ArtistSummaries(artists, m, ss, now))
  }

  /**
   * Venue search returns exactly the venues whose name contains the term,
   * ignoring case, in row order, each with its upcoming-show count, and
   * `count` is the number of results.
   */
  lemma VenueSearchExact(venues: map<int, Venue>, ids: seq<int>, ss: seq<Show>, term: string, now: int)
    requires AllIn(ids, venues)
    ensures var r := VenueSearch(venues, ids, ss, term, now);
      && r.count == |r.data|
      && (forall k :: k in IdsOf(r.data) <==> k in ids && ILike(venues[k].name, term))
      && IdsOf(r.data) == Filter(ids, (id: int) => id in venues && ILike(venues[id].name, term))
      && (forall e :: e in r.data ==>
            e.id in venues && e.name == venues[e.id].name && e.numUpcomingShows == VenueUpcoming(ss, e.id, now))
  {
    var m := MatchingVenues(venues, ids, term);
    var r := VenueSearch(venues, ids, ss, term, now);
    assert IdsOf(r.data) == m;
    assert forall k :: k in ids ==> k in venues;
  }

  /** The same for artist search. */
  lemma ArtistSearchExact(artists: map<int, Artist>, ids: seq<int>, ss: seq<Show>, term: string, now: int)
    requires AllIn(ids, artists)
    ensures var r := ArtistSearch(artists, ids, ss, term, now);
      && r.count == |r.data|
      && (forall k :: k in IdsOf(r.data) <==> k in ids && ILike(artists[k].name, term))
      && IdsOf(r.data) == Filter(ids, (id: int) => id in artists && ILike(artists[id].name, term))
      && (forall e :: e in r.data ==>
            e.id in artists && e.name == artists[e.id].name && e.numUpcomingShows == ArtistUpcoming(ss, e.id, now))
  {
    var m := MatchingArtists(artists, ids, term);
    var r := ArtistSearch(artists, ids, ss, term, now);
    assert IdsOf(r.data) == m;
    assert forall k :: k in ids ==> k in artists;
  }

  /** The empty term keeps every venue of the query. */
  lemma {:induction false} EmptyTermKeepsVenues(venues: map<int, Venue>, ids: seq<int>)
    requires AllIn(ids, venues)
    ensures MatchingVenues(venues, ids, "") == ids
    decreases |ids|
  {
    if ids != [] {
      var init := ids[..|ids| - 1];
      assert ids == init + [ids[|ids| - 1]];
      EmptyTermKeepsVenues(venues, init);
      EmptyTermMatches(venues[ids[|ids| - 1]].name);
    }
  }

  /** The empty term keeps every artist of the query. */
  lemma {:induction false} EmptyTermKeepsArtists(artists: map<int, Artist>, ids: seq<int>)
    requires AllIn(ids, artists)
    ensures MatchingArtists(artists, ids, "") == ids
    decreases |ids|
  {
    if ids != [] {
      var init := ids[..|ids| - 1];
      assert ids == init + [ids[|ids| - 1]];
      EmptyTermKeepsArtists(artists, init);
      EmptyTermMatches(artists[ids[|ids| - 1]].name);
    }
  }

  /** Searching for the empty term lists every venue, and `count` is the number of venues. */
  lemma EmptyVenueSearchListsAll(venues: map<int, Venue>, n: nat, ss: seq<Show>, now: int)
    requires KeysBelow(venues, n)
    ensures var r := VenueSearch(venues, Ids(venues, n), ss, "", now);
      r.count == |venues| && IdsOf(r.data) == Ids(venues, n)
  {
    var ids := Ids(venues, n);
    EmptyTermKeepsVenues(venues, ids);
    IdsCount(venues, n);
    assert IdsOf(VenueSearch(venues, ids, ss, "", now).data) == MatchingVenues(venues, ids, "");
  }

  /** Searching for the empty term lists every artist. */
  lemma EmptyArtistSearchListsAll(artists: map<int, Artist>, n: nat, ss: seq<Show>, now: int)
    requires KeysBelow(artists, n)
    ensures var r := ArtistSearch(artists, Ids(artists, n), ss, "", now);
      r.count == |artists| && IdsOf(r.data) == Ids(artists, n)
  {
    var ids := Ids(artists, n);
    EmptyTermKeepsArtists(artists, ids);
    IdsCount(artists, n);
    assert IdsOf(ArtistSearch(artists, ids, ss, "", now).data) == MatchingArtists(artists, ids, "");
  }

  // ---------------------------------------------------------------- detail pages

  /** Every show of `ss` names an existing artist. */
  predicate ArtistsResolve(ss: seq<Show>, artists: map<int, Artist>) {
    forall s :: s in ss ==> s.artistId in artists
  }

  /** Every show of `ss` names an existing venue. */
  predicate VenuesResolve(ss: seq<Show>, venues: map<int, Venue>) {
    forall s :: s in ss ==> s.venueId in venues
  }

  function ArtistSlotOf(s: Show, artists: map<int, Artist>): ArtistSlot
    requires s.artistId in artists
  {
    var a := artists[s.artistId];
    ArtistSlot(s.artistId, a.name, a.imageLink, s.startTime)
  }

  function VenueSlotOf(s: Show, venues: map<int, Venue>): VenueSlot
    requires s.venueId in venues
  {
    var v := venues[s.venueId];
    VenueSlot(s.venueId, v.name, v.imageLink, s.startTime)
  }

  /** Each show joined to its artist, in order. */
  function ArtistSlots(ss: seq<Show>, artists: map<int, Artist>): (r: seq<ArtistSlot>)
    requires ArtistsResolve(ss, artists)
    ensures |r| == |ss|
    decreases |ss|
  {
    if ss == [] then []
    else
      assert ss[|ss| - 1] in ss;
      ArtistSlots(ss[..|ss| - 1], artists) + [ArtistSlotOf(ss[|ss| - 1], artists)]
  }

  /** Each show joined to its venue, in order. */
  function VenueSlots(ss: seq<Show>, venues: map<int, Venue>): (r: seq<VenueSlot>)
    requires VenuesResolve(ss, venues)
    ensures |r| == |ss|
    decreases |ss|
  {
    if ss == [] then []
    else
      assert ss[|ss| - 1] in ss;
      VenueSlots(ss[..|ss| - 1], venues) + [VenueSlotOf(ss[|ss| - 1], venues)]
  }

  /**
   * `show_venue`: the venue's columns with the genre list split back, and its
   * shows joined to their artists and split into past and upcoming. A missing
   * venue is NotFound; a show whose artist is missing fails the whole page.
   */
  function VenueDetailOf(venues: map<int, Venue>, artists: map<int, Artist>, ss: seq<Show>, id: int, now: int)
    : Result<VenueDetail, Error>
  {
    if id !in venues then Failure(NotFound)
    else
      var at := AtVenue(ss, id);
      if !ArtistsResolve(at, artists) then Failure(IntegrityError)
      else
        var v := venues[id];
        var past := ArtistSlots(Past(at, now), artists);
        var upcoming := ArtistSlots(Upcoming(at, now), artists);
        Success(VenueDetail(id, v.name, Split(v.genres), v.address, v.city, v.state, v.phone,
          v.website, v.facebookLink, v.seekingTalent, v.seekingDescription, v.imageLink,
          past, upcoming, |past|, |upcoming|))
  }

  /** `show_artist`: the artist's columns and its shows joined to their venues, split by time. */
  function ArtistDetailOf(venues: map<int, Venue>, artists: map<int, Artist>, ss: seq<Show>, id: int, now: int)
    : Result<ArtistDetail, Error>
  {
    if id !in artists then Failure(NotFound)
    else
      var mine := ByArtist(ss, id);
      if !VenuesResolve(mine, venues) then Failure(IntegrityError)
      else
        var a := artists[id];
        var past := VenueSlots(Past(mine, now), venues);
        var upcoming := VenueSlots(Upcoming(mine, now), venues);
        Success(ArtistDetail(id, a.name, Split(a.genres), a.city, a.state, a.phone,
          a.website, a.facebookLink, a.seekingVenue, a.seekingDescription, a.imageLink,
          past, upcoming, |past|, |upcoming|))
  }

  /** The upcoming and past slots of a joined list, kept in order. */
  function UpcomingArtistSlots(slots: seq<ArtistSlot>, now: int): seq<ArtistSlot> {
    Filter(slots, (x: ArtistSlot) => x.startTime >= now)
  }

  function PastArtistSlots(slots: seq<ArtistSlot>, now: int): seq<ArtistSlot> {
    Filter(slots, (x: ArtistSlot) => x.startTime < now)
  }

  function UpcomingVenueSlots(slots: seq<VenueSlot>, now: int): seq<VenueSlot> {
    Filter(slots, (x: VenueSlot) => x.startTime >= now)
  }

  function PastVenueSlots(slots: seq<VenueSlot>, now: int): seq<VenueSlot> {
    Filter(slots, (x: VenueSlot) => x.startTime < now)
  }

  lemma ArtistSlotsNext(ss: seq<Show>, s: Show, artists: map<int, Artist>)
    requires ArtistsResolve(ss + [s], artists)
    ensures ArtistsResolve(ss, artists) && s.artistId in artists
    ensures ArtistSlots(ss + [s], artists) == ArtistSlots(ss, artists) + [ArtistSlotOf(s, artists)]
  {
    assert s in ss + [s];
    assert forall x :: x in ss ==> x in ss + [s];
    assert (ss + [s])[..|ss|] == ss;
  }

  lemma VenueSlotsNext(ss: seq<Show>, s: Show, venues: map<int, Venue>)
    requires VenuesResolve(ss + [s], venues)
    ensures VenuesResolve(ss, venues) && s.venueId in venues
    ensures VenueSlots(ss + [s], venues) == VenueSlots(ss, venues) + [VenueSlotOf(s, venues)]
  {
    assert s in ss + [s];
    assert forall x :: x in ss ==> x in ss + [s];
    assert (ss + [s])[..|ss|] == ss;
  }

  /** One more show at a venue lands, joined to its artist, at the end of exactly one bucket. */
  lemma ArtistBucketStep(prefix: seq<Show>, s: Show, artists: map<int, Artist>, now: int)
    requires ArtistsResolve(prefix, artists) && s.artistId in artists
    ensures ArtistsResolve(prefix + [s], artists)
    ensures s.startTime >= now ==> ArtistSlots(Upcoming(prefix + [s], now), artists) == ArtistSlots(Upcoming(prefix, now), artists) + [ArtistSlotOf(s, artists)]
    ensures s.startTime >= now ==> ArtistSlots(Past(prefix + [s], now), artists) == ArtistSlots(Past(prefix, now), artists)
    ensures s.startTime < now ==> ArtistSlots(Past(prefix + [s], now), artists) == ArtistSlots(Past(prefix, now), artists) + [ArtistSlotOf(s, artists)]
    ensures s.startTime < now ==> ArtistSlots(Upcoming(prefix + [s], now), artists) == ArtistSlots(Upcoming(prefix, now), artists)
  {
    ClassifyNext(prefix, s, now);
    if s.startTime >= now {
      ArtistSlotsNext(Upcoming(prefix, now), s, artists);
    } else {
      ArtistSlotsNext(Past(prefix, now), s, artists);
    }
  }

  /** One more show of an artist lands, joined to its venue, at the end of exactly one bucket. */
  lemma VenueBucketStep(prefix: seq<Show>, s: Show, venues: map<int, Venue>, now: int)
    requires VenuesResolve(prefix, venues) && s.venueId in venues
    ensures VenuesResolve(prefix + [s], venues)
    ensures s.startTime >= now ==> VenueSlots(Upcoming(prefix + [s], now), venues) == VenueSlots(Upcoming(prefix, now), venues) + [VenueSlotOf(s, venues)]
    ensures s.startTime >= now ==> VenueSlots(Past(prefix + [s], now), venues) == VenueSlots(Past(prefix, now), venues)
    ensures s.startTime < now ==> VenueSlots(Past(prefix + [s], now), venues) == VenueSlots(Past(prefix, now), venues) + [VenueSlotOf(s, venues)]
    ensures s.startTime < now ==> VenueSlots(Upcoming(prefix + [s], now), venues) == VenueSlots(Upcoming(prefix, now), venues)
  {
    ClassifyNext(prefix, s, now);
    if s.startTime >= now {
      VenueSlotsNext(Upcoming(prefix, now), s, venues);
    } else {
      VenueSlotsNext(Past(prefix, now), s, venues);
    }
  }

  /** ArtistBucketStep at position `i` of a venue's show list. */
  lemma ArtistBucketStepAt(ss: seq<Show>, i: nat, artists: map<int, Artist>, now: int)
    requires i < |ss| && ArtistsResolve(ss[..i], artists) && ss[i].artistId in artists
    ensures ArtistsResolve(ss[..i + 1], artists)
    ensures ss[i].startTime >= now ==> ArtistSlots(Upcoming(ss[..i + 1], now), artists) == ArtistSlots(Upcoming(ss[..i], now), artists) + [ArtistSlotOf(ss[i], artists)]
    ensures ss[i].startTime >= now ==> ArtistSlots(Past(ss[..i + 1], now), artists) == ArtistSlots(Past(ss[..i], now), artists)
    ensures ss[i].startTime < now ==> ArtistSlots(Past(ss[..i + 1], now), artists) == ArtistSlots(Past(ss[..i], now), artists) + [ArtistSlotOf(ss[i], artists)]
    ensures ss[i].startTime < now ==> ArtistSlots(Upcoming(ss[..i + 1], now), artists) == ArtistSlots(Upcoming(ss[..i], now), artists)
  {
    assert ss[..i + 1] == ss[..i] + [ss[i]];
    ArtistBucketStep(ss[..i], ss[i], artists, now);
  }

  /** VenueBucketStep at position `i` of an artist's show list. */
  lemma VenueBucketStepAt(ss: seq<Show>, i: nat, venues: map<int, Venue>, now: int)
    requires i < |ss| && VenuesResolve(ss[..i], venues) && ss[i].venueId in venues
    ensures VenuesResolve(ss[..i + 1], venues)
    ensures ss[i].startTime >= now ==> VenueSlots(Upcoming(ss[..i + 1], now), venues) == VenueSlots(Upcoming(ss[..i], now), venues) + [VenueSlotOf(ss[i], venues)]
    ensures ss[i].startTime >= now ==> VenueSlots(Past(ss[..i + 1], now), venues) == VenueSlots(Past(ss[..i], now), venues)
    ensures ss[i].startTime < now ==> VenueSlots(Past(ss[..i + 1], now), venues) == VenueSlots(Past(ss[..i], now), venues) + [VenueSlotOf(ss[i], venues)]
    ensures ss[i].startTime < now ==> VenueSlots(Upcoming(ss[..i + 1], now), venues) == VenueSlots(Upcoming(ss[..i], now), venues)
  {
    assert ss[..i + 1] == ss[..i] + [ss[i]];
    VenueBucketStep(ss[..i], ss[i], venues, now);
  }

  lemma ArtistSlotBucketsNext(slots: seq<ArtistSlot>, x: ArtistSlot, now: int)
    ensures x.startTime >= now ==> UpcomingArtistSlots(slots + [x], now) == UpcomingArtistSlots(slots, now) + [x]
    ensures x.startTime >= now ==> PastArtistSlots(slots + [x], now) == PastArtistSlots(slots, now)
    ensures x.startTime < now ==> UpcomingArtistSlots(slots + [x], now) == UpcomingArtistSlots(slots, now)
    ensures x.startTime < now ==> PastArtistSlots(slots + [x], now) == PastArtistSlots(slots, now) + [x]
  {
    assert (slots + [x])[..|slots|] == slots;
    assert UpcomingArtistSlots(slots, now) + [] == UpcomingArtistSlots(slots, now);
    assert PastArtistSlots(slots, now) + [] == PastArtistSlots(slots, now);
  }

  lemma VenueSlotBucketsNext(slots: seq<VenueSlot>, x: VenueSlot, now: int)
    ensures x.startTime >= now ==> UpcomingVenueSlots(slots + [x], now) == UpcomingVenueSlots(slots, now) + [x]
    ensures x.startTime >= now ==> PastVenueSlots(slots + [x], now) == PastVenueSlots(slots, now)
    ensures x.startTime < now ==> UpcomingVenueSlots(slots + [x], now) == UpcomingVenueSlots(slots, now)
    ensures x.startTime < now ==> PastVenueSlots(slots + [x], now) == PastVenueSlots(slots, now) + [x]
  {
    assert (slots + [x])[..|slots|] == slots;
    assert UpcomingVenueSlots(slots, now) + [] == UpcomingVenueSlots(slots, now);
    assert PastVenueSlots(slots, now) + [] == PastVenueSlots(slots, now);
  }

  /*
   * Joining and then bucketing is bucketing and then joining: each bucket of
   * a detail page is the joined show list with the other bucket's entries
   * taken out, in the original order.
   */

  lemma {:induction false} UpcomingArtistSlotsOfJoined(ss: seq<Show>, artists: map<int, Artist>, now: int)
    requires ArtistsResolve(ss, artists)
    ensures ArtistsResolve(Upcoming(ss, now), artists)
    ensures ArtistSlots(Upcoming(ss, now), artists) == UpcomingArtistSlots(ArtistSlots(ss, artists), now)
    decreases |ss|
  {
    if ss != [] {
      var init, s := ss[..|ss| - 1], ss[|ss| - 1];
      assert ss == init + [s];
      ArtistSlotsNext(init, s, artists);
      UpcomingArtistSlotsOfJoined(init, artists, now);
      ClassifyNext(init, s, now);
      var slot := ArtistSlotOf(s, artists);
      ArtistSlotBucketsNext(ArtistSlots(init, artists), slot, now);
      if IsUpcoming(s, now) {
        ArtistSlotsNext(Upcoming(init, now), s, artists);
        calc {
          ArtistSlots(Upcoming(ss, now), artists);
          ArtistSlots(Upcoming(init, now) + [s], artists);
          ArtistSlots(Upcoming(init, now), artists) + [slot];
          UpcomingArtistSlots(ArtistSlots(init, artists), now) + [slot];
          UpcomingArtistSlots(ArtistSlots(init, artists) + [slot], now);
        }
      } else {
        calc {
          ArtistSlots(Upcoming(ss, now), artists);
          ArtistSlots(Upcoming(init, now), artists);
          UpcomingArtistSlots(ArtistSlots(init, artists), now);
          UpcomingArtistSlots(ArtistSlots(init, artists) + [slot], now);
        }
      }
    }
  }

  lemma {:induction false} PastArtistSlotsOfJoined(ss: seq<Show>, artists: map<int, Artist>, now: int)
    requires ArtistsResolve(ss, artists)
    ensures ArtistsResolve(Past(ss, now), artists)
    ensures ArtistSlots(Past(ss, now), artists) == PastArtistSlots(ArtistSlots(ss, artists), now)
    decreases |ss|
  {
    if ss != [] {
      var init, s := ss[..|ss| - 1], ss[|ss| - 1];
      assert ss == init + [s];
      ArtistSlotsNext(init, s, artists);
      PastArtistSlotsOfJoined(init, artists, now);
      ClassifyNext(init, s, now);
      var slot := ArtistSlotOf(s, artists);
      ArtistSlotBucketsNext(ArtistSlots(init, artists), slot, now);
      if !IsUpcoming(s, now) {
        ArtistSlotsNext(Past(init, now), s, artists);
        calc {
          ArtistSlots(Past(ss, now), artists);
          ArtistSlots(Past(init, now) + [s], artists);
          ArtistSlots(Past(init, now), artists) + [slot];
          PastArtistSlots(ArtistSlots(init, artists), now) + [slot];
          PastArtistSlots(ArtistSlots(init, artists) + [slot], now);
        }
      } else {
        calc {
          ArtistSlots(Past(ss, now), artists);
          ArtistSlots(Past(init, now), artists);
          PastArtistSlots(ArtistSlots(init, artists), now);
          PastArtistSlots(ArtistSlots(init, artists) + [slot], now);
        }
      }
    }
  }

  lemma {:induction false} UpcomingVenueSlotsOfJoined(ss: seq<Show>, venues: map<int, Venue>, now: int)
    requires VenuesResolve(ss, venues)
    ensures VenuesResolve(Upcoming(ss, now), venues)
    ensures VenueSlots(Upcoming(ss, now), venues) == UpcomingVenueSlots(VenueSlots(ss, venues), now)
    decreases |ss|
  {
    if ss != [] {
      var init, s := ss[..|ss| - 1], ss[|ss| - 1];
      assert ss == init + [s];
      VenueSlotsNext(init, s, venues);
      UpcomingVenueSlotsOfJoined(init, venues, now);
      ClassifyNext(init, s, now);
      var slot := VenueSlotOf(s, venues);
      VenueSlotBucketsNext(VenueSlots(init, venues), slot, now);
      if IsUpcoming(s, now) {
        VenueSlotsNext(Upcoming(init, now), s, venues);
        calc {
          VenueSlots(Upcoming(ss, now), venues);
          VenueSlots(Upcoming(init, now) + [s], venues);
          VenueSlots(Upcoming(init, now), venues) + [slot];
          UpcomingVenueSlots(VenueSlots(init, venues), now) + [slot];
          UpcomingVenueSlots(VenueSlots(init, venues) + [slot], now);
        }
      } else {
        calc {
          VenueSlots(Upcoming(ss, now), venues);
          VenueSlots(Upcoming(init, now), venues);
          UpcomingVenueSlots(VenueSlots(init, venues), now);
          UpcomingVenueSlots(VenueSlots(init, venues) + [slot], now);
        }
      }
    }
  }

  lemma {:induction false} PastVenueSlotsOfJoined(ss: seq<Show>, venues: map<int, Venue>, now: int)
    requires VenuesResolve(ss, venues)
    ensures VenuesResolve(Past(ss, now), venues)
    ensures VenueSlots(Past(ss, now), venues) == PastVenueSlots(VenueSlots(ss, venues), now)
    decreases |ss|
  {
    if ss != [] {
      var init, s := ss[..|ss| - 1], ss[|ss| - 1];
      assert ss == init + [s];
      VenueSlotsNext(init, s, venues);
      PastVenueSlotsOfJoined(init, venues, now);
      ClassifyNext(init, s, now);
      var slot := VenueSlotOf(s, venues);
      VenueSlotBucketsNext(VenueSlots(init, venues), slot, now);
      if !IsUpcoming(s, now) {
        VenueSlotsNext(Past(init, now), s, venues);
        calc {
          VenueSlots(Past(ss, now), venues);
          VenueSlots(Past(init, now) + [s], venues);
          VenueSlots(Past(init, now), venues) + [slot];
          PastVenueSlots(VenueSlots(init, venues), now) + [slot];
          PastVenueSlots(VenueSlots(init, venues) + [slot], now);
        }
      } else {
        calc {
          VenueSlots(Past(ss, now), venues);
          VenueSlots(Past(init, now), venues);
          PastVenueSlots(VenueSlots(init, venues), now);
          PastVenueSlots(VenueSlots(init, venues) + [slot], now);
        }
      }
    }
  }

  /** The two buckets of a joined list hold every entry exactly once. */
  lemma {:induction false} ArtistSlotBucketsPartition(slots: seq<ArtistSlot>, now: int)
    ensures multiset(UpcomingArtistSlots(slots, now)) + multiset(PastArtistSlots(slots, now)) == multiset(slots)
    decreases |slots|
  {
    if slots != [] {
      var init, x := slots[..|slots| - 1], slots[|slots| - 1];
      assert slots == init + [x];
      ArtistSlotBucketsPartition(init, now);
      ArtistSlotBucketsNext(init, x, now);
    }
  }

  lemma {:induction false} VenueSlotBucketsPartition(slots: seq<VenueSlot>, now: int)
    ensures multiset(UpcomingVenueSlots(slots, now)) + multiset(PastVenueSlots(slots, now)) == multiset(slots)
    decreases |slots|
  {
    if slots != [] {
      var init, x := slots[..|slots| - 1], slots[|slots| - 1];
      assert slots == init + [x];
      VenueSlotBucketsPartition(init, now);
      VenueSlotBucketsNext(init, x, now);
    }
  }

  /**
   * The venue page's buckets partition the venue's shows: each count is its
   * list's length, the counts add up to the number of shows at the venue, every
   * joined show is in exactly one bucket, each bucket keeps the shows' order,
   * and a show is upcoming exactly when it starts at or after `now`.
   */
  lemma VenueDetailPartition(venues: map<int, Venue>, artists: map<int, Artist>, ss: seq<Show>, id: int, now: int)
    requires VenueDetailOf(venues, artists, ss, id, now).Success?
    ensures var d := VenueDetailOf(venues, artists, ss, id, now).value;
      && ArtistsResolve(AtVenue(ss, id), artists)
      && d.pastShowsCount == |d.pastShows| && d.upcomingShowsCount == |d.upcomingShows|
      && d.pastShowsCount + d.upcomingShowsCount == |AtVenue(ss, id)|
      && multiset(d.pastShows) + multiset(d.upcomingShows) == multiset(ArtistSlots(AtVenue(ss, id), artists))
      && d.upcomingShows == UpcomingArtistSlots(ArtistSlots(AtVenue(ss, id), artists), now)
      && d.pastShows == PastArtistSlots(ArtistSlots(AtVenue(ss, id), artists), now)
  {
    var at := AtVenue(ss, id);
    TimePartition(at, now);
    UpcomingArtistSlotsOfJoined(at, artists, now);
    PastArtistSlotsOfJoined(at, artists, now);
    ArtistSlotBucketsPartition(ArtistSlots(at, artists), now);
  }

  /** The artist page's buckets partition the artist's shows in the same way. */
  lemma ArtistDetailPartition(venues: map<int, Venue>, artists: map<int, Artist>, ss: seq<Show>, id: int, now: int)
    requires ArtistDetailOf(venues, artists, ss, id, now).Success?
    ensures var d := ArtistDetailOf(venues, artists, ss, id, now).value;
      && VenuesResolve(ByArtist(ss, id), venues)
      && d.pastShowsCount == |d.pastShows| && d.upcomingShowsCount == |d.upcomingShows|
      && d.pastShowsCount + d.upcomingShowsCount == |ByArtist(ss, id)|
      && multiset(d.pastShows) + multiset(d.upcomingShows) == multiset(VenueSlots(ByArtist(ss, id), venues))
      && d.upcomingShows == UpcomingVenueSlots(VenueSlots(ByArtist(ss, id), venues), now)
      && d.pastShows == PastVenueSlots(VenueSlots(ByArtist(ss, id), venues), now)
  {
    var mine := ByArtist(ss, id);
    TimePartition(mine, now);
    UpcomingVenueSlotsOfJoined(mine, venues, now);
    PastVenueSlotsOfJoined(mine, venues, now);
    VenueSlotBucketsPartition(VenueSlots(mine, venues), now);
  }

  /**
   * The detail page fails exactly when the id is missing (NotFound) or one of
   * its shows names a missing counterpart (IntegrityError).
   */
  lemma DetailFailures(venues: map<int, Venue>, artists: map<int, Artist>, ss: seq<Show>, id: int, now: int)
    ensures VenueDetailOf(venues, artists, ss, id, now) == Failure(NotFound) <==> id !in venues
    ensures VenueDetailOf(venues, artists, ss, id, now) == Failure(IntegrityError)
      <==> id in venues && exists s :: s in ss && s.venueId == id && s.artistId !in artists
    ensures ArtistDetailOf(venues, artists, ss, id, now) == Failure(NotFound) <==> id !in artists
    ensures ArtistDetailOf(venues, artists, ss, id, now) == Failure(IntegrityError)
      <==> id in artists && exists s :: s in ss && s.artistId == id && s.venueId !in venues
  {
  }

  /** Genres stored by the create handler read back on the detail page as the submitted list. */
  lemma GenresReadBack(venues: map<int, Venue>, artists: map<int, Artist>, ss: seq<Show>, id: int, now: int, form: Form)
    requires id in venues && NewVenue(form).Success? && venues[id] == NewVenue(form).value
    requires StorableTags(GetList(form, "genres"))
    requires VenueDetailOf(venues, artists, ss, id, now).Success?
    ensures VenueDetailOf(venues, artists, ss, id, now).value.genres == GetList(form, "genres")
  {
  }

  // ---------------------------------------------------------------- show listing

  function ListingOf(s: Show, venues: map<int, Venue>, artists: map<int, Artist>): ShowListing
    requires s.venueId in venues && s.artistId in artists
  {
    var v, a := venues[s.venueId], artists[s.artistId];
    ShowListing(s.venueId, v.name, s.artistId, a.name, a.imageLink, s.startTime)
  }

  /** Each show joined to its venue and artist, in order. */
  function Listings(ss: seq<Show>, venues: map<int, Venue>, artists: map<int, Artist>): (r: seq<ShowListing>)
    requires VenuesResolve(ss, venues) && ArtistsResolve(ss, artists)
    ensures |r| == |ss|
    ensures forall i :: 0 <= i < |ss| ==> r[i] == ListingOf(ss[i], venues, artists)
  {
    seq(|ss|, i requires 0 <= i < |ss| => (assert ss[i] in ss; ListingOf(ss[i], venues, artists)))
  }

  /**
   * `shows`: every show ordered by start time and joined to its venue and
   * artist; a show naming a missing venue or artist fails the listing.
   */
  function ShowListingOf(ss: seq<Show>, venues: map<int, Venue>, artists: map<int, Artist>)
    : (r: Result<seq<ShowListing>, Error>)
    ensures r.Success? <==> VenuesResolve(ss, venues) && ArtistsResolve(ss, artists)
    ensures r.Failure? ==> r.error == IntegrityError
  {
    if VenuesResolve(ss, venues) && ArtistsResolve(ss, artists) then
      var sorted := SortByStart(ss);
      Success(Listings(sorted, venues, artists))
    else Failure(IntegrityError)
  }

  /**
   * A successful show listing has one line per show, is ordered by start time,
   * and holds each show's line as often as the show occurs.
   */
  lemma ShowListingSortedPermutation(ss: seq<Show>, venues: map<int, Venue>, artists: map<int, Artist>)
    requires ShowListingOf(ss, venues, artists).Success?
    ensures var r := ShowListingOf(ss, venues, artists).value;
      && |r| == |ss|
      && (forall i, j :: 0 <= i < j < |r| ==> r[i].startTime <= r[j].startTime)
      && r == Listings(SortByStart(ss), venues, artists)
      && multiset(SortByStart(ss)) == multiset(ss)
  {
    var sorted := SortByStart(ss);
    assert |sorted| == |multiset(sorted)| == |multiset(ss)| == |ss|;
  }
}
