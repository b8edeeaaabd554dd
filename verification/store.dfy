/**
 * The booking directory's database: the `Venue`, `Artist` and `Show` tables as
 * three maps keyed by id, with the next id of each table. The read handlers
 * are methods that walk query results with the source's accumulating loops;
 * the write handlers are methods that either commit their whole change or
 * leave the store as it was.
 */
module Directory {
  import opened Wrappers
  import opened Seqs
  import opened Tables
  import opened Genres
  import opened Schedule
  import opened Records
  import opened Views

  /** The row of `m` with id `id`, if any: `Model.query.get(id)`. */
  function Find<V>(m: map<int, V>, id: int): (r: Option<V>)
    ensures r.Some? <==> id in m
    ensures r.Some? ==> r.value == m[id]
  {
    if id in m then Some(m[id]) else None
  }

  class Store {
    var venues: map<int, Venue>
    var artists: map<int, Artist>
    var shows: map<int, Show>
    var nextVenueId: nat
    var nextArtistId: nat
    var nextShowId: nat

    /** Every row's id is below its table's next id, so new ids are fresh. */
    ghost predicate Valid()
      reads this
    {
      KeysBelow(venues, nextVenueId) && KeysBelow(artists, nextArtistId) && KeysBelow(shows, nextShowId)
    }

    /** The foreign keys of `Show` hold: every show names an existing artist and venue. */
    ghost predicate ShowsResolve()
      reads this
    {
      forall k :: k in shows ==> shows[k].artistId in artists && shows[k].venueId in venues
    }

    /** An empty database; ids start at 1. */
    constructor ()
      ensures Valid() && ShowsResolve()
      ensures venues == map[] && artists == map[] && shows == map[]
      ensures nextVenueId == 1 && nextArtistId == 1 && nextShowId == 1
    {
      venues, artists, shows := map[], map[], map[];
      nextVenueId, nextArtistId, nextShowId := 1, 1, 1;
    }

    /** `Venue.query.all()` order: the venue ids, ascending. */
    function VenueIds(): (r: seq<int>)
      reads this
      ensures AllIn(r, venues)
    {
      var r := Ids(venues, nextVenueId);
      assert forall i :: 0 <= i < |r| ==> r[i] in r;
      r
    }

    function ArtistIds(): (r: seq<int>)
      reads this
      ensures AllIn(r, artists)
    {
      var r := Ids(artists, nextArtistId);
      assert forall i :: 0 <= i < |r| ==> r[i] in r;
      r
    }

    /** `Show.query.all()`: every show, in id order. */
    function ShowRows(): (r: seq<Show>)
      reads this
      ensures forall i :: 0 <= i < |r| ==> r[i] in shows.Values
    {
      var ids := Ids(shows, nextShowId);
      assert forall i :: 0 <= i < |ids| ==> ids[i] in ids;
      Rows(shows, ids)
    }

    // ------------------------------------------------------------ reads

    /** The summaries of the venues `ids`, built one by one as `venues` and `search_venues` do. */
    method SummarizeVenues(ids: seq<int>, ss: seq<Show>, now: int) returns (list: seq<Summary>)
      requires AllIn(ids, venues)
      ensures list == VenueSummaries(venues, ids, ss, now)
    {
      list := [];
      for j := 0 to |ids|
        invariant |list| == j
        invariant forall k :: 0 <= k < j ==> list[k] == Summary(ids[k], venues[ids[k]].name, VenueUpcoming(ss, ids[k], now))
      {
        var n := CountUpcoming(AtVenue(ss, ids[j]), now);
        list := list + [Summary(ids[j], venues[ids[j]].name, n)];
      }
    }

    /** `venues`: one area per distinct (city, state), each listing its venues with their upcoming-show counts. */
    method Venues(now: int) returns (areas: seq<Area>)
      ensures areas == VenueAreas(venues, VenueIds(), ShowRows(), now)
      ensures forall i :: 0 <= i < |areas| ==> Distinct(IdsOf(areas[i].venues))
    {
      var ids := VenueIds();
      var ss := ShowRows();
      var locs := Locations(venues, ids);
      areas := [];
      for i := 0 to |locs|
        invariant |areas| == i
        invariant forall k :: 0 <= k < i ==> areas[k] == AreaAt(venues, ids, ss, now, locs[k])
      {
        var list := SummarizeVenues(VenuesAt(venues, ids, locs[i]), ss, now);
        areas := areas + [Area(locs[i].city, locs[i].state, list)];
      }
      AreasListVenuesOnce(venues, ids, ss, now);
    }

    /** The loop of `search_venues`: bump the count and append the venue's summary, for each match. */
    method CountAndSummarizeVenues(matched: seq<int>, ss: seq<Show>, now: int) returns (count: nat, data: seq<Summary>)
      requires AllIn(matched, venues)
      ensures count == |matched| && data == VenueSummaries(venues, matched, ss, now)
    {
      count := 0;
      data := [];
      for i := 0 to |matched|
        invariant count == i == |data|
        invariant forall k :: 0 <= k < i ==> data[k] == Summary(matched[k], venues[matched[k]].name, VenueUpcoming(ss, matched[k], now))
      {
        count := count + 1;
        var n := CountUpcoming(AtVenue(ss, matched[i]), now);
        data := data + [Summary(matched[i], venues[matched[i]].name, n)];
      }
    }

    /** The loop of `search_artists`. */
    method CountAndSummarizeArtists(matched: seq<int>, ss: seq<Show>, now: int) returns (count: nat, data: seq<Summary>)
      requires AllIn(matched, artists)
      ensures count == |matched| && data == ArtistSummaries(artists, matched, ss, now)
    {
      count := 0;
      data := [];
      for i := 0 to |matched|
        invariant count == i == |data|
        invariant forall k :: 0 <= k < i ==> data[k] == Summary(matched[k], artists[matched[k]].name, ArtistUpcoming(ss, matched[k], now))
      {
        count := count + 1;
        var n := CountUpcoming(ByArtist(ss, matched[i]), now);
        data := data + [Summary(matched[i], artists[matched[i]].name, n)];
      }
    }

    /** `search_venues`: the venues whose name contains `term`, ignoring case, with a running count. */
    method SearchVenues(term: string, now: int) returns (response: SearchResult)
      ensures response == VenueSearch(venues, VenueIds(), ShowRows(), term, now)
      ensures response.count == |response.data|
    {
      var matched := MatchingVenues(venues, VenueIds(), term);
      var count, data := CountAndSummarizeVenues(matched, ShowRows(), now);
      response := SearchResult(count, data);
    }

    /** `search_artists`: the artists whose name contains `term`, ignoring case, with a running count. */
    method SearchArtists(term: string, now: int) returns (response: SearchResult)
      ensures response == ArtistSearch(artists, ArtistIds(), ShowRows(), term, now)
      ensures response.count == |response.data|
    {
      var matched := MatchingArtists(artists, ArtistIds(), term);
      var count, data := CountAndSummarizeArtists(matched, ShowRows(), now);
      response := SearchResult(count, data);
    }

    /**
     * The loop of `show_venue`: each show is joined to its artist and appended
     * to the past or the upcoming bucket, whose counter goes up. `ok` is false
     * when a show names a missing artist.
     */
    method BucketArtistSlots(ss: seq<Show>, now: int)
      returns (ok: bool, past: seq<ArtistSlot>, upcoming: seq<ArtistSlot>, pastCount: nat, upcomingCount: nat)
      ensures ok <==> ArtistsResolve(ss, artists)
      ensures ok ==> past == ArtistSlots(Past(ss, now), artists) && pastCount == |past|
      ensures ok ==> upcoming == ArtistSlots(Upcoming(ss, now), artists) && upcomingCount == |upcoming|
    {
      past, upcoming := [], [];
      pastCount, upcomingCount := 0, 0;
      for i := 0 to |ss|
        invariant ArtistsResolve(ss[..i], artists)
        invariant past == ArtistSlots(Past(ss[..i], now), artists)
        invariant upcoming == ArtistSlots(Upcoming(ss[..i], now), artists)
        invariant pastCount == |past| && upcomingCount == |upcoming|
      {
        var show := ss[i];
        if show.artistId !in artists {
          assert show in ss;
          return false, past, upcoming, pastCount, upcomingCount;
        }
        var slot := ArtistSlotOf(show, artists);
        ArtistBucketStepAt(ss, i, artists, now);
        if show.startTime >= now {
          upcomingCount := upcomingCount + 1;
          upcoming := upcoming + [slot];
        } else {
          pastCount := pastCount + 1;
          past := past + [slot];
        }
      }
      assert ss[..|ss|] == ss;
      ok := true;
    }

    /** The loop of `show_artist`: each show joined to its venue and bucketed by time. */
    method BucketVenueSlots(ss: seq<Show>, now: int)
      returns (ok: bool, past: seq<VenueSlot>, upcoming: seq<VenueSlot>, pastCount: nat, upcomingCount: nat)
      ensures ok <==> VenuesResolve(ss, venues)
      ensures ok ==> past == VenueSlots(Past(ss, now), venues) && pastCount == |past|
      ensures ok ==> upcoming == VenueSlots(Upcoming(ss, now), venues) && upcomingCount == |upcoming|
    {
      past, upcoming := [], [];
      pastCount, upcomingCount := 0, 0;
      for i := 0 to |ss|
        invariant VenuesResolve(ss[..i], venues)
        invariant past == VenueSlots(Past(ss[..i], now), venues)
        invariant upcoming == VenueSlots(Upcoming(ss[..i], now), venues)
        invariant pastCount == |past| && upcomingCount == |upcoming|
      {
        var show := ss[i];
        if show.venueId !in venues {
          assert show in ss;
          return false, past, upcoming, pastCount, upcomingCount;
        }
        var slot := VenueSlotOf(show, venues);
        VenueBucketStepAt(ss, i, venues, now);
        if show.startTime >= now {
          upcomingCount := upcomingCount + 1;
          upcoming := upcoming + [slot];
        } else {
          pastCount := pastCount + 1;
          past := past + [slot];
        }
      }
      assert ss[..|ss|] == ss;
      ok := true;
    }

    /** `show_venue`: the venue's columns, its genres split back into tags, and its shows bucketed by time. */
    method ShowVenue(venueId: int, now: int) returns (r: Result<VenueDetail, Error>)
      ensures r == VenueDetailOf(venues, artists, ShowRows(), venueId, now)
    {
      if venueId !in venues {
        return Failure(NotFound);
      }
      var v := venues[venueId];
      var ok, past, upcoming, pastCount, upcomingCount := BucketArtistSlots(AtVenue(ShowRows(), venueId), now);
      if !ok {
        return Failure(IntegrityError);
      }
      r := Success(VenueDetail(venueId, v.name, Split(v.genres), v.address, v.city, v.state, v.phone,
        v.website, v.facebookLink, v.seekingTalent, v.seekingDescription, v.imageLink,
        past, upcoming, pastCount, upcomingCount));
    }

    /** `show_artist`: the artist's columns, its genres split back into tags, and its shows bucketed by time. */
    method ShowArtist(artistId: int, now: int) returns (r: Result<ArtistDetail, Error>)
      ensures r == ArtistDetailOf(venues, artists, ShowRows(), artistId, now)
    {
      if artistId !in artists {
        return Failure(NotFound);
      }
      var a := artists[artistId];
      var ok, past, upcoming, pastCount, upcomingCount := BucketVenueSlots(ByArtist(ShowRows(), artistId), now);
      if !ok {
        return Failure(IntegrityError);
      }
      r := Success(ArtistDetail(artistId, a.name, Split(a.genres), a.city, a.state, a.phone,
        a.website, a.facebookLink, a.seekingVenue, a.seekingDescription, a.imageLink,
        past, upcoming, pastCount, upcomingCount));
    }

    /** `artists`: every artist's id and name, in row order. */
    method Artists() returns (data: seq<(int, string)>)
      ensures |data| == |ArtistIds()|
      ensures forall i :: 0 <= i < |data| ==> data[i] == (ArtistIds()[i], artists[ArtistIds()[i]].name)
      ensures Valid() ==> |data| == |artists|
    {
      var ids := ArtistIds();
      data := [];
      for i := 0 to |ids|
        invariant |data| == i
        invariant forall k :: 0 <= k < i ==> data[k] == (ids[k], artists[ids[k]].name)
      {
        data := data + [(ids[i], artists[ids[i]].name)];
      }
      if Valid() {
        IdsCount(artists, nextArtistId);
      }
    }

    /** `shows`: every show in start-time order, joined to its venue and artist. */
    method Shows() returns (r: Result<seq<ShowListing>, Error>)
      ensures r == ShowListingOf(ShowRows(), venues, artists)
    {
      var all := ShowRows();
      var sorted := SortByStart(all);
      var ok, data := JoinListings(sorted);
      if !ok {
        assert !(VenuesResolve(all, venues) && ArtistsResolve(all, artists));
        return Failure(IntegrityError);
      }
      r := Success(data);
    }

    /** The loop of `shows`: each show, in the given order, joined to its venue and artist. */
    method JoinListings(ss: seq<Show>) returns (ok: bool, data: seq<ShowListing>)
      ensures ok <==> VenuesResolve(ss, venues) && ArtistsResolve(ss, artists)
      ensures ok ==> data == Listings(ss, venues, artists)
    {
      data := [];
      for i := 0 to |ss|
        invariant VenuesResolve(ss[..i], venues) && ArtistsResolve(ss[..i], artists)
        invariant |data| == i
        invariant forall k :: 0 <= k < i ==> data[k] == ListingOf(ss[k], venues, artists)
      {
        var show := ss[i];
        if show.venueId !in venues || show.artistId !in artists {
          assert show in ss;
          return false, data;
        }
        assert ss[..i + 1] == ss[..i] + [show];
        var v, a := venues[show.venueId], artists[show.artistId];
        data := data + [ShowListing(show.venueId, v.name, show.artistId, a.name, a.imageLink, show.startTime)];
      }
      assert ss[..|ss|] == ss;
      ok := true;
    }

    // ------------------------------------------------------------ writes

    /**
     * `create_venue_submission`: build the row from the form and commit it
     * under the next id. A missing key fails before anything is added; a row
     * that does not fit its columns, or a commit the database refuses, is
     * rolled back.
     */
    method CreateVenueSubmission(form: Form, committed: bool) returns (r: Result<int, Error>)
      requires Valid()
      modifies this
      ensures Valid()
      ensures r.Success? <==> NewVenue(form).Success? && VenueFits(NewVenue(form).value) && committed
      ensures r.Failure? ==> unchanged(this)
      ensures r.Failure? ==> r.error == if NewVenue(form).Failure? then NewVenue(form).error else StorageError
      ensures r.Success? ==> r.value == old(nextVenueId) && forall k :: k in old(venues) ==> k < r.value
      ensures r.Success? ==> venues == old(venues)[r.value := NewVenue(form).value] && nextVenueId == old(nextVenueId) + 1
      ensures r.Success? ==> artists == old(artists) && shows == old(shows)
      ensures r.Success? ==> nextArtistId == old(nextArtistId) && nextShowId == old(nextShowId)
      ensures old(ShowsResolve()) ==> ShowsResolve()
    {
      var venue :- NewVenue(form);
      if !VenueFits(venue) || !committed {
        return Failure(StorageError);
      }
      r := Success(nextVenueId);
      venues := venues[nextVenueId := venue];
      nextVenueId := nextVenueId + 1;
    }

    /** `create_artist_submission`: the artist counterpart of CreateVenueSubmission. */
    method CreateArtistSubmission(form: Form, committed: bool) returns (r: Result<int, Error>)
      requires Valid()
      modifies this
      ensures Valid()
      ensures r.Success? <==> NewArtist(form).Success? && ArtistFits(NewArtist(form).value) && committed
      ensures r.Failure? ==> unchanged(this)
      ensures r.Failure? ==> r.error == if NewArtist(form).Failure? then NewArtist(form).error else StorageError
      ensures r.Success? ==> r.value == old(nextArtistId) && forall k :: k in old(artists) ==> k < r.value
      ensures r.Success? ==> artists == old(artists)[r.value := NewArtist(form).value] && nextArtistId == old(nextArtistId) + 1
      ensures r.Success? ==> venues == old(venues) && shows == old(shows)
      ensures r.Success? ==> nextVenueId == old(nextVenueId) && nextShowId == old(nextShowId)
      ensures old(ShowsResolve()) ==> ShowsResolve()
    {
      var artist :- NewArtist(form);
      if !ArtistFits(artist) || !committed {
        return Failure(StorageError);
      }
      r := Success(nextArtistId);
      artists := artists[nextArtistId := artist];
      nextArtistId := nextArtistId + 1;
    }

    /**
     * `edit_venue_submission`: overwrite the venue's fields from the form and
     * commit. The id keeps naming the same venue, so its shows stay attached.
     */
    method EditVenueSubmission(venueId: int, form: Form, committed: bool) returns (r: Result<(), Error>)
      requires Valid()
      modifies this
      ensures Valid()
      ensures r.Success? <==> EditVenue(Find(old(venues), venueId), form).Success? && VenueFits(EditVenue(Find(old(venues), venueId), form).value) && committed
      ensures r.Failure? ==> unchanged(this)
      ensures r.Failure? && EditVenue(Find(old(venues), venueId), form).Failure? ==> r.error == EditVenue(Find(old(venues), venueId), form).error
      ensures r.Failure? && EditVenue(Find(old(venues), venueId), form).Success? ==> r.error == StorageError
      ensures r.Success? ==> venueId in old(venues) && venues == old(venues)[venueId := EditVenue(Find(old(venues), venueId), form).value]
      ensures r.Success? ==> artists == old(artists) && shows == old(shows)
      ensures r.Success? ==> nextVenueId == old(nextVenueId) && nextArtistId == old(nextArtistId) && nextShowId == old(nextShowId)
      ensures old(ShowsResolve()) ==> ShowsResolve()
    {
      var venue :- EditVenue(Find(venues, venueId), form);
      if !VenueFits(venue) || !committed {
        return Failure(StorageError);
      }
      venues := venues[venueId := venue];
      r := Success(());
    }

    /** `edit_artist_submission`, with the seeking flag stored in the `seeking_venue` column. */
    method EditArtistSubmission(artistId: int, form: Form, committed: bool) returns (r: Result<(), Error>)
      requires Valid()
      modifies this
      ensures Valid()
      ensures r.Success? <==> EditArtist(Find(old(artists), artistId), form).Success? && ArtistFits(EditArtist(Find(old(artists), artistId), form).value) && committed
      ensures r.Failure? ==> unchanged(this)
      ensures r.Failure? && EditArtist(Find(old(artists), artistId), form).Failure? ==> r.error == EditArtist(Find(old(artists), artistId), form).error
      ensures r.Failure? && EditArtist(Find(old(artists), artistId), form).Success? ==> r.error == StorageError
      ensures r.Success? ==> artistId in old(artists) && artists == old(artists)[artistId := EditArtist(Find(old(artists), artistId), form).value]
      ensures r.Success? ==> venues == old(venues) && shows == old(shows)
      ensures r.Success? ==> nextVenueId == old(nextVenueId) && nextArtistId == old(nextArtistId) && nextShowId == old(nextShowId)
      ensures old(ShowsResolve()) ==> ShowsResolve()
    {
      var artist :- EditArtist(Find(artists, artistId), form);
      if !ArtistFits(artist) || !committed {
        return Failure(StorageError);
      }
      artists := artists[artistId := artist];
      r := Success(());
    }

    /**
     * `delete_venue`: remove the venue's row. Its shows are not removed; they
     * no longer name an existing venue, so the foreign keys keep holding
     * exactly when no show was booked there.
     */
    method DeleteVenue(venueId: int, committed: bool) returns (r: Result<(), Error>)
      requires Valid()
      modifies this
      ensures Valid()
      ensures r.Success? <==> venueId in old(venues) && committed
      ensures r.Failure? ==> unchanged(this)
      ensures r.Failure? ==> r.error == if venueId in old(venues) then StorageError else NotFound
      ensures r.Success? ==> venues == old(venues) - {venueId} && artists == old(artists) && shows == old(shows)
      ensures r.Success? ==> nextVenueId == old(nextVenueId) && nextArtistId == old(nextArtistId) && nextShowId == old(nextShowId)
      ensures r.Success? && old(ShowsResolve()) ==> (ShowsResolve() <==> forall k :: k in shows ==> shows[k].venueId != venueId)
    {
      if venueId !in venues {
        return Failure(NotFound);
      }
      if !committed {
        return Failure(StorageError);
      }
      venues := venues - {venueId};
      r := Success(());
    }

    /** `delete_artist`: remove the artist's row; its shows stay and no longer resolve. */
    method DeleteArtist(artistId: int, committed: bool) returns (r: Result<(), Error>)
      requires Valid()
      modifies this
      ensures Valid()
      ensures r.Success? <==> artistId in old(artists) && committed
      ensures r.Failure? ==> unchanged(this)
      ensures r.Failure? ==> r.error == if artistId in old(artists) then StorageError else NotFound
      ensures r.Success? ==> artists == old(artists) - {artistId} && venues == old(venues) && shows == old(shows)
      ensures r.Success? ==> nextVenueId == old(nextVenueId) && nextArtistId == old(nextArtistId) && nextShowId == old(nextShowId)
      ensures r.Success? && old(ShowsResolve()) ==> (ShowsResolve() <==> forall k :: k in shows ==> shows[k].artistId != artistId)
    {
      if artistId !in artists {
        return Failure(NotFound);
      }
      if !committed {
        return Failure(StorageError);
      }
      artists := artists - {artistId};
      r := Success(());
    }

    /**
     * `create_show_submission`: add a show under the next id. The foreign
     * keys refuse a show whose artist or venue does not exist.
     */
    method CreateShowSubmission(artistId: int, venueId: int, startTime: int, committed: bool) returns (r: Result<int, Error>)
      requires Valid()
      modifies this
      ensures Valid()
      ensures r.Success? <==> artistId in old(artists) && venueId in old(venues) && committed
      ensures r.Failure? ==> unchanged(this)
      ensures r.Failure? ==> r.error == if artistId in old(artists) && venueId in old(venues) then StorageError else IntegrityError
      ensures r.Success? ==> r.value == old(nextShowId) && forall k :: k in old(shows) ==> k < r.value
      ensures r.Success? ==> shows == old(shows)[r.value := Show(startTime, artistId, venueId)] && nextShowId == old(nextShowId) + 1
      ensures r.Success? ==> venues == old(venues) && artists == old(artists)
      ensures r.Success? ==> nextVenueId == old(nextVenueId) && nextArtistId == old(nextArtistId)
      ensures old(ShowsResolve()) ==> ShowsResolve()
    {
      if artistId !in artists || venueId !in venues {
        return Failure(IntegrityError);
      }
      if !committed {
        return Failure(StorageError);
      }
      r := Success(nextShowId);
      shows := shows[nextShowId := Show(startTime, artistId, venueId)];
      nextShowId := nextShowId + 1;
    }
  }
}
