/**
 * Short sessions against a fresh database, each ending on a page: what a
 * visitor sees after listing a venue, and after booking a show.
 */
module Scenarios {
  import opened Wrappers
  import opened Tables
  import opened Genres
  import opened Schedule
  import opened Records
  import opened Views
  import opened Directory

  /** A venue listed from a form reads back on its page with the submitted name, the ticked genres and no shows. */
  method ListThenShowVenue(form: Form, now: int) returns (page: Result<VenueDetail, Error>)
    ensures page.Success? <==> NewVenue(form).Success? && VenueFits(NewVenue(form).value)
    ensures page.Failure? ==> page.error == if NewVenue(form).Failure? then NewVenue(form).error else StorageError
    ensures page.Success? ==> Get(form, "name") == Success(page.value.name)
    ensures page.Success? ==> page.value.pastShows == [] && page.value.upcomingShows == []
    ensures page.Success? && StorableTags(GetList(form, "genres")) ==> page.value.genres == GetList(form, "genres")
  {
    var store := new Store();
    var id := store.CreateVenueSubmission(form, true);
    if id.Failure? {
      return Failure(id.error);
    }
    IdsCount(store.shows, store.nextShowId);
    page := store.ShowVenue(id.value, now);
  }

  /** A table holding one show reads back as that show. */
  lemma OneShowRow(shows: map<int, Show>, next: nat, show: Show)
    requires shows == map[1 := show] && next == 2
    ensures Rows(shows, Ids(shows, next)) == [show]
  {
    assert 0 !in shows && 1 in shows;
    assert Ids(shows, 1) == Ids(shows, 0) == [];
    assert Ids(shows, 2) == [1];
    assert Rows(shows, [1])[0] == show;
  }

  /** A single resolved show lands, joined to its artist, in the bucket its start time picks. */
  lemma OneShowBuckets(artists: map<int, Artist>, show: Show, now: int)
    requires show.artistId in artists
    ensures ArtistsResolve([show], artists)
    ensures show.startTime >= now ==> ArtistSlots(Upcoming([show], now), artists) == [ArtistSlotOf(show, artists)]
    ensures show.startTime >= now ==> ArtistSlots(Past([show], now), artists) == []
    ensures show.startTime < now ==> ArtistSlots(Past([show], now), artists) == [ArtistSlotOf(show, artists)]
    ensures show.startTime < now ==> ArtistSlots(Upcoming([show], now), artists) == []
  {
    assert [] + [show] == [show];
    assert Upcoming([], now) == [] && Past([], now) == [];
    ArtistBucketStep([], show, artists, now);
  }

  /** A venue whose only show resolves lists it once, in the bucket its start time picks. */
  lemma OneShowPage(venues: map<int, Venue>, artists: map<int, Artist>, show: Show, now: int)
    requires show.venueId in venues && show.artistId in artists
    ensures VenueDetailOf(venues, artists, [show], show.venueId, now).Success?
    ensures var page := VenueDetailOf(venues, artists, [show], show.venueId, now).value;
      && page.upcomingShowsCount == |page.upcomingShows| && page.pastShowsCount == |page.pastShows|
      && (show.startTime >= now ==> page.upcomingShows == [ArtistSlotOf(show, artists)] && page.pastShows == [])
      && (show.startTime < now ==> page.pastShows == [ArtistSlotOf(show, artists)] && page.upcomingShows == [])
  {
    assert AtVenue([show], show.venueId) == [show] by {
      assert [] + [show] == [show];
    }
    OneShowBuckets(artists, show, now);
  }

  /**
   * List a venue and an artist, book the artist there at `startTime`, and
   * open the venue's page: the show is listed once, under upcoming exactly
   * when it starts at or after `now`, with the artist's name.
   */
  method BookThenShowVenue(venueForm: Form, artistForm: Form, startTime: int, now: int)
    returns (page: Result<VenueDetail, Error>)
    ensures page.Success? <==> NewVenue(venueForm).Success? && VenueFits(NewVenue(venueForm).value) && NewArtist(artistForm).Success? && ArtistFits(NewArtist(artistForm).value)
    ensures page.Success? ==> page.value.upcomingShowsCount + page.value.pastShowsCount == 1
    ensures page.Success? ==> page.value.upcomingShowsCount == if startTime >= now then 1 else 0
    ensures page.Success? && startTime >= now ==> |page.value.upcomingShows| == 1 && Get(artistForm, "name") == Success(page.value.upcomingShows[0].artistName)
    ensures page.Success? && startTime < now ==> |page.value.pastShows| == 1 && Get(artistForm, "name") == Success(page.value.pastShows[0].artistName)
  {
    var store := new Store();
    var venueId := store.CreateVenueSubmission(venueForm, true);
    if venueId.Failure? {
      return Failure(venueId.error);
    }
    var artistId := store.CreateArtistSubmission(artistForm, true);
    if artistId.Failure? {
      return Failure(artistId.error);
    }
    var showId := store.CreateShowSubmission(artistId.value, venueId.value, startTime, true);
    assert store.artists[artistId.value] == NewArtist(artistForm).value;
    var show := Show(startTime, artistId.value, venueId.value);
    assert store.shows == map[1 := show] && store.nextShowId == 2;
    OneShowRow(store.shows, store.nextShowId, show);
    assert store.ShowRows() == [show];
    OneShowPage(store.venues, store.artists, show, now);
    page := store.ShowVenue(venueId.value, now);
  }
}
