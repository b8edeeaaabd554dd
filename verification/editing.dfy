/**
 * The edit pages: the stored row of a venue or an artist turned into the
 * values an edit form starts with, its genres split back into tags. Sending
 * such a form back unchanged stores the row it came from.
 */
module EditPages {
  import opened Wrappers
  import opened Genres
  import opened Records

  /** What the venue edit page shows and preselects. */
  datatype VenuePrefill = VenuePrefill(
    id: int, name: string, genres: seq<string>, address: string, city: string, state: string,
    phone: string, website: string, facebookLink: string, seekingTalent: bool,
    seekingDescription: string, imageLink: string)

  /** What the artist edit page shows and preselects. */
  datatype ArtistPrefill = ArtistPrefill(
    id: int, name: string, genres: seq<string>, city: string, state: string, phone: string,
    website: string, facebookLink: string, seekingVenue: bool, seekingDescription: string,
    imageLink: string)

  /** `edit_venue`: the row with id `id`, or a failure when there is none. */
  function EditVenuePage(venues: map<int, Venue>, id: int): (r: Result<VenuePrefill, Error>)
    ensures r.Success? <==> id in venues
    ensures r.Failure? ==> r.error == NotFound
    ensures r.Success? ==> r.value.id == id && Join(r.value.genres) == venues[id].genres
    ensures r.Success? ==> r.value.seekingTalent == venues[id].seekingTalent && r.value.state == venues[id].state
  {
    if id !in venues then Failure(NotFound)
    else
      var v := venues[id];
      JoinSplit(v.genres);
      Success(VenuePrefill(id, v.name, Split(v.genres), v.address, v.city, v.state, v.phone,
        v.website, v.facebookLink, v.seekingTalent, v.seekingDescription, v.imageLink))
  }

  /** `edit_artist`: the row with id `id`, or a failure when there is none. */
  function EditArtistPage(artists: map<int, Artist>, id: int): (r: Result<ArtistPrefill, Error>)
    ensures r.Success? <==> id in artists
    ensures r.Failure? ==> r.error == NotFound
    ensures r.Success? ==> r.value.id == id && Join(r.value.genres) == artists[id].genres
    ensures r.Success? ==> r.value.seekingVenue == artists[id].seekingVenue && r.value.state == artists[id].state
  {
    if id !in artists then Failure(NotFound)
    else
      var a := artists[id];
      JoinSplit(a.genres);
      Success(ArtistPrefill(id, a.name, Split(a.genres), a.city, a.state, a.phone,
        a.website, a.facebookLink, a.seekingVenue, a.seekingDescription, a.imageLink))
  }

  /**
   * The form posted when the venue edit page is submitted untouched. The
   * handler sets defaults only for the genres, the state and the seeking box;
   * that the page template shows every other prefilled value in the field the
   * edit handler reads is an assumption of the model. A cleared box sends no key.
   */
  function VenueResubmission(p: VenuePrefill): (r: Form)
    ensures Get(r, "name") == Success(p.name) && Get(r, "city") == Success(p.city)
    ensures Get(r, "state") == Success(p.state) && Get(r, "address") == Success(p.address)
    ensures Get(r, "phone") == Success(p.phone) && Get(r, "website") == Success(p.website)
    ensures Get(r, "image_link") == Success(p.imageLink) && Get(r, "facebook_link") == Success(p.facebookLink)
    ensures Get(r, "seeking_description") == Success(p.seekingDescription)
    ensures GetList(r, "genres") == p.genres && Present(r, "seeking_talent") == p.seekingTalent
  {
    var fields := map[
      "name" := [p.name], "city" := [p.city], "state" := [p.state], "address" := [p.address],
      "phone" := [p.phone], "genres" := p.genres, "website" := [p.website],
      "image_link" := [p.imageLink], "facebook_link" := [p.facebookLink],
      "seeking_description" := [p.seekingDescription]];
    if p.seekingTalent then fields["seeking_talent" := ["y"]] else fields
  }

  /** The same for the artist edit page, under the same assumption about its template. */
  function ArtistResubmission(p: ArtistPrefill): (r: Form)
    ensures Get(r, "name") == Success(p.name) && Get(r, "city") == Success(p.city)
    ensures Get(r, "state") == Success(p.state) && Get(r, "phone") == Success(p.phone)
    ensures Get(r, "website") == Success(p.website) && Get(r, "image_link") == Success(p.imageLink)
    ensures Get(r, "facebook_link") == Success(p.facebookLink)
    ensures Get(r, "seeking_description") == Success(p.seekingDescription)
    ensures GetList(r, "genres") == p.genres && Present(r, "seeking_venue") == p.seekingVenue
  {
    var fields := map[
      "name" := [p.name], "city" := [p.city], "state" := [p.state], "phone" := [p.phone],
      "genres" := p.genres, "website" := [p.website], "image_link" := [p.imageLink],
      "facebook_link" := [p.facebookLink], "seeking_description" := [p.seekingDescription]];
    if p.seekingVenue then fields["seeking_venue" := ["y"]] else fields
  }

  /** No link of the row is the text "None", which an edit would clear. */
  predicate VenueLinksKept(v: Venue) {
    v.website != "None" && v.imageLink != "None" && v.facebookLink != "None"
  }

  predicate ArtistLinksKept(a: Artist) {
    a.website != "None" && a.imageLink != "None" && a.facebookLink != "None"
  }

  /** Submitting the venue edit page untouched stores the row it was filled from. */
  lemma {:induction false} VenueResubmissionKeepsRow(venues: map<int, Venue>, id: int)
    requires id in venues && VenueLinksKept(venues[id])
    ensures EditVenue(Some(venues[id]), VenueResubmission(EditVenuePage(venues, id).value)) == Success(venues[id])
  {
    var v := venues[id];
    var p := EditVenuePage(venues, id).value;
    var form := VenueResubmission(p);
    assert HasAll(form, VenueKeys);
    assert NewVenue(form).value == v;
  }

  /** Submitting the artist edit page untouched stores the row it was filled from. */
  lemma {:induction false} ArtistResubmissionKeepsRow(artists: map<int, Artist>, id: int)
    requires id in artists && ArtistLinksKept(artists[id])
    ensures EditArtist(Some(artists[id]), ArtistResubmission(EditArtistPage(artists, id).value)) == Success(artists[id])
  {
    var a := artists[id];
    var p := EditArtistPage(artists, id).value;
    var form := ArtistResubmission(p);
    assert HasAll(form, ArtistKeys);
    assert NewArtist(form).value == a;
  }
}
