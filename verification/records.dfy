/**
 * The `Venue` and `Artist` rows, the submitted request form they are built
 * from, and the record-level halves of the create and edit handlers.
 */
module Records {
  import opened Wrappers
  import opened Genres

  /** Why an operation of the directory failed. */
  datatype Error =
    | NotFound               // the id does not name a row
    | MissingField(key: string)  // a required form key was not submitted
    | IntegrityError         // a show names an artist or venue that does not exist
    | StorageError           // the database refused the commit

  /** A `Venue` row without its id; `genres` is the ", "-joined tag list. */
  datatype Venue = Venue(
    name: string, city: string, state: string, address: string, phone: string,
    genres: string, website: string, imageLink: string, facebookLink: string,
    seekingTalent: bool, seekingDescription: string)

  /** An `Artist` row without its id. */
  datatype Artist = Artist(
    name: string, city: string, state: string, phone: string,
    genres: string, imageLink: string, website: string, facebookLink: string,
    seekingVenue: bool, seekingDescription: string)

  /** A submitted form: each key with the values submitted under it, in order. */
  type Form = map<string, seq<string>>

  /** `key` is among the submitted keys (`request.form.items()` lists it). */
  predicate Present(form: Form, key: string) {
    key in form && |form[key]| > 0
  }

  /** `request.form[key]`: the first value under `key`, or a failure when it is absent. */
  function Get(form: Form, key: string): (r: Result<string, Error>)
    ensures r.Success? <==> Present(form, key)
    ensures r.Success? ==> r.value == form[key][0]
    ensures r.Failure? ==> r.error == MissingField(key)
  {
    if Present(form, key) then Success(form[key][0]) else Failure(MissingField(key))
  }

  /** `request.form.getlist(key)`: every value under `key`, possibly none. */
  function GetList(form: Form, key: string): (r: seq<string>)
    ensures Get(form, key).Success? ==> r != [] && r[0] == Get(form, key).value
    ensures !Present(form, key) ==> r == []
  {
    if key in form then form[key] else []
  }

  /** Every key of `keys` was submitted. */
  predicate HasAll(form: Form, keys: seq<string>) {
    forall k :: k in keys ==> Present(form, k)
  }

  const VenueKeys: seq<string> :=
    ["name", "city", "state", "address", "phone", "website", "image_link", "facebook_link", "seeking_description"]

  const ArtistKeys: seq<string> :=
    ["name", "city", "state", "phone", "website", "image_link", "facebook_link", "seeking_description"]

  /** A tag list that survives storage: non-empty, and no tag contains the separator. */
  predicate StorableTags(tags: seq<string>) {
    |tags| >= 1 && forall i :: 0 <= i < |tags| ==> NoSep(tags[i])
  }

  /**
   * The row fits its columns: `String(120)` for the short text columns and
   * `String(500)` for the image link; `name` and `seeking_description` are
   * unbounded. A row that does not fit is refused by the database at commit.
   */
  predicate VenueFits(v: Venue) {
    |v.city| <= 120 && |v.state| <= 120 && |v.address| <= 120 && |v.phone| <= 120 &&
    |v.genres| <= 120 && |v.website| <= 120 && |v.imageLink| <= 500 && |v.facebookLink| <= 120
  }

  predicate ArtistFits(a: Artist) {
    |a.city| <= 120 && |a.state| <= 120 && |a.phone| <= 120 && |a.genres| <= 120 &&
    |a.imageLink| <= 500 && |a.website| <= 120 && |a.facebookLink| <= 120
  }

  /**
   * The row built by the venue create handler: the first value of each
   * required key, the joined genre list and a seeking flag that is set when
   * the key `seeking_talent` was submitted at all, whatever its value.
   */
  function NewVenue(form: Form): (r: Result<Venue, Error>)
    ensures r.Success? <==> HasAll(form, VenueKeys)
    ensures r.Failure? ==> r.error.MissingField? && r.error.key in VenueKeys && !Present(form, r.error.key)
    ensures r.Success? ==> Get(form, "name") == Success(r.value.name) && Get(form, "city") == Success(r.value.city)
    ensures r.Success? ==> Get(form, "address") == Success(r.value.address)
    ensures r.Success? ==> Get(form, "state") == Success(r.value.state) && Get(form, "phone") == Success(r.value.phone)
    ensures r.Success? ==> Get(form, "website") == Success(r.value.website) && Get(form, "image_link") == Success(r.value.imageLink)
    ensures r.Success? ==> Get(form, "facebook_link") == Success(r.value.facebookLink)
    ensures r.Success? ==> Get(form, "seeking_description") == Success(r.value.seekingDescription)
    ensures r.Success? ==> r.value.seekingTalent == Present(form, "seeking_talent")
    ensures r.Success? ==> r.value.genres == Join(GetList(form, "genres"))
    ensures r.Success? && StorableTags(GetList(form, "genres")) ==> Split(r.value.genres) == GetList(form, "genres")
  {
    var name :- Get(form, "name");
    var city :- Get(form, "city");
    var state :- Get(form, "state");
    var address :- Get(form, "address");
    var phone :- Get(form, "phone");
    var tags := GetList(form, "genres");
    var website :- Get(form, "website");
    var imageLink :- Get(form, "image_link");
    var facebookLink :- Get(form, "facebook_link");
    var seekingTalent := Present(form, "seeking_talent");
    var seekingDescription :- Get(form, "seeking_description");
    var venue := Venue(name, city, state, address, phone, Join(tags), website, imageLink, facebookLink, seekingTalent, seekingDescription);
    if StorableTags(tags) then SplitJoin(tags); Success(venue) else Success(venue)
  }

  /** The artist create handler's row; the seeking flag is the presence of `seeking_venue`. */
  function NewArtist(form: Form): (r: Result<Artist, Error>)
    ensures r.Success? <==> HasAll(form, ArtistKeys)
    ensures r.Failure? ==> r.error.MissingField? && r.error.key in ArtistKeys && !Present(form, r.error.key)
    ensures r.Success? ==> Get(form, "name") == Success(r.value.name) && Get(form, "city") == Success(r.value.city)
    ensures r.Success? ==> Get(form, "state") == Success(r.value.state) && Get(form, "phone") == Success(r.value.phone)
    ensures r.Success? ==> Get(form, "website") == Success(r.value.website) && Get(form, "image_link") == Success(r.value.imageLink)
    ensures r.Success? ==> Get(form, "facebook_link") == Success(r.value.facebookLink)
    ensures r.Success? ==> Get(form, "seeking_description") == Success(r.value.seekingDescription)
    ensures r.Success? ==> r.value.seekingVenue == Present(form, "seeking_venue")
    ensures r.Success? ==> r.value.genres == Join(GetList(form, "genres"))
    ensures r.Success? && StorableTags(GetList(form, "genres")) ==> Split(r.value.genres) == GetList(form, "genres")
  {
    var name :- Get(form, "name");
    var city :- Get(form, "city");
    var state :- Get(form, "state");
    var phone :- Get(form, "phone");
    var tags := GetList(form, "genres");
    var website :- Get(form, "website");
    var imageLink :- Get(form, "image_link");
    var facebookLink :- Get(form, "facebook_link");
    var seekingVenue := Present(form, "seeking_venue");
    var seekingDescription :- Get(form, "seeking_description");
    var artist := Artist(name, city, state, phone, Join(tags), imageLink, website, facebookLink, seekingVenue, seekingDescription);
    if StorableTags(tags) then SplitJoin(tags); Success(artist) else Success(artist)
  }

  /** The edit handlers store a submitted link "None" as the empty string. */
  function NormalizeLink(s: string): (r: string)
    ensures r == "" <==> s == "" || s == "None"
    ensures s != "None" ==> r == s
  {
    if s == "None" then "" else s
  }

  /**
   * The same test as written, `s is 'None'`: an identity test against a
   * literal, which a string freshly parsed from a request never passes, so
   * the value is kept verbatim.
   */
  function NormalizeLinkAsWritten(s: string): string {
    s
  }

  /** What a successful venue edit stores: the row a create would build, with "None" links cleared. */
  function VenueEdited(v: Venue): Venue {
    v.(website := NormalizeLink(v.website), imageLink := NormalizeLink(v.imageLink),
       facebookLink := NormalizeLink(v.facebookLink))
  }

  /** What a successful artist edit stores. */
  function ArtistEdited(a: Artist): Artist {
    a.(website := NormalizeLink(a.website), imageLink := NormalizeLink(a.imageLink),
       facebookLink := NormalizeLink(a.facebookLink))
  }

  /**
   * The venue edit handler's assignments on the fetched row `current`
   * (None when the id does not resolve). `request.form['name']` is read
   * before the first assignment fails on a missing row.
   */
  function EditVenue(current: Option<Venue>, form: Form): (r: Result<Venue, Error>)
    ensures r.Success? <==> current.Some? && HasAll(form, VenueKeys)
    ensures r.Success? ==> r.value == VenueEdited(NewVenue(form).value)
    ensures current.None? && Present(form, "name") ==> r == Failure(NotFound)
    ensures current.Some? && r.Failure? ==> r.error.MissingField? && !Present(form, r.error.key)
  {
    var name :- Get(form, "name");
    if current.None? then Failure(NotFound)
    else
      var city :- Get(form, "city");
      var state :- Get(form, "state");
      var address :- Get(form, "address");
      var phone :- Get(form, "phone");
      var website :- Get(form, "website");
      var imageLink :- Get(form, "image_link");
      var facebookLink :- Get(form, "facebook_link");
      var seekingDescription :- Get(form, "seeking_description");
      Success(current.value.(
        name := name, city := city, state := state, address := address, phone := phone,
        genres := Join(GetList(form, "genres")),
        website := NormalizeLink(website), imageLink := NormalizeLink(imageLink),
        facebookLink := NormalizeLink(facebookLink),
        seekingTalent := Present(form, "seeking_talent"),
        seekingDescription := seekingDescription))
  }

  /** The artist edit handler with the seeking flag written to the `seeking_venue` column. */
  function EditArtist(current: Option<Artist>, form: Form): (r: Result<Artist, Error>)
    ensures r.Success? <==> current.Some? && HasAll(form, ArtistKeys)
    ensures r.Success? ==> r.value == ArtistEdited(NewArtist(form).value)
    ensures current.None? && Present(form, "name") ==> r == Failure(NotFound)
    ensures current.Some? && r.Failure? ==> r.error.MissingField? && !Present(form, r.error.key)
  {
    var name :- Get(form, "name");
    if current.None? then Failure(NotFound)
    else
      var city :- Get(form, "city");
      var state :- Get(form, "state");
      var phone :- Get(form, "phone");
      var website :- Get(form, "website");
      var imageLink :- Get(form, "image_link");
      var facebookLink :- Get(form, "facebook_link");
      var seekingDescription :- Get(form, "seeking_description");
      Success(current.value.(
        name := name, city := city, state := state, phone := phone,
        genres := Join(GetList(form, "genres")),
        website := NormalizeLink(website), imageLink := NormalizeLink(imageLink),
        facebookLink := NormalizeLink(facebookLink),
        seekingVenue := Present(form, "seeking_venue"),
        seekingDescription := seekingDescription))
  }

  /**
   * The artist edit handler as written: the flag goes to the attribute
   * `seeking_venue_`, which is not a column, so the stored flag keeps its old
   * value; and the "None" test is the identity test of NormalizeLinkAsWritten.
   */
  function EditArtistAsWritten(current: Option<Artist>, form: Form): (r: Result<Artist, Error>)
    ensures r.Success? <==> current.Some? && HasAll(form, ArtistKeys)
    ensures r.Success? ==> r.value == NewArtist(form).value.(seekingVenue := current.value.seekingVenue)
  {
    var name :- Get(form, "name");
    if current.None? then Failure(NotFound)
    else
      var city :- Get(form, "city");
      var state :- Get(form, "state");
      var phone :- Get(form, "phone");
      var website :- Get(form, "website");
      var imageLink :- Get(form, "image_link");
      var facebookLink :- Get(form, "facebook_link");
      var seekingDescription :- Get(form, "seeking_description");
      Success(current.value.(
        name := name, city := city, state := state, phone := phone,
        genres := Join(GetList(form, "genres")),
        website := NormalizeLinkAsWritten(website), imageLink := NormalizeLinkAsWritten(imageLink),
        facebookLink := NormalizeLinkAsWritten(facebookLink),
        seekingDescription := seekingDescription))
  }

  /** An edit overwrites every mutable field: the stored row does not depend on the row it replaces. */
  lemma EditIgnoresPreviousRow(v1: Venue, v2: Venue, a1: Artist, a2: Artist, form: Form)
    ensures EditVenue(Some(v1), form) == EditVenue(Some(v2), form)
    ensures EditArtist(Some(a1), form) == EditArtist(Some(a2), form)
  {
  }

  /** A form that sets every artist field and ticks the seeking box. */
  const TickedArtistForm: Form := map[
    "name" := ["Guns N Petals"], "city" := ["San Francisco"], "state" := ["CA"],
    "phone" := ["326-123-5000"], "website" := ["None"], "image_link" := ["None"],
    "facebook_link" := ["None"], "seeking_venue" := ["y"], "seeking_description" := [""]]

  const UnseekingArtist: Artist :=
    Artist("Guns N Petals", "San Francisco", "CA", "326-123-5000", "Rock n Roll", "", "", "", false, "")

  /** As written, ticking the seeking box on edit does not set the flag, and "None" links are kept. */
  lemma EditArtistAsWrittenLosesSeekingFlag()
    ensures EditArtistAsWritten(Some(UnseekingArtist), TickedArtistForm).Success?
    ensures !EditArtistAsWritten(Some(UnseekingArtist), TickedArtistForm).value.seekingVenue
    ensures EditArtistAsWritten(Some(UnseekingArtist), TickedArtistForm).value.website == "None"
    ensures EditArtist(Some(UnseekingArtist), TickedArtistForm).value.seekingVenue
    ensures EditArtist(Some(UnseekingArtist), TickedArtistForm).value.website == ""
  {
    assert HasAll(TickedArtistForm, ArtistKeys);
  }

  /**
   * On an existing row the two edits accept the same forms, and the stored
   * rows differ only in the seeking flag, which the as-written edit keeps,
   * and in the links, which it stores as submitted.
   */
  lemma EditArtistAsWrittenDiffers(current: Artist, form: Form)
    ensures EditArtistAsWritten(Some(current), form).Success? <==> EditArtist(Some(current), form).Success?
    ensures EditArtist(Some(current), form).Success? ==>
      EditArtistAsWritten(Some(current), form).value
        == EditArtist(Some(current), form).value.(
             seekingVenue := current.seekingVenue,
             website := Get(form, "website").value,
             imageLink := Get(form, "image_link").value,
             facebookLink := Get(form, "facebook_link").value)
  {
  }

  /** The identity test never clears a submitted "None"; the equality test does. */
  lemma NoneLinkKeptAsWritten()
    ensures NormalizeLinkAsWritten("None") == "None" != NormalizeLink("None")
  {
  }
}
