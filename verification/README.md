# fyyur booking directory — a Dafny model

fyyur is a small Flask site that lists music venues and artists and the shows
that book an artist at a venue. Its core is one file, `app.py`: three tables
(`Venue`, `Artist`, `Show`) and the request handlers that read and change them.
This project models that core:

- **Tables** (`store.dfy`, class `Directory.Store`): each table is a map from
  id to row, plus the next id the table will hand out. The rows are the
  `Records.Venue` and `Records.Artist` datatypes and `Schedule.Show`. A query
  without `ORDER BY` promises no order; the model reads rows back in
  ascending id order (`Tables.Ids`).
- **Listing pages** (`views.dfy`): venues grouped by (city, state), each with
  its number of upcoming shows. Case-insensitive substring search over names
  (`text.dfy`, SQL `ILIKE '%term%'`). A venue's or an artist's page with its
  shows split into past and upcoming at the moment `now`. The show listing
  sorted by start time.
- **Forms** (`records.dfy`, `editing.dfy`): the submitted form is a multi-dict.
  `request.form[key]` is the first value under the key, or a failure when the
  key is absent. Genre tags are stored as one `", "`-joined string and split
  back on the pages (`genres.dfy`). A seeking box counts as ticked when its key
  was submitted at all.
- **Handlers**: every read handler that lists or shows rows is a `Store`
  method; the two edit-form pages (`edit_venue`, `edit_artist`) are the
  `EditPages` functions. The loops of each `Store` read method do what the
  handler's loops do (counting, appending to buckets). Each such method is
  proved equal to a specification function in `Views`, except `Store.Artists`,
  whose contract states its entries one by one. The properties are
  lemmas about those functions: the partition into past and upcoming, exact
  counts, one area per location, search exactness, sortedness and
  permutation. Every write handler is a `Store` method that either commits its
  whole change or leaves every table as it was.

The current time is the parameter `now`, one value per request, where the
source reads the clock again for each show; a start time is an `int` on the
same clock. Whether the database accepts a commit is the parameter `committed`.
The model assumes a database engine that enforces the declared column lengths
(PostgreSQL does for `VARCHAR(n)`; SQLite does not, and `app.py` does not name
the engine): a row that does not fit its `String(120)`/`String(500)` columns is
refused.
A show whose artist or venue is missing makes the source raise on attribute
access of `None`. The model returns `IntegrityError` in that case, and
`NotFound` for a page whose own id does not resolve.

Deleting a venue or an artist neither cascades to its shows nor is refused:
the relationships have no cascade, so the ORM detaches the shows and the
delete goes through. The model follows the code. It removes the row and
keeps the shows, so they no longer resolve; `DeleteVenue` and `DeleteArtist`
state exactly when the foreign keys still hold afterwards. Ids are never
reused, so a detached show can never come to name a different row.

## Model

| member | source | states |
|---|---|---|
| Directory.Store.constructor | app.py:33-72 | a new database has three empty tables and each hands out id 1 first |
| Directory.Store.ShowsResolve | app.py:71-72 | the foreign keys of `Show`: every stored show names a stored artist and a stored venue; every write handler's contract says when it holds afterwards |
| Directory.Find | app.py:159 | `query.get(id)` yields the row exactly when the id is a key |
| Directory.Store.VenueIds | app.py:103-109 | the enumerated venue ids all name stored venues |
| Directory.Store.ShowRows | app.py:116 | every row `Show.query` reads is a stored show; `Tables.Ids` and `Tables.Rows` give the id order |
| Directory.Store.ArtistIds | app.py:337 | the enumerated artist ids all name stored artists |
| Tables.Ids | app.py:337 | a table scan yields exactly the stored ids below the next id, strictly ascending |
| Tables.IdsCount | app.py:337 | when every key is below the next id, the scan yields one id per row |
| Tables.IdsCountUnder | app.py:337 | the scan up to any bound has as many ids as there are keys under that bound |
| Tables.Rows | app.py:549 | the rows fetched for an id list match it one to one, in order |
| Seqs.Filter | app.py:116-119 | a `filter_by` keeps exactly the matching rows, never more than it was given |
| Seqs.FilterDistinct | app.py:109 | filtering a list without repeats gives a list without repeats |
| Schedule.ClassifyNext | app.py:190-195 | one more show goes to the end of the upcoming list when it starts at or after `now`, else to the end of the past list |
| Schedule.IsUpcoming | app.py:118 | a show counts as upcoming when `start_time >= today()`, here `now` |
| Schedule.Upcoming | app.py:190-192 | the shows of a list that pass the upcoming test, in row order; `TimePartition` and `BucketMembers` state what it selects |
| Schedule.Past | app.py:193-195 | the shows of a list that fail the upcoming test, in row order |
| Schedule.BucketMembers | app.py:190-195 | a show is in the upcoming list exactly when it is in the list and starts at or after `now`, and in the past list exactly when it starts before |
| Schedule.AtVenue | app.py:180 | `Show.query.filter_by(venue_id=…)` returns exactly the shows booked at that venue |
| Schedule.ByArtist | app.py:394 | `Show.query.filter_by(artist_id=…)` returns exactly the shows of that artist |
| Schedule.TimePartition | app.py:190-195 | the upcoming and past lists of a show list split it: same multiset, lengths adding up, each show in exactly one |
| Schedule.CountUpcoming | app.py:116-119 | the loop counting shows with `start_time >= now` yields the size of the upcoming list, that is the total minus the past ones |
| Schedule.Insert | app.py:549 | inserting a show into a start-time-ordered list keeps it ordered and adds that show once |
| Schedule.SortedAppend | app.py:549 | a show starting no earlier than every show of an ordered list may follow them |
| Schedule.SortByStart | app.py:549 | `order_by('start_time')` yields an ordered permutation of the shows |
| Views.UpcomingCountsAreExact | app.py:116-119 | a venue's or artist's upcoming count plus its past shows is all its shows, and the upcoming ones are exactly its shows at or after `now` |
| Views.Locations | app.py:103 | the distinct (city, state) pairs have no repeats and are exactly the venues' locations |
| Views.VenueAreas | app.py:100-127 | the venues page: one area per distinct (city, state), each listing its venues with their upcoming counts; `AreasPartitionVenues`, `AreasListVenuesOnce` and `AreaKeysDistinct` state what it holds |
| Views.VenueSummaries | app.py:110-121 | each listed venue with its id, name and number of upcoming shows, in the order given |
| Views.ArtistSummaries | app.py:358-366 | each matched artist with its id, name and number of upcoming shows, in the order given |
| Views.VenueUpcoming | app.py:114-119 | a venue's `num_upcoming_shows`: how many of its shows start at or after `now`; `UpcomingCountsAreExact` states what it counts |
| Views.ArtistUpcoming | app.py:361-365 | an artist's `num_upcoming_shows`: how many of its shows start at or after `now` |
| Views.AreaAt | app.py:104-123 | one `city_state` entry: the location and the summaries of the venues there |
| Views.VenuesAt | app.py:109 | the venues fetched for a location are stored venues |
| Views.AreaKeysDistinct | app.py:103-125 | no two areas of the venues page share a (city, state) |
| Views.AreasPartitionVenues | app.py:103-125 | every venue is listed in the area of its own (city, state) and in no other, and every entry is a venue of that area with its name and upcoming count |
| Views.AreasListVenuesOnce | app.py:103-125 | when the scanned ids have no repeats, no area lists a venue twice |
| Views.VenueInExactlyOneArea | app.py:103-125 | a venue appears in the one area of its own location and in no other |
| Views.MatchingVenues | app.py:141 | the venue search query returns stored venues |
| Views.MatchingArtists | app.py:356 | the artist search query returns stored artists |
| Views.VenueSearchExact | app.py:141-152 | the count equals the number of results; the results are exactly the venues whose name contains the term ignoring case, in id order, each with its exact upcoming count |
| Views.VenueSearch | app.py:129-154 | the venue search response: the matches with their upcoming counts, and `count` equal to the number of matches |
| Views.ArtistSearch | app.py:345-369 | the artist search response: the matches with their upcoming counts, and `count` equal to the number of matches |
| Views.ArtistSearchExact | app.py:356-367 | the same for artists |
| Views.EmptyTermKeepsVenues | app.py:135-141 | the empty term matches every venue |
| Views.EmptyTermKeepsArtists | app.py:350-356 | the empty term matches every artist |
| Views.EmptyVenueSearchListsAll | app.py:135-141 | a search with no term lists every venue, its count the number of venues |
| Views.EmptyArtistSearchListsAll | app.py:350-356 | a search with no term lists every artist |
| Views.ArtistSlots | app.py:181-187 | joining a venue's shows to their artists keeps one entry per show |
| Views.VenueSlots | app.py:395-401 | joining an artist's shows to their venues keeps one entry per show |
| Views.ArtistSlotOf | app.py:182-188 | one show of a venue page joined to its artist: the artist's id, name and image link and the start time |
| Views.VenueSlotOf | app.py:396-402 | one show of an artist page joined to its venue: the venue's id, name and image link and the start time |
| Views.ArtistSlotsNext | app.py:181-187 | the join of one more show is the previous join plus that show's entry |
| Views.VenueSlotsNext | app.py:395-401 | the same for venue entries |
| Views.ArtistBucketStep | app.py:180-195 | one more resolved show adds its joined entry to exactly one bucket of the venue page |
| Views.VenueBucketStep | app.py:394-409 | one more resolved show adds its joined entry to exactly one bucket of the artist page |
| Views.ArtistBucketStepAt | app.py:180-195 | the venue-page bucket step, stated at a position of the show list |
| Views.VenueBucketStepAt | app.py:394-409 | the artist-page bucket step, stated at a position of the show list |
| Views.ArtistSlotBucketsNext | app.py:189-195 | bucketing joined entries by start time extends like bucketing shows |
| Views.VenueSlotBucketsNext | app.py:403-409 | the same for venue entries |
| Views.UpcomingArtistSlotsOfJoined | app.py:180-195 | joining then keeping upcoming entries equals keeping upcoming shows then joining |
| Views.PastArtistSlotsOfJoined | app.py:180-195 | the same for past entries |
| Views.UpcomingVenueSlotsOfJoined | app.py:394-409 | the same on the artist page, upcoming |
| Views.PastVenueSlotsOfJoined | app.py:394-409 | the same on the artist page, past |
| Views.ArtistSlotBucketsPartition | app.py:189-195 | the two buckets of a venue page hold every joined show once |
| Views.VenueSlotBucketsPartition | app.py:403-409 | the two buckets of an artist page hold every joined show once |
| Views.VenueDetailPartition | app.py:156-197 | on a venue page every show resolves, each count is its bucket's length, the counts add up to the venue's shows, and the buckets are the joined shows split by time in order |
| Views.VenueDetailOf | app.py:156-200 | the venue page: NotFound for an unknown id, IntegrityError when a show's artist is missing, else the columns, the split genres and the shows joined to their artists and split by time; `DetailFailures` and `VenueDetailPartition` state what it holds |
| Views.ArtistDetailOf | app.py:371-414 | the artist page: the same, with shows joined to their venues; `DetailFailures` and `ArtistDetailPartition` state what it holds |
| Views.ArtistDetailPartition | app.py:371-411 | the same for an artist page |
| Views.DetailFailures | app.py:156-197 | a page fails with NotFound exactly when its id is missing, and with IntegrityError exactly when one of its shows does not resolve |
| Views.GenresReadBack | app.py:164 | a venue created from a form shows the form's genre tags on its page |
| Views.Listings | app.py:550-565 | the show listing has one line per show, each the show joined to its venue and artist |
| Views.ListingOf | app.py:552-563 | one line of the show listing: the venue's id and name, the artist's id, name and image link, and the start time |
| Views.ShowListingOf | app.py:545-567 | the listing succeeds exactly when every show resolves, and otherwise fails with IntegrityError |
| Views.ShowListingSortedPermutation | app.py:549-565 | a successful listing has one line per show, ordered by start time, built from a permutation of the shows |
| Text.EmptyTermMatches | app.py:141 | `ILIKE '%%'` matches every name |
| Text.Lower | app.py:141 | lower-casing keeps the length, leaves no upper-case ASCII letter and changes nothing else |
| Text.ILike | app.py:141 | `name ILIKE '%term%'`: the lower-cased term occurs in the lower-cased name; `VenueSearchExact` and the `Text` lemmas state its behaviour |
| Text.LowerIdempotent | app.py:141 | lower-casing twice is lower-casing once |
| Text.ILikeIgnoresCase | app.py:141 | a match does not depend on the case of the name or the term |
| Text.ContainedMatches | app.py:141 | a name containing the term verbatim matches it |
| Text.VenueSearchExamples | app.py:131-133 | "hop" and "Music" find "The Musical Hop"; "Music" finds "Park Square Live Music & Coffee" |
| Text.ArtistSearchExamples | app.py:347-349 | "A" finds "Guns N Petals", "Matt Quevado" and "The Wild Sax Band"; "band" finds "The Wild Sax Band" |
| Genres.Split | app.py:164 | splitting on ", " always yields at least one tag |
| Genres.Join | app.py:216 | `', '.join(tags)`: the first tag begins the stored string; `SplitJoin` and `JoinSplit` give the round trip |
| Genres.SplitFrom | app.py:164 | the split continued from a partial tag yields at least one tag |
| Genres.SkipPlain | app.py:164 | characters before the next separator all go into the current tag |
| Genres.SplitJoin | app.py:216 | tags free of ", " read back unchanged after being joined and split |
| Genres.JoinSplitFrom | app.py:262 | joining a continued split restores its text |
| Genres.JoinSplit | app.py:262 | joining the split of any stored genre string restores it |
| Genres.EmptyTagsReadBackAsOneEmptyTag | app.py:216 | a form with no genre ticked reads back as one empty tag |
| Records.Get | app.py:211 | `request.form[key]` is the key's first value when present, else a missing-field failure naming the key |
| Records.GetList | app.py:216 | `request.form.getlist(key)`: its first value is what `request.form[key]` yields, and it is empty when the key was not submitted |
| Records.Present | app.py:220 | a key counts as submitted when it is among the form's items, that is it carries at least one value |
| Records.VenueFits | app.py:38-45 | a venue row fits its columns: at most 120 characters each, 500 for the image link |
| Records.ArtistFits | app.py:55-61 | an artist row fits its columns: at most 120 characters each, 500 for the image link |
| Records.NewVenue | app.py:207-237 | the create handler builds a row exactly when all nine required keys are present, else fails on a missing key; each column is its key's first value, the genres the joined tag list, and the seeking flag the presence of `seeking_talent` |
| Records.NewArtist | app.py:421-449 | the same for artists, with eight required keys and `seeking_venue` |
| Records.NormalizeLink | app.py:294-296 | a link submitted as "None" is stored empty, and every other link unchanged |
| Records.EditVenue | app.py:280-299 | an edit succeeds exactly when the row exists and all keys are present; it stores the created row with "None" links cleared; a missing row fails with NotFound once `name` is read, and missing keys fail naming the key |
| Records.EditArtist | app.py:492-509 | the same for artists, with the seeking flag stored in `seeking_venue` |
| Records.VenueEdited | app.py:289-298 | the row a successful venue edit stores: the columns a create would build from the form, with "None" links cleared |
| Records.ArtistEdited | app.py:499-508 | the row a successful artist edit stores, with "None" links cleared |
| Records.EditArtistAsWritten | app.py:492-509 | the edit as written stores the created row but keeps the old seeking flag |
| Records.EditIgnoresPreviousRow | app.py:289-298 | an edit overwrites every column: the result does not depend on the row it replaces |
| Records.EditArtistAsWrittenDiffers | app.py:492-509 | on an existing row both edits accept the same forms, and their rows differ only in the seeking flag (kept as written) and the links (stored as submitted) |
| Records.EditArtistAsWrittenLosesSeekingFlag | app.py:507 | as written, ticking the seeking box on edit leaves the flag false and keeps a "None" link |
| Records.NoneLinkKeptAsWritten | app.py:294 | the identity test leaves "None" in place; the equality test clears it |
| Records.NormalizeLinkAsWritten | app.py:294-296 | the identity test `is 'None'` never holds for a submitted string, so every link is stored as submitted |
| EditPages.EditVenuePage | app.py:253-278 | the venue edit page exists exactly for stored ids; its tags join back to the stored genres and it preselects the stored state and seeking flag |
| EditPages.EditArtistPage | app.py:466-490 | the same for artists |
| EditPages.VenueResubmission | app.py:289-298 | assuming the page template shows each prefilled value in the field of the same name (the handler sets defaults only for genres, state and the seeking box), the untouched venue edit form carries each prefilled value under the key the edit handler reads, the tags under `genres`, and `seeking_talent` exactly when the flag was set |
| EditPages.ArtistResubmission | app.py:499-508 | the same for the artist edit form and `seeking_venue` |
| EditPages.VenueResubmissionKeepsRow | app.py:253-299 | submitting the venue edit page untouched stores the row it came from |
| EditPages.ArtistResubmissionKeepsRow | app.py:466-509 | submitting the artist edit page untouched stores the row it came from |
| Directory.Store.SummarizeVenues | app.py:110-121 | the loop building a venue per entry with its upcoming count yields the specified summaries |
| Directory.Store.CountAndSummarizeVenues | app.py:141-152 | the search loop counts one per match and builds each match's summary with its exact upcoming count |
| Directory.Store.CountAndSummarizeArtists | app.py:356-367 | the same for artists |
| Directory.Store.Venues | app.py:100-127 | the venues page equals the grouped-by-location specification, and no area lists a venue twice |
| Directory.Store.SearchVenues | app.py:129-154 | the search page equals the specified search and its running count equals its number of results |
| Directory.Store.SearchArtists | app.py:345-369 | the same for artists |
| Directory.Store.BucketArtistSlots | app.py:180-195 | the loop over a venue's shows succeeds exactly when they all resolve, filling each bucket with its joined shows in order and counting them |
| Directory.Store.BucketVenueSlots | app.py:394-409 | the same over an artist's shows |
| Directory.Store.ShowVenue | app.py:156-197 | the venue page equals the specified page, including its failures |
| Directory.Store.ShowArtist | app.py:371-411 | the artist page equals the specified page, including its failures |
| Directory.Store.Artists | app.py:334-343 | the artists page lists each artist's id and name in row order, one entry per artist |
| Directory.Store.Shows | app.py:545-567 | the shows page equals the sorted, joined listing, or IntegrityError |
| Directory.Store.JoinListings | app.py:550-565 | the listing loop succeeds exactly when every show resolves, and then yields each show joined to its venue and artist, in order |
| Directory.Store.CreateVenueSubmission | app.py:207-248 | a venue is added under the next id exactly when the form is complete, the row fits and the commit goes through; otherwise nothing changes and the error names why |
| Directory.Store.CreateArtistSubmission | app.py:421-461 | the same for artists |
| Directory.Store.EditVenueSubmission | app.py:280-312 | the venue is replaced by the edited row exactly when the edit succeeds, fits and commits; otherwise nothing changes; the foreign keys still hold |
| Directory.Store.EditArtistSubmission | app.py:492-516 | the same for artists, storing the corrected edit: the submitted seeking flag is saved |
| Directory.Store.DeleteVenue | app.py:317-330 | the venue is removed exactly when it exists and the commit goes through; afterwards the foreign keys hold exactly when no show was booked there |
| Directory.Store.DeleteArtist | app.py:521-540 | the same for artists |
| Directory.Store.CreateShowSubmission | app.py:578-602 | a show is added under the next id exactly when its artist and venue exist and the commit goes through; a dangling reference fails with IntegrityError; the foreign keys keep holding |
| Scenarios.ListThenShowVenue | app.py:156-248 | a venue listed from a form reads back with the submitted name, the ticked genres and no shows |
| Scenarios.OneShowRow | app.py:549 | a table holding one show reads back as that show |
| Scenarios.OneShowBuckets | app.py:189-195 | a single resolved show lands, joined to its artist, in the bucket its start time picks and leaves the other empty |
| Scenarios.OneShowPage | app.py:180-195 | a venue whose only show resolves lists it once, in the bucket its start time picks |
| Scenarios.BookThenShowVenue | app.py:156-602 | after listing a venue and an artist and booking the artist there, the venue page lists that show once, under upcoming exactly when it starts at or after `now`, with the artist's name |

## Left out

- Flask routing, templates, `flash` messages, redirects and the 404/500 error pages. Handlers return values; failures are `Error` values.
- `format_datetime` and the string rendering of start times. Start times are integers on one clock, and the create-show form's text fields arrive as integers.
- Directory.Store.CreateShowSubmission: takes the artist id, venue id and start time as parameters, so the fields are assumed present; the `KeyError` of a missing field (app.py:582-584) is not modelled.
- The database session lifecycle (`close`), concurrency between requests, and logging.
- `ILIKE` wildcard characters (`%`, `_`) inside the search term, and case folding beyond ASCII. The term is matched as plain text, with ASCII letters folded.
- The `search_term` default of the empty string is the caller's: the search methods take the term directly.
- Storage failures other than column lengths are the `committed` parameter. The id sequence of the real database advances even on a rolled-back insert; here a failed create leaves the next id unchanged.
- The ORM sets the foreign key of a deleted row's shows to NULL rather than leaving the old id. The model keeps the old id. Ids are never reused, and every read treats such a show the same way (it matches no page of the deleted row, makes its counterpart's page fail, and fails the show listing), so the two cannot be told apart.
- The delete handlers take the id as text from the URL. The model takes an integer id; text that is not a number fails in the source before any change.
- An edit assigns column by column on the fetched row. The model replaces the row in one step; the commit makes both all-or-nothing.
- SQL `DISTINCT` and `query.all()` promise no order. The model lists locations by first appearance in id order and rows by ascending id.
- Directory.Store.EditVenueSubmission: clears a submitted "None" link through the corrected `Records.NormalizeLink`. As written the source never clears it (app.py:294-296); that behaviour is `Records.NormalizeLinkAsWritten`.
- Directory.Store.EditArtistSubmission: stores the corrected edit `Records.EditArtist`, so a successful edit saves the submitted seeking flag. The source as written keeps the old flag (app.py:507); that behaviour is `Records.EditArtistAsWritten`, and `Records.EditArtistAsWrittenDiffers` states how the two stored rows differ.
- Schedule.SortByStart: sorts by insertion, keeping equal start times in their original order. The database promises no order among equal start times, so the model fixes one of the allowed orders.

## Findings

| source | as written | input that shows it | evidently intended | confidence | as-written member | corrected member |
|---|---|---|---|---|---|---|
| app.py:507 | the seeking flag is assigned to `artist.seeking_venue_`, which is not a column, so the edit never stores it | editing an artist whose flag is false with a form that submits `seeking_venue` | store the flag in `seeking_venue`, as the create handler does | high (not executed) | Records.EditArtistAsWrittenLosesSeekingFlag | Records.EditArtist |
| app.py:294-296 | `request.form['website'] is 'None'` (and the same test on the other links, and at lines 504-506) tests object identity, which a submitted string never shares with the literal | submitting the link "None" on an edit stores "None" | store an empty link when "None" is submitted (`==`) | high (not executed) | Records.NoneLinkKeptAsWritten | Records.NormalizeLink |
