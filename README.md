# 2HTSounds band site — a Dafny model of its data rules and page state

The 2HTSounds website is a Next.js application backed by MongoDB through
Mongoose. Visitors see shows, songs and an about page, and can send a booking
request. An admin area manages events, songs, musicians, bookings and the
site's marketing copy. This project models, and proves properties of:

- the five Mongoose schemas (Booking, Event, Song with its embedded credits,
  Musician with its unique (name, instrument) index, SiteSettings). Each is a
  validating, normalising function from a request body with optional paths
  to an optional stored document. Setters (`trim`, `lowercase`) run before
  `required`, `default` fills an absent path, and the enum validators run.
- the API routes over in-memory collections. Each collection is a `class`
  whose `docs: seq<…>` field the methods reassign, with `nextId` standing for
  fresh `_id`s. A route answers a `Response(status, payload)`. Covered are:
  - the site-settings singleton (get-or-create, validate then
    update-or-create);
  - the musician upsert keyed by the trimmed pair;
  - the events listing (upcoming, by date);
  - the bookings and songs listings (newest first);
  - the validated inserts.
- the migrations:
  - the `isPublic` backfill (001);
  - the default-settings `up`/`down` (002);
  - the runner loop with its counters and exit code.
- the client pages' local state, each a `class PageState` (or `Dashboard`,
  `VideoModal`). A server reply is a parameter of type
  `Reply = Succeeded(data) | Failed(error) | Threw`. Covered are the admin
  bookings, events, musicians, songs, new-song and dashboard pages, and the
  public songs, shows and booking pages.

Dates and instants are integers. "Now" and `createdAt` are parameters.
`parseInt`, the browser's date parsing and the schema's date cast are
function parameters. A shared generic stable insertion sort (`Sorting.SortBy`)
stands for every `.sort(...)`, under a proved total preorder. A generic
`Lists.Filter` stands for every `.filter(...)` and `find(filter)`.

Where the code and the written design of the system disagree, the model
follows the code:

- `GET /api/events` has no `isPublic` filter and takes no parameters. Private
  upcoming events are listed (`EventsRoute.PrivateUpcomingListed`), and a
  query such as `includePrivate=true` changes nothing.
- `POST /api/musicians` checks emptiness on the untrimmed values, and its
  `findOneAndUpdate` upsert does not run the schema's validators. A
  white-space-only name passes and is stored as `""`
  (`MusiciansRoute.BlankNameStored`).
- The Song schema has no `lyrics` path.
- The migration runner registers only migration 001. Migration 002 is not in
  its list.
- The SiteSettings text paths have no `trim` setter, and PUT stores them as
  sent.

## Model

| member | source | states |
|---|---|---|
| BookingModel.ParseEventType | src/lib/models/Booking.ts:42-46 | accepts exactly the six event-type names, and inverts `EventTypeName` |
| BookingModel.EventTypeRoundTrip | src/lib/models/Booking.ts:42-46 | every event type's stored name parses back to it |
| BookingModel.ParseStatus | src/lib/models/Booking.ts:74-78 | accepts exactly the four status names, and inverts `StatusName` |
| BookingModel.StatusRoundTrip | src/lib/models/Booking.ts:74-78 | every status's stored name parses back to it |
| BookingModel.ValidateBooking | src/lib/models/Booking.ts:21-83 | accepted iff every required path is non-empty after its setters, the event type is one of six and a given status is one of four; a missing required path or an unknown enum value is rejected; email is stored trimmed and lower-cased; name, venue and phone are trimmed; the other paths are stored as given; status defaults to pending |
| BookingModel.OptionalPathsIrrelevant | src/lib/models/Booking.ts:34-37 | phone, expectedAttendance and budget never decide acceptance |
| BookingModel.ValidateStored | src/lib/models/Booking.ts:21-83 | a stored booking sent back as a body is stored unchanged (the setters are idempotent) |
| EventModel.ValidateEvent | src/lib/models/Event.ts:20-74 | accepted iff the seven required paths are present and non-empty (title and venue after trimming); title, venue, ticketUrl and bookingId are trimmed; the others are stored as given; isPublic defaults to true |
| EventModel.OptionalPathsIrrelevant | src/lib/models/Event.ts:52-69 | ticketUrl, price, imageUrl, isPublic and bookingId never decide acceptance |
| SongModel.ValidateCredit | src/lib/models/Song.ts:28-39 | a credit is accepted iff both paths are non-empty after trimming, and is stored trimmed |
| SongModel.ValidateSong | src/lib/models/Song.ts:41-97 | accepted iff the trimmed title is non-empty and every credit is acceptable; credits keep their order and are each the validated entry; the trimmed and untrimmed paths are as declared; isOriginal defaults to true |
| MusicianModel.ValidateMusician | src/lib/models/Musician.ts:10-26 | accepted iff both paths are non-empty after trimming; both are stored trimmed |
| MusicianModel.IndexInsert | src/lib/models/Musician.ts:28 | an insert is refused iff the pair is already held; otherwise it appends, and it keeps the pairs unique |
| MusicianModel.SecondInsertFails | src/lib/models/Musician.ts:28 | after one insert of a pair, a second insert of the same pair fails |
| SiteSettingsModel.CreateSettings | src/lib/models/SiteSettings.ts:21-56 | accepted iff no text path is given as ""; an absent text path takes its default; contactEmail is trimmed and lower-cased, contactPhone trimmed, both optional |
| SiteSettingsModel.CreateFromNothing | src/lib/models/SiteSettings.ts:23-42 | creating from `{}` gives the four defaults, heroTitle "2HTSounds", and no contact details |
| Schema.Trimmed | src/lib/models/Booking.ts:23-27 | the `trim` setter: presence is kept and a present value becomes its trim |
| Schema.EmailNormalised | src/lib/models/Booking.ts:28-33 | the `trim` + `lowercase` setters: presence is kept and a present value becomes its lower-cased trim |
| Schema.FilledTrimmed | src/lib/models/Booking.ts:23-27 | a trimmed required path accepts exactly the values holding a non-white character |
| Schema.SettersIdempotent | src/lib/models/Booking.ts:23-33 | applying either setter twice is applying it once |
| SiteSettingsRoute.AfterGet | src/app/api/site-settings/route.ts:10-14 | GET leaves at least one document: the collection unchanged when it held one, else exactly the schema defaults |
| SiteSettingsRoute.AfterPut | src/app/api/site-settings/route.ts:37-64 | an unaccepted PUT changes nothing; an accepted one makes the first document the applied values, creates it when there is none, and keeps the others |
| SiteSettingsRoute.CreateAgreesWithApplied | src/app/api/site-settings/route.ts:47-64 | the create branch stores the same document as the update branch |
| SiteSettingsRoute.GetIdempotent | src/app/api/site-settings/route.ts:10-14 | a second GET changes nothing; from at most one document, GET leaves exactly one |
| SiteSettingsRoute.PutThenGet | src/app/api/site-settings/route.ts:10-14 | after a successful PUT, GET returns the PUT's values |
| SiteSettingsRoute.AtMostOnePreserved | src/app/api/site-settings/route.ts:10-64 | from at most one document, neither GET nor PUT yields more than one |
| SiteSettingsRoute.SettingsStore.Get | src/app/api/site-settings/route.ts:5-27 | the collection becomes `AfterGet` of the old one and the answer is 200 with its first document |
| SiteSettingsRoute.SettingsStore.Put | src/app/api/site-settings/route.ts:29-77 | the collection becomes `AfterPut`; a missing or empty text path answers 400 "Missing required fields"; otherwise 200 with the applied document |
| MusiciansRoute.ListingSortedAndComplete | src/app/api/musicians/route.ts:11 | the listing is sorted by name and is a permutation of the collection |
| MusiciansRoute.FindPair | src/app/api/musicians/route.ts:35-36 | finds a document holding the pair iff one exists |
| MusiciansRoute.PostResult | src/app/api/musicians/route.ts:22-49 | absent or empty raw values answer 400 and write nothing; an existing trimmed pair answers 201 with that record and writes nothing; otherwise exactly one trimmed record is appended and answered with 201 |
| MusiciansRoute.PostKeepsUnique | src/app/api/musicians/route.ts:35-39 | POST keeps the pairs unique |
| MusiciansRoute.PostIdempotent | src/app/api/musicians/route.ts:35-39 | a second POST of the same request changes nothing and answers the same |
| MusiciansRoute.WhitespaceVariant | src/app/api/musicians/route.ts:35-39 | requests differing only in surrounding white space have the same effect and answer |
| MusiciansRoute.BlankNameStored | src/app/api/musicians/route.ts:28-39 | a white-space-only name passes the guard and stores an empty name |
| MusiciansRoute.MusicianStore.Get | src/app/api/musicians/route.ts:8-20 | answers 200 with every musician, sorted by name |
| MusiciansRoute.MusicianStore.Post | src/app/api/musicians/route.ts:22-49 | keeps the unique index and the fresh-id invariant; the new state and the answer are `PostResult` of the old state |
| EventsRoute.UpcomingCorrect | src/app/api/events/route.ts:10-11 | an event is listed iff it is stored with date >= now; the listing is in date order and lists each once |
| EventsRoute.PrivateUpcomingListed | src/app/api/events/route.ts:5-11 | a private upcoming event is listed |
| EventsRoute.EventStore.Get | src/app/api/events/route.ts:5-22 | answers 200 with the upcoming events, exactly those with date >= now, in date order |
| EventsRoute.EventStore.Post | src/app/api/events/route.ts:24-43 | an invalid body answers 500 and changes nothing; a valid one appends exactly the validated event and answers 201 |
| BookingsRoute.ListingCorrect | src/app/api/bookings/route.ts:9-10 | the listing holds every booking, newest first |
| BookingsRoute.BookingStore.Get | src/app/api/bookings/route.ts:5-21 | answers 200 with every booking, newest first |
| BookingsRoute.BookingStore.Post | src/app/api/bookings/route.ts:23-42 | an invalid body answers 500 and changes nothing; a valid one appends exactly the validated booking and answers 201; a supplied status is kept, and pending applies only when it is absent |
| SongsRoute.ListingCorrect | src/app/api/songs/route.ts:9-11 | the listing holds every song, newest first |
| SongsRoute.SongStore.Get | src/app/api/songs/route.ts:5-21 | answers 200 with every song, newest first |
| SongsRoute.SongStore.Post | src/app/api/songs/route.ts:23-42 | existing songs are never modified; an invalid body answers 500 and changes nothing; a valid one appends exactly the validated song, stamped now, and answers 201 |
| MigrationEventPublic.Backfilled | src/lib/migrations/001-add-event-public-field.ts:46-57 | an event lacking isPublic gets isPublic true and bookingId null; any other event is untouched |
| MigrationEventPublic.Backfill | src/lib/migrations/001-add-event-public-field.ts:46-57 | every event is backfilled in place, and the length is kept |
| MigrationEventPublic.BackfillComplete | src/lib/migrations/001-add-event-public-field.ts:30-57 | after the backfill no event lacks isPublic |
| MigrationEventPublic.BackfillIdempotent | src/lib/migrations/001-add-event-public-field.ts:46-57 | backfilling twice is backfilling once |
| MigrationEventPublic.BackfillKeeps | src/lib/migrations/001-add-event-public-field.ts:49 | ids are kept; an event that had isPublic keeps its bookingId; one that lacked it gets a null bookingId |
| MigrationEventPublic.CountLackingSnoc | src/lib/migrations/001-add-event-public-field.ts:30-32 | the count of events lacking isPublic grows by one exactly at such an event |
| MigrationEventPublic.BackfillDocs | src/lib/migrations/001-add-event-public-field.ts:46-57 | the `updateMany` pass over the documents yields exactly the backfilled collection, and its modified count is the number of events that lacked isPublic |
| MigrationEventPublic.AddEventPublicField | src/lib/migrations/001-add-event-public-field.ts:16-87 | with no database handle or a failed connection, nothing is written and the result is a failure with a one-element errors list; when nothing lacks isPublic, the result is "not needed", modifiedCount 0 and nothing is written; otherwise the collection is backfilled and modifiedCount is the number of events that lacked isPublic |
| MigrationEventPublic.SecondRunNotNeeded | src/lib/migrations/001-add-event-public-field.ts:30-57 | a second run finds nothing to do and the backfill changes nothing |
| MigrationSiteSettings.UpInputValid | src/lib/migrations/002-add-site-settings.ts:11-29 | up's body passes the schema and is stored as given, with empty contact strings |
| MigrationSiteSettings.UpDiffersFromSchemaDefaults | src/lib/migrations/002-add-site-settings.ts:19-23 | up's about-page text is not the schema default; its other three texts are |
| MigrationSiteSettings.AfterUp | src/lib/migrations/002-add-site-settings.ts:11-32 | up creates the document only in an empty collection and otherwise changes nothing |
| MigrationSiteSettings.UpIdempotent | src/lib/migrations/002-add-site-settings.ts:11-32 | running up twice is running it once, and leaves one document |
| MigrationSiteSettings.UpAfterDown | src/lib/migrations/002-add-site-settings.ts:11-29 | up after down recreates exactly the one default document |
| MigrationSiteSettings.AfterDown | src/lib/migrations/002-add-site-settings.ts:47 | down removes every settings document |
| MigrationSiteSettings.Up | src/lib/migrations/002-add-site-settings.ts:4-37 | the collection becomes `AfterUp` of the old one |
| MigrationSiteSettings.Down | src/lib/migrations/002-add-site-settings.ts:39-53 | the collection becomes empty |
| MigrationRunner.ExitCode | src/lib/migrations/index.ts:62-68 | the exit code is 1 iff some migration failed, and 0 iff none did |
| MigrationRunner.RunMigrations | src/lib/migrations/index.ts:26-55 | migrations run in list order, each once; a success is a returned `success: true`, and a failure is anything else, including a crash; the counts sum to the number of migrations; the exit code follows the failure count |
| MigrationRunner.RunRegistered | src/lib/migrations/index.ts:13-20 | the registry runs only 001; one outcome is counted; the exit code is 0 iff the database connection was established; the events are backfilled when connected and some event lacks isPublic, and are otherwise left as they were; no id is used up |
| AdminBookingsPage.AsView | src/app/admin/bookings/page.tsx:45-60 | the JSON of a stored booking carries a status and event type that parse back to the stored ones |
| AdminBookingsPage.FilteredBookings | src/app/admin/bookings/page.tsx:91-94 | 'all' is the whole list; a status selects exactly the bookings with that status, as many as the status button counts |
| AdminBookingsPage.FilteredKeepsOrder | src/app/admin/bookings/page.tsx:91-94 | the selection of a concatenation is the concatenation of the selections, so the original order and every copy are kept |
| AdminBookingsPage.CountsSumToTotal | src/app/admin/bookings/page.tsx:167 | when every status is one of the four, the four counts sum to the 'all' count |
| AdminBookingsPage.StatusColor | src/app/admin/bookings/page.tsx:105-113 | total: an unknown status gets the grey default, and a known one another colour |
| AdminBookingsPage.StatusColorsDistinct | src/app/admin/bookings/page.tsx:105-113 | the four statuses get four different colours |
| AdminBookingsPage.EventTypeDisplay | src/app/admin/bookings/page.tsx:115-124 | anything outside the six names shows as 'Other' |
| AdminBookingsPage.OfferedTransitions | src/app/admin/bookings/page.tsx:283-325 | pending offers confirm and decline, confirmed offers complete, anything else offers nothing |
| AdminBookingsPage.OfferedExactlyAllowed | src/app/admin/bookings/page.tsx:283-325 | an action is offered iff it is pending→confirmed, pending→declined or confirmed→completed |
| AdminBookingsPage.FinalStatusesHaveNoAction | src/app/admin/bookings/page.tsx:283-325 | declined and completed bookings get no action |
| AdminBookingsPage.WithStatus | src/app/admin/bookings/page.tsx:75-80 | only the status of the booking with the matching id changes; the length and all other entries are kept |
| AdminBookingsPage.PageState.FetchBookings | src/app/admin/bookings/page.tsx:45-60 | success loads the list; failure or an exception keeps it and shows "Failed to load bookings"; loading ends |
| AdminBookingsPage.PageState.UpdateBookingStatus | src/app/admin/bookings/page.tsx:62-89 | success applies `WithStatus`; failure or an exception keeps the list and alerts |
| AdminBookingsPage.PageState.SetFilter | src/app/admin/bookings/page.tsx:160 | only the filter changes |
| AdminEventsPage.WithoutEvent | src/app/admin/events/page.tsx:73-74 | exactly the events with another id remain |
| AdminEventsPage.WithVisibility | src/app/admin/events/page.tsx:98-102 | only the matching events' isPublic is replaced |
| AdminEventsPage.DeleteKeepsOrder | src/app/admin/events/page.tsx:73-74 | the remaining events keep their order |
| AdminEventsPage.ToggleTwice | src/app/admin/events/page.tsx:85-112 | toggling twice from the shown flag gives the list back |
| AdminEventsPage.DeleteIdempotent | src/app/admin/events/page.tsx:73-74 | a deleted id is gone, and deleting it again changes nothing |
| AdminEventsPage.PageState.HandleDelete | src/app/admin/events/page.tsx:60-83 | a cancelled dialog sends nothing and changes nothing; success removes the event; failure keeps the list and alerts |
| AdminEventsPage.PageState.ToggleEventVisibility | src/app/admin/events/page.tsx:85-112 | sends the negation of the current flag; success flips only the matching event; failure keeps the list and alerts |
| AdminMusiciansPage.Replaced | src/app/admin/musicians/page.tsx:55-64 | only the entry with the edited id is replaced by the returned record |
| AdminMusiciansPage.Appended | src/app/admin/musicians/page.tsx:69-77 | the returned record is added and the list is re-sorted by name |
| AdminMusiciansPage.AppendDuplicates | src/app/admin/musicians/page.tsx:69-77 | an add whose reply is an already listed record lists it twice (no `_id` check) |
| AdminMusiciansPage.WithoutMusician | src/app/admin/musicians/page.tsx:92-94 | exactly the musicians with another id remain |
| AdminMusiciansPage.DeleteKeepsOrder | src/app/admin/musicians/page.tsx:92-94 | the remaining musicians keep their order |
| AdminMusiciansPage.ErrorText | src/app/admin/musicians/page.tsx:65-67 | the reply's error text, or the fallback when it carries none |
| AdminMusiciansPage.PageState.ResetForm | src/app/admin/musicians/page.tsx:45-48 | the form is cleared and editingId becomes null; nothing else changes |
| AdminMusiciansPage.PageState.StartEdit | src/app/admin/musicians/page.tsx:199-202 | the form holds the musician's name and instrument, and editingId is its id |
| AdminMusiciansPage.PageState.HandleSubmit | src/app/admin/musicians/page.tsx:50-87 | sends a PUT when editing, else a POST; success replaces or appends-and-sorts, then resets the form; failure keeps the list and form and sets the error |
| AdminMusiciansPage.PageState.HandleDelete | src/app/admin/musicians/page.tsx:89-99 | a cancelled dialog sends nothing; success removes the musician; failure alerts |
| AdminSongsPage.FilteredSongs | src/app/admin/songs/page.tsx:92-96 | 'all' is the whole list; 'originals' and 'covers' select exactly the songs with and without isOriginal |
| AdminSongsPage.OriginalsCoversPartition | src/app/admin/songs/page.tsx:154-174 | originals and covers are disjoint, together are every song, and their counts add up to the total |
| AdminSongsPage.StreamingLinks | src/app/admin/songs/page.tsx:98-104 | exactly the present URLs are linked, each from its own path, in the order Spotify, YouTube, SoundCloud |
| AdminSongsPage.WithoutSong | src/app/admin/songs/page.tsx:80-81 | exactly the songs with another id remain |
| AdminSongsPage.DeleteKeepsOrder | src/app/admin/songs/page.tsx:80-81 | the remaining songs keep their order |
| AdminSongsPage.PageState.HandleDelete | src/app/admin/songs/page.tsx:67-90 | a cancelled dialog sends nothing; success removes the song; failure alerts |
| AdminNewSongPage.DropAt | src/app/admin/songs/new/page.tsx:106-111 | removing a position gives the list without that position; an index outside the list changes nothing |
| AdminNewSongPage.DropAtRemovesOne | src/app/admin/songs/new/page.tsx:106-111 | exactly one entry is lost, the one at the index, and the others keep their order |
| AdminNewSongPage.DropAtKeepsComplete | src/app/admin/songs/new/page.tsx:106-111 | removing keeps every listed credit complete |
| AdminNewSongPage.AsCreditInput | src/app/admin/songs/new/page.tsx:179-182 | a typed credit is acceptable to the schema iff it passed the page's test |
| AdminNewSongPage.SongBody | src/app/admin/songs/new/page.tsx:179-182 | the body carries every text of the form as typed (title, description, audio, artist, album, genre, the three streaming URLs, image), the converted release date, the credits in order and the checkbox; video and duration are absent |
| AdminNewSongPage.SentFormAccepted | src/app/admin/songs/new/page.tsx:161-182 | a form with a non-blank title and complete credits passes the song schema |
| AdminNewSongPage.SentFormStored | src/app/admin/songs/new/page.tsx:161-182 | such a form is stored with the title and credits trimmed, the checkbox as isOriginal and the sent release date |
| AdminNewSongPage.PageState.constructor | src/app/admin/songs/new/page.tsx:32-51 | a new form is empty, with no credits and isOriginal true |
| AdminNewSongPage.PageState.AddMusician | src/app/admin/songs/new/page.tsx:96-104 | a credit with both trimmed fields non-empty is appended as typed and the input reset; otherwise nothing changes |
| AdminNewSongPage.PageState.RemoveMusician | src/app/admin/songs/new/page.tsx:106-111 | the credits become `DropAt` of the old ones; nothing else changes |
| AdminNewSongPage.PageState.HandleSubmit | src/app/admin/songs/new/page.tsx:155-197 | a blank title fails with 'Title is required' first, then an empty audio URL with 'Please upload an audio file'; neither sends a request; an empty release date is sent as null; whatever is sent passes the schema; success navigates and failure shows the error |
| SongsPage.ColoredStreamingLinks | src/app/songs/page.tsx:57-63 | each link carries its service's fixed colour |
| SongsPage.SameLinksAsAdmin | src/app/songs/page.tsx:57-63 | the links are the admin page's links, present URLs only, in the same order |
| SongsPage.ShowVideoButton | src/app/songs/page.tsx:216 | the video button is shown iff the song has a non-empty video URL |
| SongsPage.VideoModal.Open | src/app/songs/page.tsx:65-67 | the modal is open with the given URL |
| SongsPage.VideoModal.Close | src/app/songs/page.tsx:69-71 | the modal is closed with an empty URL |
| ShowsPage.CityState | src/app/shows/page.tsx:133-137 | ", " appears only between a non-empty city and a non-empty state |
| ShowsPage.LocationOf | src/app/shows/page.tsx:129-140 | "Venue TBA" iff all four texts are empty; otherwise the venue and address lines appear iff non-empty, and the city/state line iff either is non-empty |
| ShowsPage.LinesNonEmpty | src/app/shows/page.tsx:129-140 | a block that is not "Venue TBA" shows at least one line |
| ShowsPage.StoredEventShowsAllLines | src/app/shows/page.tsx:129-140 | an event stored through the schema shows all three lines, with the comma |
| AdminDashboard.TotalOf | src/app/admin/page.tsx:56-61 | a total is the list's length on success, else 0 |
| AdminDashboard.StatsFrom | src/app/admin/page.tsx:52-61 | the totals follow `TotalOf`; pending is the number of 'pending' bookings, or 0 on failure; pending <= total bookings |
| AdminDashboard.PendingMatchesBookingsPage | src/app/admin/page.tsx:52-54 | the pending counter equals the bookings page's 'pending' count |
| AdminDashboard.EventsCounterCountsUpcoming | src/app/admin/page.tsx:56-58 | the events counter counts only upcoming events |
| AdminDashboard.Dashboard.FetchStats | src/app/admin/page.tsx:39-67 | when any call threw, the counters stay as they were (the initial zeros); otherwise they become `StatsFrom` of the replies |
| AdminDashboard.Dashboard.Logout | src/app/admin/page.tsx:69-72 | removes exactly the adminAuth flag from storage, keeps every other key, and goes to the login page |
| BookPage.ChoicesMatchSchema | src/app/book/page.tsx:21-28 | the choices are exactly the schema's six event types in schema order, labelled as the admin page labels them |
| BookPage.WithField | src/app/book/page.tsx:50-56 | the named input gets the value; every other input is unchanged |
| BookPage.WithFieldLaws | src/app/book/page.tsx:50-56 | retyping an input's own text changes nothing; the last edit of an input wins |
| BookPage.BookingBody | src/app/book/page.tsx:63-67 | an empty attendance is left out and a non-empty one is parsed; every other input is passed as typed; no status is sent |
| BookPage.PageRequestsArePending | src/app/book/page.tsx:63-75 | a request from the page is stored as pending, with the chosen event type and the sent attendance |
| BookPage.NoEventTypeRejected | src/app/book/page.tsx:21-28 | a form sent without choosing an event type is rejected |
| BookPage.PageState.HandleInputChange | src/app/book/page.tsx:50-56 | only the named input changes |
| BookPage.PageState.HandleSubmit | src/app/book/page.tsx:58-89 | sends `BookingBody` of the form; success marks it submitted; failure shows the error |
| BookPage.PageState.SubmitAnother | src/app/book/page.tsx:101-116 | clears submitted and resets every input to '' |

## Left out

- Database plumbing: `connectToDatabase`, Mongoose internals, `lean()`, console
  logging and `process.exit`. Exit is a returned code. Of the connection, only
  migration 001's three outcomes are kept as a parameter (connected, no
  handle, connect rejected).
- The routes' `catch` branches for database or network errors (the 500
  answers "Failed to fetch …"). Only validation failures reach 500 in this
  model.
- Migration 002's rethrow on a database error, for the same reason.
- `timestamps`: `createdAt` is a parameter, and `updatedAt` is not modelled.
- Network `fetch`, Next.js routing and `NextResponse`. A route's answer is a
  `Response`, and a client sees a `Reply`.
- React rendering, styling, icons, the Navigation component, loading texts
  and empty-list messages, the capitalised status labels, and the home,
  about and layout pages.
- The `/[id]` routes (booking status PUT, booking-to-event promotion, and
  event, song and musician updates and deletes). They are not part of this
  model. Client pages receive their replies as parameters.
- The client-side admin gate through localStorage, and the login route.
  Logout's removal of the flag is modelled.
- The upload widget of the new-song page (a foreign library). The new-event
  and settings form pages, which are plain field plumbing.
- The fetch handlers of the public pages, and the new-song page's
  `handleInputChange` and `handleMusicianChange`, which are plain field
  plumbing.
- Date and time handling: `new Date()`, `toISOString`, and locale date and
  time formatting. Dates are integers. The browser's parse and the schema's
  date cast are function parameters.
- `localeCompare` and Mongo's name ordering are both modelled by
  `Text.NameLe`, a lexicographic order on character codes. Collation rules
  are not modelled.
- String setters work on `seq<char>`. `Text.IsWhite` is the set of
  characters JavaScript's `trim` removes (white space and line terminators).
  `Text.Lower` lower-cases ASCII letters only, so full Unicode case mapping
  is not modelled.
- JSON values of the wrong type (a number where a string is declared, and
  similar) and Mongoose's casting of them. Every path is modelled with its
  declared type or absent.
- Concurrency: the `Promise.all` on the dashboard and the check-then-insert
  races of the upsert and the singleton. All calls are sequential.
- AdminDashboard.Dashboard.FetchStats: any reply that threw leaves every
  counter as it was. The order in which `Promise.all` rejects is not
  modelled.
