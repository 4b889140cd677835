# Student housing marketplace — a verified model of its core

The application lets landlords post rental listings. Students browse and
filter those listings, form groups and apply, alone or as a group, and
landlords accept or reject the applications. This project models in Dafny
the parts of that application that decide something:

- **REST validators.** `api/listing.js`, `api/person.js`,
  `api/application.js` and `api/group.js` each check a request body field
  by field and collect every error. A valid body becomes a normalised
  document with its defaults filled in. The handler answers GET, POST or
  405. Each validator is a method that appends messages one rule at a
  time, proved equal to a declarative rule table (`Json.Errors`). Lemmas
  prove three more things:
  - each message is reported exactly when its rule is broken;
  - the messages come in field order;
  - posting the normalised document again gives the same document, while
    posting it as the database returns it is refused when an optional text
    field was undefined, because the driver stored it as `null`.
- **The data-access layer (`src/services/api.ts`).** The listing search
  query is built filter by filter and ordered newest first. Creating,
  joining and leaving groups, creating listings and applications, and
  changing an application's status are updates on four in-memory tables
  held by the class `Services.Backend`.
- **The record types (`src/types/database.ts`).** These are the enumerations
  with their stored names, the rows, and the search-filter record. The
  record also carries the four location fields that the sidebar sets and
  the student page reads.
- **The client components:**
  - the search sidebar: one-key filter updates, the add/remove toggles,
    the target point, the Clear button and the address search;
  - the student page: the geocode cache and the distance narrowing;
  - the landlord's listing form: defaults, de-duplication of picked files,
    upload paths, and create-or-update on submit;
  - the listing dialog: the image carousel and the apply rules;
  - the landlord page: tab → query dispatch and the status buttons.
- **The seeding script (`scripts/seed.js`).** The counts come from the
  environment and `key=value` arguments. The landlord/tenant split, the
  group membership written into tenants, and the links between the
  generated records are modelled too.

Things outside the program become parameters:
- the signed-in user and every identifier, timestamp and random draw;
- the geocoding service and the distance between two points;
- the outcome of each upload to the storage bucket.

One module per source file, plus four shared ones:
- `Common`: `Option`/`Result`, list helpers, sorting;
- `Text`: ECMAScript `trim` and string splitting;
- `Json`: request bodies and rule tables;
- `Http`: the shared handler dispatch.

Where the source updates state step by step, the model is a class with
methods proved against specification functions. Examples are the React
components' state, the in-memory tables, the geocode cache and the `member`
objects the seed script mutates.

## Model

| member | source | states |
|---|---|---|
| Common.Without | src/components/FilterSidebar.tsx:37 | `filter((t) => t !== type)` removes every occurrence of the value; every other element keeps its number of occurrences, and the result keeps the order of the input |
| Common.Toggle | src/components/FilterSidebar.tsx:34-40 | after the toggle the value is present exactly when it was absent before; every other value keeps its membership |
| Common.ToggleTwice | src/components/FilterSidebar.tsx:34-40 | toggling the same value twice restores membership of every value, and restores the list itself when the value was absent |
| Common.WithoutAbsent | src/components/FilterSidebar.tsx:36-37 | removing a value that is not there leaves the list unchanged |
| Common.WithoutAppend | src/components/FilterSidebar.tsx:36-38 | removing a value that was just appended gives the same list as removing it before the append |
| Common.Filter | src/pages/StudentDashboard.tsx:77 | `filter` keeps exactly the elements that pass, and never more of them than the input has |
| Common.FilterSnoc | src/pages/StudentDashboard.tsx:64-77 | filtering one more element at the end appends it exactly when it passes |
| Common.FilterPrefixStep | src/pages/StudentDashboard.tsx:64-77 | filtering a prefix one element longer adds that element exactly when it passes |
| Common.FilterIsSubsequence | src/pages/StudentDashboard.tsx:64-77 | the filtered list is an order-preserving subsequence of the input |
| Common.SortDescending | src/services/api.ts:116 | `order('created_at', { ascending: false })` returns the same rows, each as often as before, largest key first |
| Common.InsertDescending | src/services/api.ts:116 | inserting one row into a descending list keeps it descending and adds exactly that row |
| Common.SortSet | src/services/api.ts:235-239 | the rows of a set listed newest first, each exactly once |
| Common.SortedSetDistinct | src/services/api.ts:235-239 | a list holding each element of a set once has the same elements and no repeats |
| Text.TrimNonEmpty | api/listing.js:4-6 | `value.trim().length > 0` holds exactly when the string has a non-whitespace character |
| Text.TrimIdempotent | api/listing.js:45 | trimming an already trimmed string changes nothing, so a stored trimmed field survives re-validation |
| Text.TrimEnds | api/listing.js:4-6 | a non-empty trimmed string starts and ends with a non-whitespace character |
| Text.TrimStartShape | api/listing.js:45 | `trimStart` removes exactly a leading run of whitespace |
| Text.TrimEndShape | api/listing.js:45 | `trimEnd` removes exactly a trailing run of whitespace |
| Text.AfterLast | src/components/UploadListingModal.tsx:81 | `split('.').pop()` never contains the separator |
| Text.AfterLastSuffix | src/components/UploadListingModal.tsx:81 | the last segment is a suffix of the name, either the whole name or preceded by the separator |
| Text.AfterLastOfJoin | src/components/UploadListingModal.tsx:81-83 | the last segment of `prefix + "." + last` is `last` when `last` has no dot |
| Text.AfterLastWhole | src/components/UploadListingModal.tsx:81 | a name without the separator is its own last segment |
| Text.BeforeFirst | scripts/seed.js:72 | the first part of `split("=")` is a prefix without `=`, followed by `=` when shorter than the text |
| Text.BeforeFirstOfJoin | scripts/seed.js:72 | the first part of `first + "=" + rest` is `first` when `first` has no `=` |
| Text.BeforeFirstWhole | scripts/seed.js:72 | a text without `=` splits into itself |
| Json.ApplyRule | api/listing.js:20 | one `if (!ok) errors.push(message)` line appends the message exactly when the rule is broken |
| Json.Errors | api/listing.js:9-38 | never more messages than checks |
| Json.ErrorsReportBroken | api/listing.js:14-36 | a broken check's message is in the error list: no check stops the others |
| Json.ErrorsOnlyBroken | api/listing.js:14-36 | every reported message comes from a broken check |
| Json.ErrorsOrdered | api/listing.js:14-36 | the reported messages come in the order of the checks |
| Json.ErrorsSpec | api/listing.js:9-38 | a message is reported iff one of its checks fails, the list is empty iff every check passes, and the order is the checks' order |
| Json.ErrorsExact | api/listing.js:9-38 | with distinct messages, each check's message is present iff that check fails |
| Json.StringsOr | api/listing.js:51 | a value that is an array of strings reads as those strings, one for one and in order |
| Json.StringsRoundTrip | api/listing.js:31-35 | a list of strings written as a JSON array passes the every-string check and reads back as the same list |
| Json.PutNull | api/_db.js:10 | the client has no `ignoreUndefined`, so a written field holds its text, or `null` when undefined; other fields are untouched |
| Http.FirstPage | api/listing.js:63 | `find({}).limit(100)` returns the first hundred stored documents, or all when there are fewer |
| Http.Respond | api/listing.js:58-81 | GET → 200 with the first page; POST → 400 with the errors when invalid, else 201 with the inserted id and the document appended; any other verb → 405 with `Allow: GET, POST`; only a valid POST changes the collection |
| ListingApi.ValidateListing | api/listing.js:8-56 | the step-by-step pushes equal the rule-table outcome; a null, non-object or array body gives exactly `["Body must be an object."]`; an invalid outcome always has an error |
| ListingApi.HandleListing | api/listing.js:58-81 | the `/api/listing` handler answers as `Respond` with the listing validator |
| ListingApi.ListingMessagesDistinct | api/listing.js:14-36 | no two listing checks share a message |
| ListingApi.ListingErrorsExact | api/listing.js:14-38 | each listing message appears iff its field fails its check, as listed (optional fields only when present, required text non-blank after trim, numbers typed); accepted iff all pass; field order |
| ListingApi.ListingFieldsRead | api/listing.js:40-53 | the normalised document built in memory, before the insert, holds each field under its own name, and no gender when the body had none |
| ListingApi.ListingAcceptsEncoding | api/listing.js:14-36 | a body holding a document with non-blank address, rental type and landlord passes every check |
| ListingApi.ListingDecodesEncoding | api/listing.js:40-53 | building the document from such a body gives the document with its address trimmed, other fields copied, the id kept when non-empty |
| ListingApi.ListingOutcomeOfEncoding | api/listing.js:38-53 | such a body is accepted as exactly that document with the address trimmed |
| ListingApi.ListingAcceptsOutsideEnum | api/listing.js:14-36 | a listing whose rental type is `app`, outside the rental types of src/types/database.ts:32, is accepted all the same, since only a non-blank string is asked for |
| ListingApi.ListingAcceptedShape | api/listing.js:40-53 | an accepted document has a non-empty id (an empty `listingId` is replaced), a trimmed non-blank address and non-blank rental type and landlord |
| ListingApi.ListingRevalidate | api/listing.js:8-56 | posting that in-memory document again yields the same document whatever id would be generated |
| ListingApi.ListingStored | api/listing.js:74 | `insertOne` writes an undefined gender as `null` and every other field as held in memory |
| ListingApi.ListingStoredNullGender | api/listing.js:14-38 | on the stored form of an accepted listing without a gender, the errors are exactly `["gender must be a string."]` |
| ListingApi.ListingRepostStored | api/listing.js:62-74 | posting a listing as GET returns it: with a gender it is accepted as the same document, without one it is refused with `["gender must be a string."]` only |
| PersonApi.ValidatePerson | api/person.js:8-46 | the step-by-step pushes equal the rule-table outcome; a non-object body gives exactly `["Body must be an object."]`; an invalid outcome always has an error |
| PersonApi.HandlePerson | api/person.js:48-71 | the `/api/person` handler answers as `Respond` with the person validator |
| PersonApi.PersonMessagesDistinct | api/person.js:14-28 | no two person checks share a message |
| PersonApi.PersonErrorsExact | api/person.js:14-30 | name, email and password each report their own error when blank after trim, the optional fields only when present with the wrong type; accepted iff all pass; field order |
| PersonApi.PersonFieldsRead | api/person.js:32-45 | the normalised person built in memory, before the insert, holds each field under its own name, optional ones absent when undefined |
| PersonApi.PersonAcceptsEncoding | api/person.js:14-28 | a body holding a person with non-blank name, email and password passes every check |
| PersonApi.PersonDecodesEncoding | api/person.js:32-45 | building the document gives the person with name and email trimmed and the password verbatim |
| PersonApi.PersonAcceptedShape | api/person.js:32-45 | an accepted person has a non-empty id, trimmed non-blank name and email, and a non-blank password |
| PersonApi.PersonRevalidate | api/person.js:8-46 | posting that in-memory person again yields the same document |
| PersonApi.PersonStored | api/person.js:64 | `insertOne` writes each undefined optional text field (`phone`, `description`, `profilePicture`, `groupId`) as `null` and every other field as held in memory |
| PersonApi.PersonNullChecks | api/person.js:17-24 | an optional text field written by the driver is refused with its own message exactly when it was undefined |
| PersonApi.PersonStoredErrors | api/person.js:14-30 | on the stored form of an accepted person the errors are the messages of the `null` optional fields, in check order, and nothing else |
| PersonApi.PersonRepostStored | api/person.js:53-64 | posting a person as GET returns it: refused with one message per undefined optional field, in check order; accepted as the same document when all four are defined |
| ApplicationApi.ValidateApplication | api/application.js:8-30 | the step-by-step pushes equal the rule-table outcome; a non-object body gives exactly `["Body must be an object."]`; an invalid outcome always has an error |
| ApplicationApi.HandleApplication | api/application.js:32-55 | the `/api/application` handler answers as `Respond` with the application validator |
| ApplicationApi.ApplicationErrorsExact | api/application.js:14-20 | `listingId` and `groupId` each report their own error when not a non-blank string, `applicationId` only when present and not a string; accepted iff all pass; field order |
| ApplicationApi.ApplicationKeepsReferences | api/application.js:14-28 | an object body is accepted iff both references are non-blank strings and `applicationId` is absent or a string; the accepted document holds both references exactly as sent, untrimmed |
| ApplicationApi.ApplicationRevalidate | api/application.js:8-30 | posting a stored application again yields the same document |
| GroupApi.ValidateGroup | api/group.js:4-26 | the step-by-step pushes equal the rule-table outcome; a non-object body gives exactly `["Body must be an object."]`; an invalid outcome always has an error |
| GroupApi.HandleGroup | api/group.js:28-51 | the `/api/group` handler answers as `Respond` with the group validator |
| GroupApi.GroupErrorsExact | api/group.js:10-15 | the `groupId` error iff it is present and not a string; the `userIds` error iff it is present and not an array of strings; at most these two |
| GroupApi.GroupEmptyBodyAccepted | api/group.js:17-24 | a body with neither field (such as `{}`) is accepted as a new group under the generated id with no members |
| GroupApi.GroupRevalidate | api/group.js:4-26 | posting a stored group again yields the same document |
| Database.ParseGender | src/types/database.ts:31 | a text read as a gender preference is that preference's stored name |
| Database.ParseRentalType | src/types/database.ts:32 | a text read as a rental type is that type's stored name |
| Database.ParseStatus | src/types/database.ts:47 | a text read as an application status is that status's stored name |
| Database.EnumNamesRoundTrip | src/types/database.ts:31-47 | every gender, rental type and status reads back from its stored name as itself |
| Database.GenderValues | src/types/database.ts:31 | a gender preference is exactly one of `any`, `male`, `female` |
| Database.RentalTypeValues | src/types/database.ts:32 | a rental type is exactly one of `apartment`, `house`, `room`, `basement`, `floor` |
| Database.StatusValues | src/types/database.ts:47 | a status is exactly one of `pending`, `accepted`, `rejected` |
| Services.HoldsAllSnoc | src/services/api.ts:91-114 | adding a condition to the query narrows it by exactly that condition |
| Services.Narrow | src/services/api.ts:91-93 | `if (set) query = query.cond(...)` adds the condition exactly when the filter field is given |
| Services.BasicsQuery | src/services/api.ts:91-105 | after the price, room and campus steps a row passes iff the price bounds (inclusive, 0 included) and the exact room, bathroom and campus matches hold for the defined fields |
| Services.BuildQuery | src/services/api.ts:88-114 | a row passes the built query iff it matches the filters: defined fields only, gender unless `any`, type membership and amenity containment only for non-empty lists |
| Services.MatchesIgnoresLocation | src/services/api.ts:88-114 | no filter matches everything; the four location fields never change what the query matches |
| Services.SortNewestFirst | src/services/api.ts:116 | the rows ordered by `created_at` descending, each as often as before |
| Services.FilterAgrees | src/services/api.ts:88-122 | two row tests that agree on every row keep the same rows |
| Services.MembersAfterJoin | src/services/api.ts:52-62 | after setting a user's `group_id` the new group gains exactly that user and every other group loses only that user |
| Services.MembersAfterLeave | src/services/api.ts:64-74 | after clearing a user's `group_id` every group loses exactly that user |
| Services.MemberOfOneGroup | src/services/api.ts:76-84 | a profile is returned as a member of at most one group |
| Services.IndexOf | src/services/api.ts:149-159 | the position of the first row with the id, or the table length when there is none |
| Services.Backend.constructor | src/services/api.ts:1 | the database client starts with empty tables and the given signed-in user |
| Services.Backend.GetListings | src/services/api.ts:88-122 | the result is ordered newest first and holds each matching row exactly as often as the table does, and nothing else |
| Services.Backend.GetLandlordListings | src/services/api.ts:170-182 | without a user the call fails with `Not authenticated`; otherwise exactly the user's own rows, newest first |
| Services.Backend.CreateListing | src/services/api.ts:135-147 | without a user it fails and nothing changes; otherwise one row is appended with `landlord_id` the user's id and the submitted fields, and no other table changes |
| Services.Backend.UpdateListing | src/services/api.ts:149-159 | a row with the id exists iff the update succeeds; that row, in place, takes the submitted fields and nothing else changes; no such row is an error and no change |
| Services.Backend.CreateGroup | src/services/api.ts:30-50 | without a user it fails and nothing changes; otherwise the group is inserted with `created_by` the user and exactly that user's `group_id` becomes the new id |
| Services.Backend.JoinGroup | src/services/api.ts:52-62 | without a user it fails; otherwise only the user's `group_id` changes, to the given id |
| Services.Backend.LeaveGroup | src/services/api.ts:64-74 | without a user it fails; otherwise only the user's `group_id` changes, to null |
| Services.Backend.GetGroupMembers | src/services/api.ts:76-84 | exactly the stored profiles whose `group_id` is the given id |
| Services.Backend.CreateApplication | src/services/api.ts:186-204 | without a user it fails and nothing changes; otherwise a `pending` application by the user for the listing, with the given group (or null) and message, is inserted and nothing else changes |
| Services.Backend.GetApplicationsForLandlord | src/services/api.ts:231-243 | without a user it fails; otherwise exactly the applications to the user's listings, each once, newest first |
| Services.Backend.UpdateApplicationStatus | src/services/api.ts:245-255 | only the status of the application with that id changes; an unknown id is an error and no change |
| FilterSidebar.Value | src/components/FilterSidebar.tsx:28-32 | reading a key gives a value of that key |
| FilterSidebar.With | src/components/FilterSidebar.tsx:28-32 | `{ ...filters, [key]: value }` gives the key the new value and every other key its old one |
| FilterSidebar.SameValues | src/components/FilterSidebar.tsx:28-32 | two filter records that agree on every key are equal |
| FilterSidebar.ApplyAllLastWins | src/components/FilterSidebar.tsx:28-32 | changes applied in turn leave each key with the last value given to it, or its old value |
| FilterSidebar.LastForCons | src/components/FilterSidebar.tsx:28-32 | the last change to a key, read from the front, counts the first change only when no later one touches the key |
| FilterSidebar.SingleChangeAgrees | src/components/FilterSidebar.tsx:28-32 | a handler making one change behaves the same under render-time snapshots and under composition |
| FilterSidebar.TargetAsWrittenKeepsLatitude | src/components/FilterSidebar.tsx:56-62 | as written, placing the pin leaves `targetLat` at its old value; only the last change (longitude or radius) lands |
| FilterSidebar.TargetAsWrittenNeverActivates | src/components/FilterSidebar.tsx:56-79 | as written, from no filters neither the pin nor a picked search result switches the distance search on |
| FilterSidebar.TargetComposedActivates | src/components/FilterSidebar.tsx:56-62 | composed, the pin sets both coordinates, keeps a truthy radius or sets 5, changes nothing else, and the distance search is on |
| FilterSidebar.ClearAsWrittenKeepsPoint | src/components/FilterSidebar.tsx:405-409 | as written, Clear only unsets `targetAddress`, and an active distance search stays active |
| FilterSidebar.ClearAsWrittenAfterPins | src/components/FilterSidebar.tsx:405-409 | a state Clear can meet as written: after a main-map pin and an expanded-map click the filters are `{radiusKm: 5, targetLng}`, and Clear leaves both fields set |
| FilterSidebar.SearchResultAsWrittenKeepsAddress | src/components/FilterSidebar.tsx:76-79 | as written, picking a result changes the filter exactly as a pin would: its address and latitude keep their old values |
| FilterSidebar.MainMapPinAsWritten | src/components/FilterSidebar.tsx:156-175 | from the `{}` the main map's handlers see, a pin yields exactly `{radiusKm: 5}`, with the distance search off |
| FilterSidebar.ClearLastFor | src/components/FilterSidebar.tsx:405-409 | the Clear changes give the four location keys no value and leave every other key alone |
| FilterSidebar.ClearComposedClears | src/components/FilterSidebar.tsx:405-409 | composed, Clear unsets exactly the four location fields and the distance search is off |
| FilterSidebar.NumericInput | src/components/FilterSidebar.tsx:249 | an empty input gives no filter, anything else its number |
| FilterSidebar.DisplayedRadius | src/components/FilterSidebar.tsx:461 | `radiusKm ?? 5`: 5 when unset, the stored value otherwise (0 included) |
| FilterSidebar.Sidebar.constructor | src/components/FilterSidebar.tsx:11-20 | empty filters, empty query, no error, no results, not searching |
| FilterSidebar.Sidebar.HandleFilterChange | src/components/FilterSidebar.tsx:28-32 | the current record with one key replaced, and the page receives that same record |
| FilterSidebar.Sidebar.ChangeFrom | src/components/FilterSidebar.tsx:28-32 | a change made by a handler created when the record was `seen` replaces the record by `seen` with that key set, whatever the record has become since |
| FilterSidebar.Sidebar.SyncAddressQuery | src/components/FilterSidebar.tsx:50-54 | a non-empty filter address different from the search box replaces it; otherwise the box keeps its text; the filters do not change |
| FilterSidebar.Sidebar.ToggleRentalType | src/components/FilterSidebar.tsx:34-40 | only `rentalType` changes, to the toggled list of the current one (or of `[]`); the type is present afterwards iff it was absent |
| FilterSidebar.Sidebar.ToggleAmenity | src/components/FilterSidebar.tsx:42-48 | only `amenities` changes, to the toggled list; the amenity is present afterwards iff it was absent |
| FilterSidebar.Sidebar.EditNumber | src/components/FilterSidebar.tsx:244-300 | a price input or a bedroom or bathroom select sets its own key to `NumericInput` of the text (emptied: unset) and changes nothing else |
| FilterSidebar.Sidebar.UpdateTargetLocation | src/components/FilterSidebar.tsx:56-62 | as written: only the last target change lands on the render-time record, so the latitude keeps its old value |
| FilterSidebar.Sidebar.UpdateTargetLocationFrom | src/components/FilterSidebar.tsx:195-215 | the expanded map's handlers, made when the map opened or the point last moved, apply only the last target change to the record they saw |
| FilterSidebar.Sidebar.PlacePinOnMainMap | src/components/FilterSidebar.tsx:156-175 | the main map's handlers, registered once with `[]`, see `{}`: the record becomes exactly `{radiusKm: 5}`, the user's other filters are lost and the distance search is off |
| FilterSidebar.Sidebar.ApplySearchResult | src/components/FilterSidebar.tsx:76-79 | as written: the search box takes the result's name, but the filter keeps its old address and latitude and only the last target change lands |
| FilterSidebar.Sidebar.Clear | src/components/FilterSidebar.tsx:405-413 | as written: only `targetAddress` is unset, an active distance search stays active; the query, error and results are emptied |
| FilterSidebar.Sidebar.UpdateTargetLocationComposed | src/components/FilterSidebar.tsx:56-62 | the correction: the target changes composed, so the point is set and the distance search is on |
| FilterSidebar.Sidebar.ApplySearchResultComposed | src/components/FilterSidebar.tsx:76-79 | the correction: the address goes into the box and the filter, the pin moves to the result, and the distance search is on |
| FilterSidebar.Sidebar.ClearComposed | src/components/FilterSidebar.tsx:405-413 | the correction: the four location fields are unset, the search is off, and the query, error and results are emptied |
| FilterSidebar.Sidebar.GeocodeAddress | src/components/FilterSidebar.tsx:95-132 | a blank query changes nothing; a failure shows the unavailable message; no places shows the no-results message; several places are listed only; one place is listed and applied as written; the search box keeps its text unless exactly one place is found; searching ends |
| StudentDashboard.GeocodeCache.constructor | src/pages/StudentDashboard.tsx:21 | the cache starts empty |
| StudentDashboard.GeocodeCache.Lookup | src/pages/StudentDashboard.tsx:27-44 | a cached address is answered from the cache without a query; otherwise the service is queried, a found place is cached and a miss leaves the cache as it was; a cache that agrees with the service keeps agreeing |
| StudentDashboard.KeepIfNear | src/pages/StudentDashboard.tsx:65-75 | one listing is kept iff its address geocodes and lies within the radius, inclusive |
| StudentDashboard.KeepNear | src/pages/StudentDashboard.tsx:63-77 | the listings kept are exactly the fetched ones that are near, in order |
| StudentDashboard.Dashboard.constructor | src/pages/StudentDashboard.tsx:15-21 | no filters, no listings, loading |
| StudentDashboard.Dashboard.LoadListings | src/pages/StudentDashboard.tsx:59-86 | the fetched rows are the matching ones newest first; without an active distance search they are shown unchanged, with one the near ones in order; the shown list is always a subsequence of the fetched one |
| StudentDashboard.Dashboard.OnFilterChange | src/pages/StudentDashboard.tsx:23-25 | new filters are stored and the listings reloaded with them |
| UploadListing.BuildFormData | src/components/UploadListingModal.tsx:15-34 | lease duration always one of the four options (else 12 months); without a listing the defaults; with one its values, a zero bedroom or bathroom count read as 1 and an empty start date as today |
| UploadListing.EditUnchangedKeepsDetails | src/components/UploadListingModal.tsx:15-34 | opening a listing with non-zero counts, a start date and a listed lease and submitting it unchanged with its images stores what was there |
| UploadListing.ToggleAmenity | src/components/UploadListingModal.tsx:66-73 | only the amenity list changes; the amenity is present iff it was absent, other amenities keep their membership |
| UploadListing.KeysOf | src/components/UploadListingModal.tsx:360 | one `name-size-lastModified` key per file, in order |
| UploadListing.FirstIndex | src/components/UploadListingModal.tsx:358-363 | the first position of a key |
| UploadListing.FirstIndexUnique | src/components/UploadListingModal.tsx:358-363 | a position holding the key with none before it is the first position |
| UploadListing.LastWith | src/components/UploadListingModal.tsx:358-363 | the file a `Map` keeps for a key is one of the files with that key |
| UploadListing.FirstIndexSnoc | src/components/UploadListingModal.tsx:358-363 | appending keeps every earlier first occurrence |
| UploadListing.FirstIndexNew | src/components/UploadListingModal.tsx:358-363 | a new key first occurs where it is appended |
| UploadListing.SetExisting | src/components/UploadListingModal.tsx:358-363 | `Map.set` on a present key keeps the key order |
| UploadListing.SetNew | src/components/UploadListingModal.tsx:358-363 | `Map.set` on a new key appends it |
| UploadListing.SetDomain | src/components/UploadListingModal.tsx:358-363 | after setting the next file the keys are exactly those of the longer list |
| UploadListing.SetLast | src/components/UploadListingModal.tsx:358-363 | after setting the next file each key holds the last file with that key |
| UploadListing.OrderSnoc | src/components/UploadListingModal.tsx:358-363 | appending to the list keeps the first-occurrence order of listed keys |
| UploadListing.OrderAppendNew | src/components/UploadListingModal.tsx:358-363 | a first-seen key goes after every key listed so far |
| UploadListing.SetOrder | src/components/UploadListingModal.tsx:358-363 | setting the next file keeps the keys in order of first occurrence |
| UploadListing.SetRepresents | src/components/UploadListingModal.tsx:358-363 | setting the next file keeps the map a faithful copy of the longer list |
| UploadListing.BuildRepresents | src/components/UploadListingModal.tsx:358-363 | the `Map` built from a list has its keys in first-occurrence order, each holding the last file with that key |
| UploadListing.Values | src/components/UploadListingModal.tsx:364 | `Array.from(map.values())` lists the files in key order |
| UploadListing.KeysOfHas | src/components/UploadListingModal.tsx:360 | every file's key is among the list's keys |
| UploadListing.DedupSpec | src/components/UploadListingModal.tsx:356-365 | de-duplication keeps one file per key, every key of the input, keys in first-occurrence order, each the last file picked with that key |
| UploadListing.AddFiles | src/components/UploadListingModal.tsx:353-365 | an empty selection changes nothing; otherwise the previous and selected files, de-duplicated |
| UploadListing.RemoveFile | src/components/UploadListingModal.tsx:394-398 | exactly that file goes; the others stay, in order |
| UploadListing.Extension | src/components/UploadListingModal.tsx:81 | the extension is non-empty and has no dot |
| UploadListing.ExtensionAfterDot | src/components/UploadListingModal.tsx:81 | a name ending `.ext` has extension `ext` |
| UploadListing.ExtensionTrailingDot | src/components/UploadListingModal.tsx:81 | a name ending in a dot gets `jpg` |
| UploadListing.ExtensionWithoutDot | src/components/UploadListingModal.tsx:81 | a non-empty name without a dot is its own extension |
| UploadListing.PathTextShape | src/components/UploadListingModal.tsx:81-83 | the path lies under `listing-images/` and its extension reads back as the file's |
| UploadListing.UploadImages | src/components/UploadListingModal.tsx:75-97 | all uploads succeed iff the result is the public URLs in file order; the first failing upload aborts the rest with its error |
| UploadListing.UploadModal.constructor | src/components/UploadListingModal.tsx:41-44 | the form starts from `buildFormData` of the listing, no files, not loading |
| UploadListing.UploadModal.HandleAmenityToggle | src/components/UploadListingModal.tsx:66-73 | only the form's amenity list changes, by the toggle |
| UploadListing.UploadModal.PickFiles | src/components/UploadListingModal.tsx:353-365 | the file list becomes `AddFiles` of the old one and the selection |
| UploadListing.UploadModal.RemovePreview | src/components/UploadListingModal.tsx:394-398 | the file list loses exactly that file |
| UploadListing.UploadModal.Save | src/components/UploadListingModal.tsx:113-117 | an opened listing is updated in place iff a row with its id exists; without one a row is appended iff a user is signed in; the saved row carries the submitted details; a failure changes nothing |
| UploadListing.UploadModal.HandleSubmit | src/components/UploadListingModal.tsx:99-127 | a failed upload saves nothing and answers the upload error; otherwise the submitted URLs are exactly the existing ones then the uploaded public URLs in file order, an opened listing is replaced in place iff it still exists, otherwise a new one is created iff a user is signed in; loading ends |
| ListingDetail.Images | src/components/ListingDetailModal.tsx:30-32 | the image list is never empty: the listing's own, or the placeholder alone |
| ListingDetail.NextIndex | src/components/ListingDetailModal.tsx:34-36 | the next index stays in range and wraps from the last to the first |
| ListingDetail.PrevIndex | src/components/ListingDetailModal.tsx:38-40 | the previous index stays in range and wraps from the first to the last |
| ListingDetail.PrevNextInverse | src/components/ListingDetailModal.tsx:34-40 | previous undoes next and next undoes previous |
| ListingDetail.ForwardAdds | src/components/ListingDetailModal.tsx:34-36 | up to a full round, k nexts add k and wrap once |
| ListingDetail.FullRound | src/components/ListingDetailModal.tsx:34-36 | as many nexts as images come back to the same image |
| ListingDetail.DetailModal.constructor | src/components/ListingDetailModal.tsx:22-32 | first image, no mode, empty message, not applying, no success |
| ListingDetail.DetailModal.NextImage | src/components/ListingDetailModal.tsx:34-36 | the index moves to the next one and nothing else changes |
| ListingDetail.DetailModal.PrevImage | src/components/ListingDetailModal.tsx:38-40 | the index moves to the previous one and nothing else changes |
| ListingDetail.DetailModal.SelectImage | src/components/ListingDetailModal.tsx:108 | a thumbnail click shows that image |
| ListingDetail.DetailModal.ChooseIndividual | src/components/ListingDetailModal.tsx:249 | individual mode is entered |
| ListingDetail.DetailModal.ChooseGroup | src/components/ListingDetailModal.tsx:255-261 | group mode is entered only when the profile has a group, otherwise nothing changes |
| ListingDetail.DetailModal.CancelApply | src/components/ListingDetailModal.tsx:283 | back to choosing a mode |
| ListingDetail.DetailModal.EditMessage | src/components/ListingDetailModal.tsx:274-276 | the message becomes the typed text |
| ListingDetail.DetailModal.HandleApply | src/components/ListingDetailModal.tsx:42-59 | nothing for no profile or a landlord; otherwise a pending application for the listing with the message, the profile's group only in group mode, and success set only when the creation succeeded |
| LandlordDashboard.LoaderForOneToOne | src/pages/LandlordDashboard.tsx:25-33 | each tab runs exactly one query and every query belongs to exactly one tab |
| LandlordDashboard.ViewOf | src/pages/LandlordDashboard.tsx:187-215 | buttons iff pending; a badge reads "Accepted" iff accepted and "Rejected" iff rejected |
| LandlordDashboard.Dashboard.constructor | src/pages/LandlordDashboard.tsx:16-23 | applications tab, no filters, empty lists, loading, upload form closed |
| LandlordDashboard.Dashboard.LoadApplicationsNow | src/pages/LandlordDashboard.tsx:35-45 | the landlord's applications, each once, newest first, or the old list when the query fails; loading ends |
| LandlordDashboard.Dashboard.LoadListingsNow | src/pages/LandlordDashboard.tsx:47-57 | the listings matching the current filters, newest first; loading ends |
| LandlordDashboard.Dashboard.LoadMyListingsNow | src/pages/LandlordDashboard.tsx:59-69 | the landlord's own listings newest first, or the old list when the query fails; loading ends |
| LandlordDashboard.Dashboard.Refresh | src/pages/LandlordDashboard.tsx:25-33 | only the active tab's query runs; the other lists keep their values |
| LandlordDashboard.Dashboard.SelectTab | src/pages/LandlordDashboard.tsx:101-121 | another tab re-runs the effect: that tab's list is reloaded (the landlord's applications, the matching listings or the own listings) and the other lists, the filters and the upload form stay; the tab already shown changes nothing |
| LandlordDashboard.Dashboard.OnFilterChange | src/pages/LandlordDashboard.tsx:274 | the new filters are stored and the active tab's list is reloaded with them; the other two lists, the tab and the upload form stay |
| LandlordDashboard.Dashboard.HandleUpdateApplicationStatus | src/pages/LandlordDashboard.tsx:71-82 | the status update changes only that application; on success the application list is reloaded, on error it stays; the tab, filters, listing lists and upload form stay |
| LandlordDashboard.Dashboard.OnUploadSuccess | src/pages/LandlordDashboard.tsx:289-297 | the form closes; the listings reload only on the compare tab and the own listings only on the my-listings tab; the tab, filters and applications stay |
| Seed.ParseKey | scripts/seed.js:73 | `Object.hasOwn(parsed, key)`: a key names a count iff it is that count's name |
| Seed.Counts.With | scripts/seed.js:74 | `parsed[key] = v` changes only the named count |
| Seed.KeyNameShape | scripts/seed.js:64-69 | count names contain no `=`, are non-empty and read back as their count |
| Seed.SplitPair | scripts/seed.js:72 | `key=value` splits into the key and the value |
| Seed.SplitTriple | scripts/seed.js:72 | `key=value=more` splits into the key and the value, the rest dropped |
| Seed.ArgSettingOfPair | scripts/seed.js:71-76 | `name=value` and `name=value=more` with a non-empty value set that count to that value |
| Seed.ArgSettingIgnored | scripts/seed.js:72-73 | an argument without `=`, or with an empty key, sets nothing |
| Seed.LastSettingOther | scripts/seed.js:71-76 | an argument for one count leaves every other count as it was |
| Seed.GetCounts | scripts/seed.js:62-79 | each count is the value of the last argument setting it, else the environment variable when set and non-empty, else 10/3/5/8 |
| Seed.LandlordCount | scripts/seed.js:100 | at least one landlord, and a fifth of the persons rounded down once there are five or more |
| Seed.TenantCount | scripts/seed.js:103 | at least one tenant |
| Seed.PersonTotal | scripts/seed.js:100-106 | landlords plus tenants are the persons asked for, but at least two; from five persons on there are no more landlords than tenants |
| Seed.SeedRentalTypesAsWrittenOutsideEnum | scripts/seed.js:37 | the rental type `app` the script can draw is not one of the rental types of src/types/database.ts:32 |
| Seed.SeedChoicesInEnum | scripts/seed.js:37-38 | every gender and rental type a seeded listing can draw is one of the values of the src/types/database.ts enums, and every value of each enum can be drawn |
| Seed.LastGroupPicked | scripts/seed.js:108-116 | a tenant's group is one that picked it, the last such; a tenant no group picked has none |
| Seed.MemberIds | scripts/seed.js:110-111 | a group lists the identifiers of the tenants it picked, in pick order |
| Seed.BuildGroups | scripts/seed.js:108-116 | group g lists its picked tenants, and each tenant ends with the last group that picked it, written into the tenant records in place |
| Seed.MakeListings | scripts/seed.js:118-121 | one listing per draw, owned by the landlord it picked, with the gender and the rental type it drew from the given list |
| Seed.MakeApplications | scripts/seed.js:123-127 | one application per draw, for the listing and the group it picked |
| Seed.PersonsOfParts | scripts/seed.js:106 | `allPersons` is the landlords then the tenants with their groups |
| Seed.Populate | scripts/seed.js:98-127 | for any list of five rental types: the run fails iff there are applications to make but no listing or no group; otherwise landlords (no group) then tenants, the groups, listings and applications as drawn |
| Seed.SeedAsWritten | scripts/seed.js:36-127 | the script's run, drawing from its own list: fails as `Populate` does; otherwise builds as drawn, and a listing's rental type is not one of the rental types of src/types/database.ts:32 exactly when its draw picked `app` |
| Seed.SeededListingsLinked | scripts/seed.js:118-121 | every listing's `landlordId` is a landlord's `userId` |
| Seed.SeededApplicationsLinked | scripts/seed.js:123-127 | every application names a generated listing and a generated group |
| Seed.SeededMembersLinked | scripts/seed.js:108-116 | every group member is a generated tenant |
| Seed.SeededGroupsList | scripts/seed.js:108-116 | group g has the g-th identifier and lists its picked tenants |
| Seed.TenantListed | scripts/seed.js:112-114 | a tenant with a group is listed by that group |
| Seed.SeededGroupIdsLinked | scripts/seed.js:112-114 | every person's `groupId` names a generated group that lists them |
| Seed.SeededWellLinked | scripts/seed.js:98-132 | whatever the draws, a successful run leaves no dangling reference |
| Seed.SeededListingsInEnum | scripts/seed.js:36-52 | the correction: drawing from `Seed.SeedRentalTypes`, every seeded listing carries a gender and rental type of the src/types/database.ts enums |
| Seed.SeededListingsAsWrittenOutsideEnum | scripts/seed.js:37-47 | drawing from the script's own list, a seeded listing's rental type is not one of the rental types of src/types/database.ts:32 exactly when the draw picked the fourth entry, `app` |

## Left out

- Databases: MongoDB, the Supabase client, the cached connection in `api/_db.js` and the environment loading are persistence outside the program. The collections and tables are in-memory sequences and maps.
- Faults: database errors other than a missing row or a missing user are not modelled; the in-memory tables never fail.
- Identifiers and clocks: `randomUUID`, `crypto.randomUUID`, `Date.now` and `new Date()` are nondeterministic. They are parameters of the operations that use them.
- Faker: the faker-generated contact fields, prices, room counts and image URLs of `scripts/seed.js` are random data with no rule attached. Only the draws that decide structure are modelled: identifiers, group members, and the landlord, listing and group picks.
- Geocoding: the Nominatim fetches and the decoding of their latitude/longitude strings are network I/O. The geocoding service is a function parameter. On the sidebar, a failed response and a thrown error are the same outcome, `Unavailable`.
- StudentDashboard.Dashboard.LoadListings: a network error while geocoding makes the source keep the old listings. The model's geocoder always answers, so that path is not modelled.
- Distance: the haversine `getDistanceKm` is floating-point trigonometry. Distance is a function parameter.
- Concurrency: `Promise.all` runs the geocoding lookups concurrently. The model runs them one after another, in listing order.
- Async overlap: React's asynchronous interleaving of two loads in flight is not modelled, nor is the `setTimeout` that closes the dialog after applying.
- Browser and UI: the Leaflet map, portals, JSX markup, styling, `alert`/`confirm` and `URL.createObjectURL`/`revokeObjectURL` are foreign UI or browser calls.
- Storage: the Supabase storage upload is foreign I/O. Its success per path and the public URL per path are function parameters.
- Numbers: JSON numbers, prices and coordinates are `real`. NaN, infinities and floating-point rounding are not modelled.
- Seed.GetCounts: `Number(...)` is a function parameter from text to integer, so a non-numeric value (NaN) or a fractional count is not modelled.
- Seed.LandlordCount: `Math.floor(persons * 0.2)` is computed exactly as `persons / 5` rounded down. This agrees with the floating-point product for every count up to 2^53.
- Seed.Populate: `arrayElement` on an empty list throws, which is modelled as the `NothingToPick` error. The faker error text is not. The `deleteMany` calls made before a failing run, the inserts, the final log line and the `MONGODB_URI` check are I/O.
- Seed.MemberPicks: the group size drawn between 2 and 4 is modelled as at most four distinct tenants. `arrayElements` returns fewer than two when there are fewer tenants.
- Seed.SeedAsWritten: the script inserts straight into MongoDB, and the front end reads its listings from Supabase, so no reader of a seeded listing is modelled. What is stated is only that `app` lies outside the rental types of src/types/database.ts:32; `ListingApi.ListingAcceptsOutsideEnum` shows the listing endpoint accepts such a value.
- Services.Backend.GetListings: rows with equal `created_at` may come back in any order. The contract fixes the order by `created_at` and the contents as a multiset, not the order among ties.
- Services.Backend.GetApplicationsForLandlord: the joined `listings(*)` and `profiles(*)` columns are not modelled. The result holds the application rows only.
- Other data-access calls: `profileService`, `getListing`, `deleteListing`, `getMyApplications`, `getApplicationsForListing` and `deleteApplication` in `src/services/api.ts` are not part of this model. No core operation relies on them.
- Database constraints: row-level security and schema constraints live in the hosted database, outside the repository.
- ListingApi.ListingStored: the `_id` that `insertOne` adds and GET returns is not modelled. The validators read no `_id` field, so a re-posted `_id` changes no outcome.
- PersonApi.PersonStored: as for listings, the `_id` added by `insertOne` is not modelled.
- FilterSidebar.Sidebar.UpdateTargetLocationFrom: the expanded map's handlers see the record of the render in which its effect last ran, on opening or after the point moved. The model takes that record as a parameter rather than tracking effect runs.
- UploadListing.UploadImages: the upload path's extension is the last `.`-segment of the name. The path text is proved by `UploadListing.PathTextShape`; each path is an `ImagePath` value.
- Presentational files: `ListingCard.tsx`, `ApplicationStatusModal.tsx`, `GroupManagementModal.tsx`, `AuthPage.tsx`, `PeopleList.tsx`, `App.tsx`, `Header.tsx`, `LandingPage.tsx`, `ProfileSidebar.tsx`, `AddressMapModal.tsx` and `tailwind.config.js` are presentational or thin wrappers over the calls modelled above.

## Findings

| source | as written | input that shows it | evidently intended | confidence | as-written member | corrected member |
|---|---|---|---|---|---|---|
| src/components/FilterSidebar.tsx:56-62 | `updateTargetLocation` calls `handleFilterChange` two or three times. Each call spreads the render-time `filters`, so only the last one lands: `targetLat` is never written. `applySearchResult` (lines 76-79) calls it from the same render, so its own address change is lost as well. | Filters `{}`, pin placed at (45.5, -73.6): `targetLat` stays undefined, so the student page's distance search never switches on. | Latitude, longitude and (when unset) the 5 km radius are all set. | not executed | FilterSidebar.TargetAsWrittenNeverActivates | FilterSidebar.TargetComposedActivates |
| src/components/FilterSidebar.tsx:156-175 | The small map registers its click and drag handlers in an effect with `[]` dependencies, so they keep the first render's `filters`, which is `{}`. | Filters `{priceMax: 1000}`, then a click on the small map: the filters become exactly `{radiusKm: 5}`, the price limit is gone and the distance search stays off. | The handlers see the current filters: the point is set and every other filter is kept. | not executed | FilterSidebar.MainMapPinAsWritten | FilterSidebar.TargetComposedActivates |
| src/components/FilterSidebar.tsx:405-409 | Clear makes four `handleFilterChange` calls on the same snapshot, so only `targetAddress` is cleared. | A main-map pin gives `{radiusKm: 5}`, an expanded-map click then gives `{radiusKm: 5, targetLng: -73.6}`, and Clear leaves both fields in place. (Distance filtering itself needs `targetLat`, which row 1 shows is never set as written.) | All four location fields unset. | not executed | FilterSidebar.ClearAsWrittenAfterPins | FilterSidebar.ClearComposedClears |
| scripts/seed.js:37 | The rental types listed include `app`, which is not one of the rental types of src/types/database.ts:32. `api/listing.js` still accepts it, since it asks only for a non-blank string. | Any run whose listing draw picks the fourth entry stores `rentalType: "app"`. | `apartment` | not executed | Seed.SeededListingsAsWrittenOutsideEnum | Seed.SeededListingsInEnum |

The sidebar class (`FilterSidebar.Sidebar`) models the handlers as
written: each change starts from the record the handler saw. Its
`...Composed` methods are the corrections. The seed builders take the
rental-type list as a parameter. `Seed.SeedAsWritten` runs them with the
script's own list, and `Seed.SeededListingsInEnum` proves the corrected
list.
