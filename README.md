# Portfolio CMS — a Dafny model

This project models the core of a personal portfolio content-management
system: a React single-page site with an admin area, backed by serverless
HTTP handlers over a hosted Postgres store. The portfolio document
(hero, about, experience, projects, certificates, blog posts, stats, contact)
moves through these parts:

* **the client sync layer** (`portfolio/services/db.ts`). `get` reads six
  endpoints and maps their rows to the document, falling back to the default
  document field by field. `update` sends one POST per section and item, and
  only a network rejection stops it. `reset` hands back the default document.
* **the local mock store** (`services/db.ts`): the whole document kept in
  one localStorage slot;
* **the server handlers** for blogs, projects, certificates, hero, about,
  stats and contact, checked against an in-memory table that takes the place
  of the database: update by id, insert, upsert on the slug column, and
  deactivate the other active rows;
* **the shared middleware**: the CORS headers and the preflight answer, the
  bearer-token gate, the sliding-window rate limiter, and the success, error
  and validation response envelopes;
* **the admin list editing** (`pages/Admin.tsx`): login, editing one field
  of one list item, adding a placeholder item, removing an item, the
  comma-separated skill and tech-stack inputs, and saving one section of the
  document.

Pure code is modelled as datatypes, functions and lemmas. Each handler is
specified by a function from the table's rows and the request to the reply
and the new rows. A handler `method` runs against a `Table` class (the
store) and a `ServerResponse` class (the Node response object). Its
`ensures` ties what it does to that function. The rate limiter's
request-count map, the localStorage slot, the admin editor's state and the
sync client's request log are classes updated in place.

Store failures are modelled by a parameter `fault: nat -> Option<StoreError>`.
It gives the answer of the n-th store call of one request, so every error
path of every handler is reachable. Token verification is modelled as a
function parameter `verify`. The wall clock is modelled as a parameter
`now`/`clock`; the sync client's `update`, whose loops read the clock once
per item, gets one reading per request position. `NODE_ENV` is a parameter
`nodeEnv`.

The modules are:

* Wrappers, Text, Json, PortfolioTypes: shared values;
* Uuid, Slug, SyncClient, LocalStore: the client side;
* Envelope, Http, Cors, Auth, RateLimit, Gate: the middleware;
* Store, Query, Upsert, Singleton: the table and the write paths the
  handlers share;
* Blogs, Projects, Certificates, Hero, About, Stats, Contact: one module per
  handler;
* Admin: the admin area.

## Model

| member | source | states |
|---|---|---|
| SyncClient.Get | portfolio/services/db.ts:131-198 | whatever the endpoints answer, the hero's four texts and the about bio are non-empty and the stats list is non-empty; a failed read gives the default document |
| SyncClient.GetFallsBackFieldByField | portfolio/services/db.ts:152-164 | each hero text, the bio and the stats are the value read when present and non-empty, otherwise the default; the skills list is the value read whenever it is present |
| SyncClient.GetWithoutDataIsInitial | portfolio/services/db.ts:150-193 | endpoints that answer with no data give exactly the default document |
| SyncClient.DenormalizedSectionsRead | portfolio/services/db.ts:191-192 | contact is read from the hero row's social_links and experience from the about row, each falling back to the default only when absent |
| SyncClient.MapRows | portfolio/services/db.ts:169-189 | a list that was read is mapped element by element, keeping its length; an absent list gives the default |
| SyncClient.HeroRoundTrip | portfolio/services/db.ts:204-217 | the hero payload sent, read back as a stored row, gives the edited hero with the new id; the contact is stored in social_links |
| SyncClient.ProjectRoundTrip | portfolio/services/db.ts:237-249 | a project with a title and a description, sent and read back, is unchanged except for its id |
| SyncClient.CertificateRoundTrip | portfolio/services/db.ts:268-277 | a certificate with title, issuer and date, sent and read back, is unchanged except for its id |
| SyncClient.BlogRoundTrip | portfolio/services/db.ts:284-294 | a post with title, excerpt, content and date comes back unchanged except for its id; its read time is not stored |
| SyncClient.HeroPayloadOf | portfolio/services/db.ts:204-217 | the id is sent only when it is a UUID; the title is non-empty, the contact travels as social_links and the row is active |
| SyncClient.AboutPayloadOf | portfolio/services/db.ts:220-232 | the id is sent only when it is a UUID; heading and bio are non-empty, the experience travels with it and the row is active |
| SyncClient.ProjectPayloadOf | portfolio/services/db.ts:237-249 | the id is sent only when it is a UUID; the title is non-empty, the slug (from the title's JavaScript lower case, or from the placeholder with this item's own clock reading) has the slug shape and the project is published |
| SyncClient.StatPayloadOf | portfolio/services/db.ts:256-261 | the id is sent only when it is a UUID; label and value are non-empty |
| SyncClient.CertificatePayloadOf | portfolio/services/db.ts:268-277 | the id is sent only when it is a UUID; title, issuer and issue date are non-empty and the certificate is published |
| SyncClient.BlogPayloadOf | portfolio/services/db.ts:284-294 | the id is sent only when it is a UUID; title, content and date are non-empty, the slug (from the title, or from the placeholder with this item's own clock reading) has the slug shape and the post is published |
| SyncClient.Requests | portfolio/services/db.ts:200-296 | one request per section and item: hero, about, each project, the stats batch, each certificate and each post |
| SyncClient.UntitledProjectsSlugs | portfolio/services/db.ts:235-251 | an untitled project's slug is 'new-project-' and its clock reading; two untitled projects get the same slug iff their readings fall in the same millisecond |
| SyncClient.UntitledPostsSlugs | portfolio/services/db.ts:281-296 | an untitled post's slug is 'new-post-' and its clock reading; two untitled posts get the same slug iff their readings fall in the same millisecond |
| SyncClient.RequestsLayout | portfolio/services/db.ts:200-296 | the requests go out in source order, each item's payload in its own position and built with the clock reading taken for that position, since every loop iteration reads the clock anew |
| SyncClient.OnlyRejectionStops | portfolio/services/db.ts:200-301 | the update succeeds iff no request is rejected; answers that are not ok are only logged, and then every request was sent |
| SyncClient.RejectionStops | portfolio/services/db.ts:298-301 | the first rejected request is the last one sent, and its error is what the update throws |
| SyncClient.ApiClient.Update | portfolio/services/db.ts:200-302 | sends exactly the requests up to the first rejection, logs those answered not ok, and returns the outcome |
| SyncClient.ApiClient.PostHead | portfolio/services/db.ts:203-262 | the hero, about, project and stats writes keep the sent log a prefix of the request list and stop at a rejection |
| SyncClient.ApiClient.PostEach | portfolio/services/db.ts:235-296 | the loop over one section's items keeps the sent log a prefix of the request list and stops at a rejection |
| SyncClient.ApiClient.Reset | portfolio/services/db.ts:304-307 | answers with the default document and sends nothing |
| Uuid.IdIfUuid | portfolio/services/db.ts:117 | an id is kept iff it matches the UUID pattern |
| Uuid.UuidIgnoresCase | portfolio/services/db.ts:117 | the pattern is case-insensitive |
| Uuid.UuidFromGroups | portfolio/services/db.ts:117 | any five hex groups of lengths 8-4-4-4-12 joined by dashes match |
| Uuid.UuidGroups | portfolio/services/db.ts:117 | every match splits into five hex groups of lengths 8-4-4-4-12 |
| Uuid.PlaceholderIsNotUuid | portfolio/services/db.ts:117 | the timestamp ids the admin gives new items are never sent as ids |
| Slug.Slugify | portfolio/services/db.ts:241 | the slug of the title's JavaScript lower case has only lower-case letters, digits and single inner dashes |
| Slug.SlugKeepsLettersAndDigits | portfolio/services/db.ts:241 | the slug keeps every letter and digit of the title's JavaScript lower case, in order, including those U+0130 and the Kelvin sign lower-case to |
| Slug.SlugifyIdempotent | portfolio/services/db.ts:241 | a slug is its own slug |
| Slug.EmptySlugIffNoLetters | portfolio/services/db.ts:241 | the slug is empty iff the title's lower case has no letters or digits |
| Slug.DottedCapitalISlug | portfolio/services/db.ts:241 | U+0130 before a word gives 'i-' and the word, as in 'İstanbul' to 'i-stanbul' |
| Slug.KelvinSignSlug | portfolio/services/db.ts:241 | the Kelvin sign gives the slug 'k' |
| Slug.UntitledSlug | portfolio/services/db.ts:288 | an empty title gives the fallback prefix followed by the timestamp |
| LocalStore.Read | services/db.ts:121-130 | the stored document is returned, or the slot is first set to the default document; other slots are untouched |
| LocalStore.Write | services/db.ts:132-135 | the slot holds the document; other slots are untouched |
| LocalStore.Cleared | services/db.ts:138-142 | the slot holds the default document, which is returned |
| LocalStore.ReadAfterWrite | services/db.ts:121-135 | a read after an update returns the written document and writes nothing |
| LocalStore.ReadIsIdempotent | services/db.ts:121-130 | reading twice is reading once |
| LocalStore.ReadAfterReset | services/db.ts:121-142 | after a reset a read gives the default document |
| LocalStore.FirstReadIsReset | services/db.ts:121-142 | the first read of empty storage is the same as a reset |
| LocalStore.LocalStorage.Get | services/db.ts:121-130 | the slot update and the result agree with Read |
| LocalStore.LocalStorage.Update | services/db.ts:132-135 | the slot update agrees with Write |
| LocalStore.LocalStorage.Reset | services/db.ts:138-142 | the slot update and the result agree with Cleared |
| Envelope.SuccessResponse | utils/response.js:1-7 | the status is as given, and the body has exactly success true, the message and the data |
| Envelope.ErrorResponse | utils/response.js:9-15 | the status is as given, success is false, the error text is the string or the error's message, and there are no other keys but stack |
| Envelope.StackOnlyInDevelopment | utils/response.js:13 | the stack appears iff NODE_ENV is development and the error carries one |
| Envelope.ValidationErrorResponse | utils/response.js:17-23 | status 422 with exactly success false, 'Validation failed' and the errors |
| Envelope.EnvelopesDiffer | utils/response.js:1-23 | only the success envelope reads as successful |
| Envelope.DefaultsOfEnvelopes | utils/response.js:1-9 | the defaults are message 'Success' with status 200, and status 400 for errors |
| Cors.AllowOriginOnlyWhenListed | portfolio-backend/lib/cors.js:2-19 | Allow-Origin is set iff the origin is on the list for the environment, and then it echoes the origin; production refuses localhost |
| Cors.CorsHeaderValues | portfolio-backend/lib/cors.js:8-24 | the methods, headers, credentials and max-age headers have their fixed values |
| Cors.MethodsHeaderValue | portfolio-backend/lib/cors.js:8-21 | the joined method list is 'GET, POST, PUT, PATCH, DELETE, OPTIONS' |
| Cors.HeadersHeaderValue | portfolio-backend/lib/cors.js:9-22 | the joined header list is 'Content-Type, Authorization' |
| Cors.MaxAgeHeaderValue | portfolio-backend/lib/cors.js:11-24 | max-age 86400 is written as "86400" |
| Cors.SetCorsHeaders | portfolio-backend/lib/cors.js:14-33 | the CORS headers are added in every case; the request is answered 200 and ended iff it is a preflight |
| Auth.ProceedIffVerified | lib/auth.js:3-28 | the request proceeds iff the header is 'Bearer ' plus a token that verifies without error to a user, and that user is attached |
| Auth.RefusalsFail | lib/auth.js:7-35 | a refusal is a failing reply with status 401, or 500 exactly when verification threw |
| Auth.MalformedHeaderNeverVerified | lib/auth.js:7-12 | a header without the bearer prefix is refused with 401 before any verification |
| Gate.OnlyAuthenticatedWritesChangeTable | api/blogs/index.js:6-24 | only an authenticated write verb can change the table; other verbs get 405 and refusals get the auth reply |
| RateLimit.Recent | portfolio-backend/lib/rateLimit.js:10-15 | the timestamps strictly inside the window are kept, each as often as it occurs, the others dropped, and ascending order is kept |
| RateLimit.AdmitIffRoom | portfolio-backend/lib/rateLimit.js:1-31 | a request is admitted iff fewer than the maximum recent requests remain, and only then is its time recorded; other identifiers are untouched |
| RateLimit.AdmitKeepsBound | portfolio-backend/lib/rateLimit.js:19-29 | no identifier ever holds more than the maximum timestamps |
| RateLimit.AdmitKeepsOrder | portfolio-backend/lib/rateLimit.js:10-29 | timestamps stay in ascending order when the clock does not go back |
| RateLimit.FullWindowRejects | portfolio-backend/lib/rateLimit.js:19-24 | a full window rejects and changes nothing |
| RateLimit.ElapsedWindowAdmits | portfolio-backend/lib/rateLimit.js:10-29 | once the window has passed, the next request is admitted and is the only one recorded |
| RateLimit.WindowIsOpenAtItsStart | portfolio-backend/lib/rateLimit.js:7-12 | a request exactly one window old no longer counts |
| RateLimit.RequestCounts.Check | portfolio-backend/lib/rateLimit.js:4-31 | the request-count map update and the decision agree with Admit |
| Store.NoRowsIffIdUnknown | api/blogs/index.js:71-79 | an update by id ending in `.single()` fails with PGRST116 iff no row has the id |
| Store.InsertIssuesFreshId | portfolio-backend/api/certificates/index.js:61-72 | an insert appends one row whose id no existing row has |
| Store.UpsertOverwritesSlugRow | api/blogs/index.js:91-102 | an upsert on a slug that exists patches that row in place |
| Store.UpsertLeavesOneRowWithSlug | api/blogs/index.js:91-102 | after an upsert exactly one row carries the slug, and it is the row returned |
| Store.WrittenRowCarriesFields | api/blogs/index.js:91-102 | the row an insert or upsert returns is stored and carries every field written |
| Store.DeactivationLeavesOnlyKept | api/hero/index.js:47-53 | after the deactivation only the row with the kept id may remain active |
| Store.UpdateKeepsConsistent | api/blogs/index.js:71-78 | updates keep ids unique, and slugs too on slug-keyed tables |
| Store.InsertKeepsConsistent | portfolio-backend/api/certificates/index.js:61-72 | inserts keep ids unique, and slugs too on slug-keyed tables |
| Store.UpsertKeepsConsistent | api/blogs/index.js:91-102 | upserts keep ids and slugs unique |
| Store.Table.UpdateById | api/blogs/index.js:71-78 | the table's rows and the result agree with UpdateWhereId, and the table stays consistent |
| Store.Table.InsertRow | portfolio-backend/api/certificates/index.js:61-72 | the table's rows and the result agree with Insert |
| Store.Table.Upsert | api/blogs/index.js:91-102 | the table's rows and the result agree with UpsertOnSlug |
| Store.Table.Deactivate | api/hero/index.js:47-53 | the table's rows agree with DeactivateAllExcept |
| Query.Where | api/blogs/index.js:29-41 | a row is kept iff it satisfies every filter |
| Query.Select | api/blogs/index.js:29-43 | the filtered rows, sorted by the order keys, each row taken from the table |
| Query.OrderBySorted | api/blogs/index.js:33 | ordering gives a sorted permutation of the rows |
| Query.InsertInOrderSorted | api/blogs/index.js:33 | inserting into a sorted list keeps it sorted |
| Query.CompareRowsAntisymmetric | api/blogs/index.js:33 | the row order is antisymmetric |
| Query.Page | api/blogs/index.js:43 | the range returns at most limit rows, starting at offset |
| Query.Count | api/blogs/index.js:27 | a missing limit or offset takes its default; a digit string is read as its number |
| Query.CatalogFilter | portfolio-backend/api/projects/index.js:29-44 | the filter keeps a row iff it is published, matches a non-empty category and is featured when asked |
| Query.ListedIffPublished | portfolio-backend/api/projects/index.js:29-44 | with no category or featured filter, a row is listed iff it is published |
| Upsert.Respond | api/blogs/index.js:104-109 | the reply succeeds iff a row came back; a row is answered with the handler's status, the row as data and the handler's message; a store error with 400, its message as the error and no stack |
| Upsert.FallbackOnlyOnNoRows | api/blogs/index.js:71-90 | with an id, the fallback write happens only when the update failed with PGRST116 |
| Upsert.KnownIdUpdatesInPlace | api/blogs/index.js:71-78 | a known id patches its row in place and returns it |
| Upsert.UnknownIdFallsBack | api/blogs/index.js:79-102 | an unknown or missing id leads to the fallback write |
| Upsert.SaveByIdKeepsConsistent | api/blogs/index.js:61-110 | a save keeps ids and slugs unique |
| Upsert.SaveInto | api/blogs/index.js:68-102 | the table update and the result agree with SaveById |
| Blogs.IncompletePostRejected | api/blogs/index.js:64-66 | a post without title, slug or content gets 422 and the table is unchanged |
| Blogs.SaveBlogStatus | api/blogs/index.js:61-110 | a successful save was complete and answers 200 'Blog post updated' with an id, else 201 'Blog post created'; a failure answers 400 or 422 |
| Blogs.UpsertColumnsFlags | api/blogs/index.js:91-97 | published and featured default to false; published_at is the given value, else now when is_published is truthy, else null |
| Blogs.SaveWithoutIdUpserts | api/blogs/index.js:91-102 | a post without an id is upserted on its slug |
| Blogs.CreatedPostRow | api/blogs/index.js:91-109 | a created post is stored and returned, with its flags as written |
| Blogs.NewPostListedIffPublished | api/blogs/index.js:26-109 | a new post published true is listed; one without the published key is not; published_at defaults to now |
| Blogs.ListingIsPublishedPosts | api/blogs/index.js:26-59 | the listing pages the published posts, newest first, and returns at most limit of them |
| Blogs.SaveBlogKeepsSlugsUnique | api/blogs/index.js:61-110 | a save never leaves two posts with one slug |
| Blogs.UpsertBlog | api/blogs/index.js:61-110 | the table update and the reply agree with SaveBlog |
| Blogs.Handle | api/blogs/index.js:6-24 | CORS headers always; preflight answered; GET lists, authenticated POST/PUT save, others 405 |
| Projects.PayloadDefaults | portfolio-backend/api/projects/index.js:69-75 | status defaults to 'completed', featured to false, display_order to 0, and published to true unless given; other fields are kept and id is dropped |
| Projects.IncompleteProjectRejected | portfolio-backend/api/projects/index.js:65-67 | a project without title or slug gets 422 and the table is unchanged |
| Projects.SaveProjectStatus | portfolio-backend/api/projects/index.js:62-109 | a successful save was complete and answers 200 'Project saved' or 'Project created'; a failure answers 400 or 422 |
| Projects.SaveWithoutIdUpserts | portfolio-backend/api/projects/index.js:95-101 | a project without an id is upserted on its slug |
| Projects.CreatedProjectRow | portfolio-backend/api/projects/index.js:69-108 | a created project is stored and returned with its status and published flag defaulted |
| Projects.NewProjectPublishedByDefault | portfolio-backend/api/projects/index.js:26-108 | a new project is listed unless it was sent unpublished |
| Projects.SaveProjectKeepsSlugsUnique | portfolio-backend/api/projects/index.js:62-109 | a save never leaves two projects with one slug |
| Projects.UpsertProject | portfolio-backend/api/projects/index.js:62-109 | the table update and the reply agree with SaveProject |
| Projects.Handle | portfolio-backend/api/projects/index.js:6-24 | CORS headers always; GET lists, authenticated POST/PUT save, others 405 |
| Certificates.IncompleteCertificateRejected | portfolio-backend/api/certificates/index.js:46-48 | a certificate without title, issuer or issue date gets 422 and the table is unchanged |
| Certificates.SaveCertificateStatus | portfolio-backend/api/certificates/index.js:43-92 | a successful save was complete and answers 200 'Certificate updated' with an id, else 201 'Certificate added'; a failure answers 400 or 422 |
| Certificates.InsertColumnsDefaults | portfolio-backend/api/certificates/index.js:61-84 | featured defaults to false, display_order to 0, and published to true unless given |
| Certificates.UnknownIdInserts | portfolio-backend/api/certificates/index.js:53-91 | an unknown id leads to an insert that keeps the 'updated' message and status 200 |
| Certificates.UnknownIdAddsListedRow | portfolio-backend/api/certificates/index.js:26-91 | the inserted certificate is appended with a fresh id and is listed |
| Certificates.SaveCertificateKeepsIdsUnique | portfolio-backend/api/certificates/index.js:43-92 | a save keeps ids unique |
| Certificates.UpsertCertificate | portfolio-backend/api/certificates/index.js:43-92 | the table update and the reply agree with SaveCertificate |
| Certificates.Handle | portfolio-backend/api/certificates/index.js:6-24 | CORS headers always; GET lists, authenticated POST/PUT save, others 405 |
| Singleton.ActiveSectionCases | api/hero/index.js:26-38 | the read answers 200 with the one active row, or {} when not exactly one is active; only an error other than PGRST116 fails |
| Singleton.ActiveSaveIsServed | api/hero/index.js:40-86 | saving an active row leaves it the only active row, and the next read serves it |
| Singleton.InactiveSaveTouchesOnlyItsRow | api/hero/index.js:47-81 | a save without is_active patches only its row, deactivating nothing |
| Singleton.FailedWriteKeepsDeactivation | api/hero/index.js:47-86 | a write that fails after the deactivation leaves the rows deactivated and answers 400 |
| Singleton.SaveSectionKeepsIdsUnique | api/hero/index.js:40-87 | a save keeps ids unique |
| Singleton.SaveSectionInto | api/hero/index.js:40-87 | the table update and the reply agree with SaveSection |
| Hero.IncompleteHeroRejected | api/hero/index.js:43-45 | a hero without a title gets 422 and the table is unchanged |
| Hero.ActiveHeroIsServed | api/hero/index.js:26-86 | a saved active hero is the one GET serves |
| Hero.SaveHeroKeepsIdsUnique | api/hero/index.js:40-87 | a save keeps ids unique |
| Hero.UpdateHero | api/hero/index.js:40-87 | the table update and the reply agree with SaveHero |
| Hero.Handle | api/hero/index.js:6-24 | CORS headers always; GET reads, authenticated POST/PUT save, others 405 |
| About.IncompleteAboutRejected | portfolio-backend/api/about/index.js:43-45 | an about section without heading or bio gets 422 and the table is unchanged |
| About.ActiveAboutIsServed | portfolio-backend/api/about/index.js:26-85 | a saved active about section is the one GET serves |
| About.SaveAboutKeepsIdsUnique | portfolio-backend/api/about/index.js:40-86 | a save keeps ids unique |
| About.UpdateAbout | portfolio-backend/api/about/index.js:40-86 | the table update and the reply agree with SaveAbout |
| About.Handle | portfolio-backend/api/about/index.js:6-24 | CORS headers always; GET reads, authenticated POST/PUT save, others 405 |
| Stats.ThrowsIffNullItem | portfolio-backend/api/stats/index.js:49-50 | the loop throws iff some item is null |
| Stats.EveryItemAccounted | portfolio-backend/api/stats/index.js:49-59 | without a throw, every item adds one error or one result |
| Stats.NoFaultNoErrors | portfolio-backend/api/stats/index.js:57 | when the store does not fail there are no errors |
| Stats.NewStatsAppended | portfolio-backend/api/stats/index.js:54-58 | items without ids are appended in order and returned as results |
| Stats.RunKeepsIdsUnique | portfolio-backend/api/stats/index.js:49-59 | the batch keeps ids unique |
| Stats.SaveStatsOutcome | portfolio-backend/api/stats/index.js:37-66 | a non-array gets 422; a throw 500; the first error 400 with its message; success iff nothing failed |
| Stats.IndexedAt | portfolio-backend/api/stats/index.js:50 | an array or string item spread into the payload is keyed by the decimal index of each element, and by nothing else |
| Stats.UpdateStats | portfolio-backend/api/stats/index.js:37-66 | the loop's table updates and the reply agree with SaveStats |
| Stats.Handle | portfolio-backend/api/stats/index.js:6-22 | CORS headers always; GET lists, authenticated POST saves, others 405 |
| Contact.ValidEmailIffPattern | api/contact/index.js:31-34 | the email check accepts exactly the strings of the shape non-space@non-space.non-space |
| Contact.EmailAccepted | api/contact/index.js:31-34 | an ordinary address is accepted |
| Contact.EmailWithoutInnerDotRefused | api/contact/index.js:31-34 | a domain without a dot between non-empty parts is refused |
| Contact.EmailWithBadLocalPartRefused | api/contact/index.js:31-34 | a doubled at-sign, a space or an empty local part is refused |
| Contact.EmailStrings | api/contact/index.js:32 | the email value is tested as its string form: a string as itself, a one-element array as its element, numbers, booleans and objects fail |
| Contact.Submission | api/contact/index.js:36-46 | the stored row holds the form fields given and status 'new', and nothing else |
| Contact.LimiterBeforeValidation | api/contact/index.js:7-22 | only POST passes; the limiter counts every POST, refuses with 429 when full, and otherwise the submission answers |
| Contact.MissingFieldsFirst | api/contact/index.js:27-29 | a missing name, email or message gets 422 and stores nothing |
| Contact.EmailChecked | api/contact/index.js:31-34 | with all fields, the invalid-email 422 is given iff the email fails the pattern |
| Contact.ValidSubmissionStored | api/contact/index.js:36-54 | a valid form appends one row with the fields and status 'new', answered 201 |
| Contact.SubmitInto | api/contact/index.js:24-55 | the table update and the reply agree with Submit |
| Contact.Handle | api/contact/index.js:9-22 | CORS headers always; the reply, the table and the limiter agree with Answer |
| Text.NatToStringRoundTrip | portfolio-backend/lib/cors.js:24 | the decimal string of a number reads back as that number |
| Text.JoinSplit | pages/Admin.tsx:144-145 | joining the pieces of a split with the separator gives back the string |
| Admin.Login | pages/Admin.tsx:14-21 | the dashboard opens iff the password is 'admin'; otherwise the error shows |
| Admin.ParseList | pages/Admin.tsx:145 | one trimmed piece per comma, plus one |
| Admin.ParseJoinedList | pages/Admin.tsx:144-145 | a non-empty list of trimmed, comma-free items survives being shown joined and parsed back |
| Admin.EmptyListReparsed | pages/Admin.tsx:144-145 | an empty list comes back as one empty item |
| Admin.RemoveAt | pages/Admin.tsx:191-193 | the item at the index is dropped and the others keep their order; an index out of range changes nothing |
| Admin.UpdateExperience | pages/Admin.tsx:175-179 | only the chosen field of the chosen entry changes |
| Admin.UpdateStat | pages/Admin.tsx:196-200 | only the chosen field of the chosen stat changes |
| Admin.UpdateProject | pages/Admin.tsx:282-286 | only the chosen field of the chosen project changes |
| Admin.SetTechStack | pages/Admin.tsx:288-292 | the chosen project's tech stack becomes the parsed list and nothing else changes |
| Admin.UpdateCertificate | pages/Admin.tsx:360-364 | only the chosen field of the chosen certificate changes |
| Admin.UpdatePost | pages/Admin.tsx:428-432 | only the chosen field of the chosen post changes |
| Admin.SetPostUnchanged | pages/Admin.tsx:428-432 | writing a field's own value back changes nothing |
| Admin.SetPostTwice | pages/Admin.tsx:428-432 | the second of two edits of one field wins |
| Admin.AddExperience | pages/Admin.tsx:181-189 | the list is extended by the placeholder entry with the timestamp id |
| Admin.AddStat | pages/Admin.tsx:202-208 | the list is extended by the placeholder stat |
| Admin.AddProject | pages/Admin.tsx:294-304 | the list is extended by the placeholder project |
| Admin.AddCertificate | pages/Admin.tsx:366-374 | the list is extended by the placeholder certificate |
| Admin.AddPost | pages/Admin.tsx:434-443 | the list is extended by the placeholder post, dated by the day part of now |
| Admin.SaveHeroAbout | pages/Admin.tsx:110-114 | hero and about are replaced and every other section is kept |
| Admin.SaveExperience | pages/Admin.tsx:168-172 | experience and stats are replaced and every other section is kept |
| Admin.SaveProjects | pages/Admin.tsx:276-280 | the projects are replaced and every other section is kept |
| Admin.SaveCertificates | pages/Admin.tsx:354-358 | the certificates are replaced and every other section is kept |
| Admin.SaveBlogs | pages/Admin.tsx:422-426 | the posts are replaced and every other section is kept |
| Admin.SaveContact | pages/Admin.tsx:492-496 | the contact is replaced and every other section is kept |
| Admin.UneditedSaveKeepsDocument | pages/Admin.tsx:276-280 | saving a section unedited leaves the document as it was |
| Admin.SavesOfDifferentSectionsCommute | pages/Admin.tsx:276-280 | saves of different sections commute |
| Admin.SavedProjectsReload | pages/Admin.tsx:58-63 | after saving projects, a reload reads them back with every other section kept |
| Admin.Editor.FetchData | pages/Admin.tsx:51-54 | the editor holds what the store's get returned |
| Admin.Editor.Save | pages/Admin.tsx:58-63 | the store is written, the editor holds the new document and is no longer loading |

## Left out

- The hosted database is an in-memory table. Ids are issued as `row-N` from a
  counter, not as random UUIDs, and `created_at` is the row's serial number.
- Postgres type errors for a malformed uuid in an `eq('id', …)` filter
  (code 22P02) are not modelled; a malformed id simply matches no row. The
  same holds for the hero and about deactivation, `.neq('id', id)`: with a
  malformed id the store raises 22P02, the handler ignores it and nothing is
  deactivated, while the model deactivates every other row.
- Token verification is the parameter `verify`; the auth library is not part
  of this model.
- `parseInt` of a negative or non-numeric `limit`/`offset` is not modelled.
  Such values are read as their defaults.
- Query.Count: states only the default and the all-digits cases, because the
  other strings are read as defaults (above).
- A thrown error's stack is modelled only as present or absent. The V8
  `TypeError` texts modelled are the two `null` destructurings of the stats
  and contact handlers; other TypeErrors do not arise in the model.
- A null request body in the blog, project, certificate, hero and about
  handlers (a destructuring TypeError, answered 500) is not modelled. Their
  fields are read from an empty object instead.
- `Promise.all`, `await`, the simulated latency and the concurrency of
  requests are left out. The sync client's reads are one value, and its
  writes are a sequence.
- `JSON.stringify`/`JSON.parse` are taken as the identity, and localStorage
  holds documents rather than strings. So an empty stored string (falsy in
  the source) is not modelled.
- HTTP verbs are compared as exact strings, as the source does.
- An `is_active` that is truthy but not `true` is not distinguished. Only
  `true` marks the active row.
- Numbers in JSON are integers; floating point is left out.
- Admin.SetTechStack: the source mutates the project object in place inside
  a shallow copy of the list. Its aliasing with the previous state is not
  captured; the model builds a new list.
- Admin.UpdateExperience, Admin.UpdateStat, Admin.UpdateProject,
  Admin.UpdateCertificate, Admin.UpdatePost: require the index to be in
  range, because the form only edits items it displays.
- The hero, about and contact forms' field edits are plain record updates,
  and are not modelled one by one.
- The project field edits cover the text fields; the tech stack goes
  through SetTechStack.
- Admin.ParseJoinedList: needs a non-empty list, because an empty list is
  shown as "" and parsed back as one empty item (EmptyListReparsed).
- SyncClient.GetFallsBackFieldByField: the skills, experience and list
  sections fall back only when absent. An empty array is truthy in
  JavaScript, so `||` keeps it.
- SyncClient.StatPayloadOf, SyncClient.ToCertificate, SyncClient.ToBlogPost:
  the object spreads (`...s`, `...c`, `...b`) are dropped. Columns of a
  stored row other than those named are not carried into the document, and
  a stat's extra fields are not sent.
- SyncClient.BlogPayloadOf: the slug's `Date.now()` and the date's
  `new Date()` of one post are taken as one clock reading.
- Text.JsLowerChar: characters outside ASCII other than U+0130 and the
  Kelvin sign are left as they are. Their JavaScript lower case lies outside
  `[a-z0-9]` as they do, so the slug is the same.
- SyncClient.BlogRoundTrip: the read time is not sent, so it does not survive
  the round trip.
- The login wrapper, `api/auth/login/index.js`, `local-api.js`, `server.js`,
  `test-supabase.js`, `lib/supabase.js`, and the presentational components
  and layouts are not part of this model.
- `console.log`/`console.error` output is not modelled, beyond the sync
  client's log of requests answered not ok.

Behaviours of the source that the model keeps as written:

- When an update with an unknown id falls back to an insert, the hero and
  about handlers still answer 200.
- A certificate with an unknown id is inserted and answered
  'Certificate updated' with 200.
- A stats item whose update matches no row adds a null result.
- A hero or about GET with more than one active row answers an empty
  object, because `.single()` fails with PGRST116.
