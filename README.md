# Artist roster: handlers, generation and the paid-status view

A Dafny model of the artist roster of a royalty-accounting backend.
It covers two source files.

- `src/controllers/artist.js` holds the request handlers `create`, `update`, `payout`, `changeRate`, `deleteById`, `getById` and `get`. They are modelled as methods of the class `ArtistController.ArtistStore`. The class holds the artist records by id, the order in which they were inserted, and the next fresh id. Every handler that names an artist looks it up by id and rejects an absent or soft-deleted one with `ARTIST_NOTFOUND`. `create`, `update` and `changeRate` validate their input (`BAD_REQUEST`). `create` looks nothing up, `update` validates before its lookup, and `changeRate` validates after it. `update`, `payout`, `changeRate` and `deleteById` then apply a `$set` limited to the fields they own; `getById` and `get` only read. `changeRate` also answers `NOT_MODIFIED` when the new rate equals the stored one.
- `src/models/artist.js` holds `generate`, `artistToJSON` and `PAID_STATUS_TYPE`. They are modelled in `ArtistModel`.
  - `generate` is a loop that copies a whitelist of input keys onto the schema defaults.
  - `artistToJSON` is modelled as functions over documents, which are maps from property names to values.
  - The PAID/UNPAID status is modelled as a function of the record and the current time.

Representation choices:

- A rate is a number validated as non-negative with at most six fractional digits. It arrives as a decimal literal (`Decimals.Decimal`, mantissa × 10^exponent) and is stored as a whole number of millionths. The exact equality test of `changeRate` is therefore integer equality, and `Decimals.DenotesUnique` shows that comparing millionths is comparing values.
- Time is integer milliseconds. moment's `diff(..., 'd')` is the whole number of days, truncated toward zero.
- Ids (ObjectIds) are natural numbers. A fresh one is taken from a counter.
- The acting user and the current time are parameters.
- A property name is an `ArtistModel.Key`. Each name the model reads or writes has a constructor of its own, and `Other(name)` holds any other name. The type of that `name` excludes the listed names, so each JavaScript name has exactly one key (`ArtistModel.OneKeyPerName`).
- The handlers call `artistDTO(artist, null)`. That function forwards its rest array `[null]` as the single extra property, so every view gains one key, the string form of `[null]` (the empty string). The record holds nothing under it. `ArtistModel.NullPropKey` is that key.

## Model

| member | source | states |
|---|---|---|
| Decimals.IsValidRate | src/controllers/artist.js:19 | the rate rule of the body and query schemas: non-negative, at most six fractional digits; `Decimals.FitsScaleIff` and `Decimals.MillionthsDenotes` state what it admits |
| Decimals.Millionths | src/controllers/artist.js:19 | the stored rate is non-negative exactly when the requested number is |
| Decimals.MillionthsDenotes | src/controllers/artist.js:19 | a rate with at most six fractional digits is stored exactly: the millionths denote the same number |
| Decimals.BeyondScaleDenotesNothing | src/controllers/artist.js:51 | a number with more than six fractional digits is no whole number of millionths |
| Decimals.FitsScaleIff | src/controllers/artist.js:123 | the precision rule holds exactly of the numbers that are a whole number of millionths |
| Decimals.DenotesUnique | src/controllers/artist.js:133 | a number denotes one count of millionths only, so the equality test on millionths is equality of the numbers |
| Decimals.RateBoundaries | src/controllers/artist.js:19 | the model's rate rule accepts 0.000001 and 1.234567, refuses -0.000001 and 1.2345678, and accepts 1.0e-6 written with a trailing zero |
| ArtistModel.OneKeyPerName | src/models/artist.js:125 | two keys are equal exactly when they spell the same property name, so a computed key `[prop]` has one representation |
| ArtistModel.FromDocumentKeeps | src/models/artist.js:30-61 | a record read from a document holds what the document holds under each key the schema keeps |
| ArtistModel.DocumentRoundTrip | src/models/artist.js:30-61 | writing a record as a document and reading it back gives the record |
| ArtistModel.SchemaDefaults | src/models/artist.js:41-48 | the document `new this()` starts from: a fresh `_id`, `streams` 0, `paidStreams` 0, not deleted; `ArtistModel.GeneratedStartsUnstreamed` states that these survive `generate` |
| ArtistModel.Generated | src/models/artist.js:71-76 | the defaults overwritten by the whitelisted keys of the input; `ArtistModel.GeneratedShape` states its keys and values, and `ArtistModel.Generate` is proved to compute it |
| ArtistModel.GeneratedShape | src/models/artist.js:71-76 | the generated document holds the schema defaults plus the whitelisted keys present in the input; those take the input's values, every other key keeps its default |
| ArtistModel.Generate | src/models/artist.js:65-82 | fails with "Artist data is required" exactly when the input is empty; otherwise the loop's result is the generated document |
| ArtistModel.GeneratedStartsUnstreamed | src/models/artist.js:41-48 | a generated artist has streams 0, paid streams 0, is not deleted and was never paid, whatever the input holds |
| ArtistModel.GeneratedIgnoresOtherKeys | src/models/artist.js:72-73 | two inputs that agree on `_id`, `name`, `rate` and `createdBy` generate the same document |
| ArtistModel.WholeDays | src/models/artist.js:112 | the day count is the number of whole days in the elapsed time, truncated toward zero for both signs |
| ArtistModel.DaysSinceLastPayout | src/models/artist.js:112 | whole days since `lastPaidAt`, 0 when there is none; `ArtistModel.WholeDays` states the truncation and `ArtistModel.NeverPaidIsPaid` the absent case |
| ArtistModel.PaidStatusOf | src/models/artist.js:112 | UNPAID when more than 14 whole days passed and streams exceed paid streams, PAID otherwise; `ArtistModel.UnpaidIff` states the rule in milliseconds |
| ArtistModel.UnpaidIff | src/models/artist.js:112 | UNPAID exactly when the artist was paid at least 15 full days ago and has streams beyond those paid |
| ArtistModel.CoveredStreamsArePaid | src/models/artist.js:112 | with streams ≤ paid streams the status is PAID however much time has passed |
| ArtistModel.RecentPayoutIsPaid | src/models/artist.js:112 | within 14 whole days of a payout the status is PAID whatever the stream counts |
| ArtistModel.NeverPaidIsPaid | src/models/artist.js:112 | an artist with no `lastPaidAt` is reported PAID |
| ArtistModel.PaidRightAfterPayout | src/models/artist.js:112 | at the instant of a payout covering every stream the status is PAID |
| ArtistModel.ExtraProps | src/models/artist.js:125 | the `reduce` from `{}` over the extra names; `ArtistModel.ExtraPropsBindsEachName` states its result |
| ArtistModel.ExtraPropsBindsEachName | src/models/artist.js:125 | the `reduce` over the extra property names binds each requested name to the record's own field of that name on a lean record (undefined when it holds none), and binds nothing else |
| ArtistModel.ArtistToJson | src/models/artist.js:110-127 | the object literal with the extra properties spread last; `ArtistModel.ArtistToJsonShape`, `ArtistModel.ViewPassesThrough`, `ArtistModel.ViewIdIsRecordId` and `ArtistModel.ViewStatusIsDerived` state its contents |
| ArtistModel.ArtistToJsonShape | src/models/artist.js:110-127 | the view holds exactly the view keys and the extra names; a view key not requested again keeps its literal value, a requested name takes the lean record's own field of that name |
| ArtistModel.ViewPassesThrough | src/models/artist.js:118-124 | name, rate, streams and paid streams pass through unchanged whatever is requested; `lastPaidBy` is always undefined |
| ArtistModel.ViewIdIsRecordId | src/models/artist.js:115 | `id` is the record's `_id` unless `id` is requested as an extra property, which on a lean record replaces it by undefined |
| ArtistModel.ViewStatusIsDerived | src/models/artist.js:122 | `paidStatus` is the derived status unless requested as an extra property |
| ArtistModel.ArtistView | src/models/dtos/artistDTO.js:8-12 | `artistDTO(artist, null)`: the view with the single extra property `[null]`; `ArtistModel.ArtistViewKeys`, `ArtistModel.ArtistViewIdentity` and `ArtistModel.ArtistViewContents` state its contents |
| ArtistModel.ArtistViewKeys | src/models/dtos/artistDTO.js:8-12 | the view a handler returns holds the view keys and the one extra key `artistDTO(artist, null)` adds |
| ArtistModel.ArtistViewIdentity | src/models/dtos/artistDTO.js:8-12 | the view a handler returns carries the record's id and its derived status |
| ArtistModel.ArtistViewContents | src/models/dtos/artistDTO.js:8-12 | the view a handler returns carries the record's name, rate and stream counts; its extra key holds undefined |
| ArtistController.ValidateArtistBody | src/controllers/artist.js:17-26 | a body is accepted exactly when it is present, has a non-empty string name and a valid rate, and has no other key; the accepted rate denotes the requested number; otherwise BAD_REQUEST |
| ArtistController.ValidateRateQuery | src/controllers/artist.js:122-130 | a query is accepted exactly when it holds a valid `newRate` and no other key; the accepted rate denotes the requested number; otherwise BAD_REQUEST |
| ArtistController.SameRateIsExactEquality | src/controllers/artist.js:132-135 | the NOT_MODIFIED test on millionths holds exactly when the requested number equals the stored rate |
| ArtistController.NewArtistData | src/controllers/artist.js:31-36 | the four-key object `create` passes on: `_id`, `name`, `rate`, `createdBy`; `ArtistController.CreatedRecord` states what `generate` makes of it |
| ArtistController.CreatedRecord | src/controllers/artist.js:31-39 | the record `create` stores carries the fresh id, the validated name and rate and the acting user, with no streams, nothing paid, never paid and not deleted |
| ArtistController.CreatedArtist | src/controllers/artist.js:31-39 | runs `generate` on that object and reads the result back as a record; the record has the fresh id, the validated name and rate, the acting user, no streams, nothing paid, never paid and not deleted |
| ArtistController.ActiveIds | src/controllers/artist.js:192-194 | the listed ids are exactly the stored ids not soft-deleted, in store order |
| ArtistController.InsertKeepsConsistent | src/controllers/artist.js:31-39 | storing a record under a fresh id keeps every id listed once and every record under its own id |
| ArtistController.ReplaceKeepsConsistent | src/controllers/artist.js:71-78 | rewriting a record under its own id keeps the store consistent |
| ArtistController.ArtistStore.IsActive | src/controllers/artist.js:66 | the lookup guard shared by `update`, `payout`, `changeRate`, `deleteById` and `getById` (lines 66, 92, 118, 157, 181): the record exists and is not soft-deleted; each handler's contract states the ARTIST_NOTFOUND branch in its terms |
| ArtistController.ArtistStore.Create | src/controllers/artist.js:15-44 | BAD_REQUEST with nothing written and the id counter unchanged when validation fails; otherwise exactly one new record under a fresh id, appended to the store order, the counter advanced by one, and its view returned |
| ArtistController.ArtistStore.Update | src/controllers/artist.js:46-81 | validation before lookup: BAD_REQUEST, then ARTIST_NOTFOUND, each with nothing written; on success only `name` and `rate` of that record change and its id is returned |
| ArtistController.ArtistStore.Payout | src/controllers/artist.js:84-108 | ARTIST_NOTFOUND with nothing written for an absent or deleted record; otherwise no "nothing owed" guard: paid streams := the streams just read, `paidBy` := the user, `lastPaidAt` := now, nothing else changes, and the id and those streams are returned |
| ArtistController.ArtistStore.ChangeRate | src/controllers/artist.js:110-147 | lookup before validation: ARTIST_NOTFOUND, then BAD_REQUEST, then NOT_MODIFIED for an equal rate, each with nothing written; it succeeds exactly otherwise and changes only `rate` |
| ArtistController.ArtistStore.DeleteById | src/controllers/artist.js:149-171 | ARTIST_NOTFOUND with nothing written for an absent or deleted record; otherwise only `deleted` becomes true, the record stays and is no longer active |
| ArtistController.ArtistStore.GetById | src/controllers/artist.js:173-188 | the view of the record exactly when it exists and is not deleted, ARTIST_NOTFOUND otherwise |
| ArtistController.ArtistStore.List | src/controllers/artist.js:190-202 | one view per active record, in store order, pushed by the loop |
| ArtistController.DeleteThenUse | src/controllers/artist.js:157-159 | after a soft delete, `getById`, `payout`, `changeRate` and a second delete answer ARTIST_NOTFOUND; `update` still answers BAD_REQUEST first for an invalid body; the record is kept, deleted |
| ArtistController.ChangeRateTwice | src/controllers/artist.js:132-135 | a second identical `changeRate` after a successful one is NOT_MODIFIED; after a failed one it fails the same way |
| ArtistController.PayoutThenGet | src/controllers/artist.js:100-103 | right after a payout the artist's view shows PAID and paid streams equal to streams |
| ArtistController.CreateThenGet | src/controllers/artist.js:31-43 | a new artist's view shows its name, no streams, nothing paid, and PAID at any later time |

Every mutating handler also ensures `DeletionsKept`: a record soft-deleted before the call is still held, and still deleted, after it. Soft deletion therefore hides a record from every later lookup.

## Left out

- Express routing, authentication and the route guards are not part of this model.
- `ArtistController.ArtistStore.ChangeRate` has no route guard in front of it. In the source, `required.query('newRate')` (src/routes/artists.js:19) answers 422 for a missing `newRate` before any lookup. The model answers ARTIST_NOTFOUND for that input when the id is unknown or deleted, and BAD_REQUEST when it is active, so the guard order differs for this input.
- Persistence is reduced to a map. Not modelled: mongoose, schema compilation, the soft-delete plugin's own fields (`deletedAt`, `deletedBy`), timestamps, and the unique index on `name`. A duplicate name is refused by the database, not by the handlers.
- `paidBy` is not a path of the schema, which declares `lastPaidBy` (a Date) instead. Under mongoose's strict mode the `paidBy` written by `payout` may be dropped. The model stores `paidBy` as written and keeps `lastPaidBy` always undefined.
- `calculateAvgMonthly` (`avgMonthly` in the view) is left out: it is floating-point division by a moment month count, rounded with `toFixed`.
- The `updatedAt` key and the calendar-formatted `lastPaidAt` of the view are left out, because they are locale and calendar formatting.
- Joi is replaced by the decimal rule. The `validate` calls at src/controllers/artist.js:22, 53 and 125 pass no options, so Joi's conversion mode is on. It converts numeric strings to numbers and rounds a number to the precision limit; the model does neither.
- `ArtistController.ValidateArtistBody` refuses a rate with a seventh fractional digit. The source rounds it to six digits and accepts it.
- `ArtistController.ValidateArtistBody` folds a numeric-string `rate` in a JSON body (such as `"0.005"`) into an absent field and answers BAD_REQUEST. The source converts it and accepts it. Non-string names are folded into an absent field the same way.
- `ArtistController.ArtistStore.ChangeRate` refuses a `newRate` with more than six fractional digits with BAD_REQUEST. The source keeps only the `error` of the validation at src/controllers/artist.js:125, which is empty after rounding. It then re-reads the raw query string with `parseFloat` at line 132, so it can accept and store a rate with more than six fractional digits. The model's stored rates are always whole millionths. The same rounding turns a small negative `newRate` such as -0.0000004 into 0, which passes `min(0)`; line 132 then stores the negative `parseFloat` value. The model refuses it with BAD_REQUEST. This reading of Joi's rounding is not tied to a Joi version, because the source files name none.
- `ArtistController.ArtistStore.List` requires only that every listed id has a record. That is part of the store invariant.
- `ArtistModel.ArtistToJson` models `artist[prop]` at src/models/artist.js:125 as a read of an own field of a lean record (`ArtistModel.Field`). Two readings of the source go beyond that. First, `create` passes the saved mongoose document to `artistDTO` (src/controllers/artist.js:39-41), whose `id` virtual, `createdAt`, `updatedAt` and `__v` would answer a request for those names; the model gives undefined for `id`. Second, `artist[prop]` follows the prototype chain, so names such as `toString` or `constructor` yield a value in the source and undefined in the model. The handlers request only the empty-string name, which both readings leave undefined, so their views are unaffected.
- `artistDTO` turns an exception in `artistToJSON` into `null`. No exception arises for a stored record in this model, so that path is not modelled.
- Concurrency is not modelled. Each handler runs as one atomic step, so read-then-write races between requests are not represented.
- Time zones and daylight-saving shifts in moment's day difference are left out. A day is 86,400,000 ms.

## Notes on the source

- A never-paid artist has no `lastPaidAt`. moment diffs the current instant against itself, so the elapsed days are 0 and the status is PAID (`ArtistModel.NeverPaidIsPaid`). So an artist who was never paid is reported PAID even with unpaid streams; the UNPAID branch can only fire for an artist that has a `lastPaidAt`.
- 1.234567 has six fractional digits, so it satisfies the model's rate rule `Decimals.IsValidRate` (`Decimals.RateBoundaries`). 1.2345678 has a seventh digit, and the model's rule refuses it. The source's validation rounds it instead (see "## Left out").
