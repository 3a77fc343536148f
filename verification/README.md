# Journal mock backend, modelled in Dafny

The application is a browser journaling app whose development backend is a
Mirage mock REST server. Its journal routes (`src/services/mirage/routes/journal.ts`)
serve create, read and update requests for Users, the Journals they own and the
Entries those journals own, all kept in an in-memory store.

This project models those eight route handlers as pure transitions
`(store, now, request) -> (store', reply)`:

- `results.dfy` (`Results`): `Option` for JavaScript values that may be `undefined`,
  and `Result` for a handler's payload or its `handleErrors` error reply.
- `journal_store.dfy` (`JournalStore`): the `User`, `Journal` and `Entry` records,
  the `Store` of three id-keyed maps, the referential-integrity invariant `Valid`,
  and `FreshId`, which stands in for the ORM's id assignment.
- `journal_routes.dfy` (`JournalRoutes`): the handlers `Create`, `AddEntry`,
  `GetJournals`, `GetJournalDataByJournalId`, `GetEntries`, `GetEntrieById`,
  `UpdateJournal` and `UpdateEntry`, plus the ORM's `update` as
  `ApplyJournalPatch`/`ApplyEntryPatch`.
- `route_table.dfy` (`RouteTable`): the routes as one `Handle` step over a
  `Request` datatype, and `Run` for a sequence of requests.
- `journal_properties.dfy` (`JournalProperties`): lemmas relating handlers to
  each other and to `Valid`.

Modelling choices:

- A record's id is its key in the store; records hold the owner's foreign key
  (`Journal.userId`, `Entry.journalId`). Ids are natural numbers, where Mirage
  uses the decimal strings of the same numbers.
- The clock (`dayjs().format()`) is the parameter `now`.
- The parsed request body is an `Option`. `None` means that reading the body
  throws: `JSON.parse` fails, or, for `create` and `addEntry` only, the body is
  `null`, which their destructuring cannot read. Such a body takes the handler's
  catch branch, as does a lookup that dereferences a missing record.
- Every other JSON value is `Some`, with each declared field it lacks set to
  `None`. A PATCH body of `null` or a number spreads to nothing, so it is the
  empty patch and the update succeeds.
- A PATCH body may carry the owner's foreign key (`userId`, `journalId`). Like
  every other field it is written into the record unchecked.
- An update computes `ApplyPatch(record, data.(updatedAt := Some(now)))`. This
  mirrors `update({ ...data, updatedAt: now })`, where the clock is written after
  the spread and so wins. The helpers `StampJournal` and `StampEntry` build that
  update object, `ApplyJournalPatch` and `ApplyEntryPatch` perform the `update`.
- Helpers without rows of their own: `HasUser` is the `findBy` lookup and the
  `!exUser` test in `create`; `JournalsOf` and `EntriesOf` are the relation
  accessors `user.journal` and `journal.entry`, whose results `GetJournals` and
  `GetEntries` describe in their contracts.
- `addEntry` refreshes the journal with the same `ApplyJournalPatch` applied to
  the journal's own attributes plus the new `updatedAt`.

Two behaviours of the source worth calling out:

- `getJournalDataByJournalId` returns whatever `find` gives. For a missing
  journal that is `null`, not an error, so the model answers `Ok(None)`.
- The update handlers spread the whole body into the record and strip nothing.
  In the model, `update` is a plain map write, so an update naming an unknown
  owner leaves the record without one; the model proves exactly when integrity
  survives an update. The ORM's own foreign-key check, which would likely
  reject such a body, is not modelled (see Left out). Its patch types have no `id` field,
  so it makes no claim that an update preserves a record's id.

## Model

| member | source | states |
|---|---|---|
| JournalStore.FreshId | src/services/mirage/routes/journal.ts:19-24 | a newly created record gets an id that no record of its collection already has |
| JournalRoutes.Create | src/services/mirage/routes/journal.ts:12-33 | an unparseable body fails with "Failed to create Journal."; an unknown or missing userId fails with "No such user exists."; both leave the store unchanged; otherwise the reply carries the owner's attributes and a new journal with the requested title, type "public", owner userId and createdAt = updatedAt = now, under a fresh id, and nothing else in the store changes |
| JournalRoutes.AddEntry | src/services/mirage/routes/journal.ts:40-60 | succeeds exactly when the journal exists and the body parses, else fails with "Failed to save entry." and an unchanged store; the new entry has the body's title and content, its journal as owner, createdAt = updatedAt = now and a fresh id; the journal's updatedAt becomes that now and its other attributes stay; no other journal or entry changes |
| JournalRoutes.GetJournals | src/services/mirage/routes/journal.ts:67-72 | never changes the store; fails with "Could not get user journals." exactly when the user is missing; otherwise returns exactly the journals whose owner is that user |
| JournalRoutes.GetJournalDataByJournalId | src/services/mirage/routes/journal.ts:79-84 | never changes the store and never fails; returns the journal when it exists and null when it does not |
| JournalRoutes.GetEntries | src/services/mirage/routes/journal.ts:91-96 | never changes the store; fails with "Failed to get Journal entries." exactly when the journal is missing; otherwise returns exactly that journal's entries together with its title |
| JournalRoutes.GetEntrieById | src/services/mirage/routes/journal.ts:103-117 | never changes the store and never fails; answers null exactly when the journal is missing; finds the entry with id postId exactly when that entry belongs to the journal; otherwise answers undefined |
| JournalRoutes.ApplyJournalPatch | src/services/mirage/routes/journal.ts:128-131 | every attribute present in the update object, the owner's userId included, overwrites the journal's, and every absent one keeps its old value |
| JournalRoutes.ApplyEntryPatch | src/services/mirage/routes/journal.ts:143-146 | the same merge rule for an entry's attributes, its journalId included |
| JournalRoutes.JournalAttrs | src/services/mirage/routes/journal.ts:50-53 | updating a journal with its own spread attributes gives back the same journal |
| JournalRoutes.UpdateJournal | src/services/mirage/routes/journal.ts:124-135 | succeeds exactly when the journal exists and the body parses, else fails with "Failed to update Journal." and an unchanged store; present fields (the owner's userId among them) overwrite, absent fields keep their old values, updatedAt is now whatever the body says, and only that journal changes |
| JournalRoutes.UpdateEntry | src/services/mirage/routes/journal.ts:139-150 | the same for entries, with the message "Failed to update entry." and journalId as the owner field |
| RouteTable.Handle | src/services/mirage/routes/journal.ts:8-151 | any route that answers an error leaves the store as it was; the four read routes never change it |
| JournalProperties.CreatePreservesValid | src/services/mirage/routes/journal.ts:12-33 | creating a journal keeps every journal's user and every entry's journal present |
| JournalProperties.AddEntryPreservesValid | src/services/mirage/routes/journal.ts:40-60 | adding an entry keeps referential integrity |
| JournalProperties.UpdateJournalPreservesValid | src/services/mirage/routes/journal.ts:124-135 | with integrity beforehand, a journal update keeps integrity exactly when the body names no userId or names an existing user; an unknown userId always breaks it |
| JournalProperties.UpdateEntryPreservesValid | src/services/mirage/routes/journal.ts:139-150 | with integrity beforehand, an entry update keeps integrity exactly when the body names no journalId or names an existing journal; an unknown journalId always breaks it |
| JournalProperties.HandlePreservesValid | src/services/mirage/routes/journal.ts:8-151 | every route that answers an error leaves the store unchanged; from a store with integrity, a route leaves integrity intact exactly when it is not a PATCH moving an existing record to an owner that does not exist |
| JournalProperties.RunPreservesValid | src/services/mirage/routes/journal.ts:8-151 | referential integrity holds after any sequence of requests whose PATCH bodies name only owners that exist when served |
| JournalProperties.CreateListedForOwner | src/services/mirage/routes/journal.ts:19-24 | a created journal appears in its owner's journal list, that list grows by exactly one, and no other user's list changes |
| JournalProperties.AddEntryGrowsJournalByOne | src/services/mirage/routes/journal.ts:44-49 | the journal's entry list gains exactly the new entry, so its size grows by one, and every other journal's entries stay the same |
| JournalProperties.AddEntryMovesUpdatedAt | src/services/mirage/routes/journal.ts:43-53 | the journal's updatedAt changes exactly when the clock reading differs from the value it already holds |
| JournalProperties.AddEntryThenFound | src/services/mirage/routes/journal.ts:104-111 | looking up the new entry's id in its journal finds the new entry |
| JournalProperties.GetEntrieByIdScoped | src/services/mirage/routes/journal.ts:108-110 | an entry owned by a different journal is not found through this journal; the answer is undefined |
| JournalProperties.UpdateJournalIgnoresSuppliedUpdatedAt | src/services/mirage/routes/journal.ts:128-131 | a body's own updatedAt has no effect on a journal update, because now is written after the spread |
| JournalProperties.UpdateEntryIgnoresSuppliedUpdatedAt | src/services/mirage/routes/journal.ts:143-146 | a body's own updatedAt has no effect on an entry update |
| JournalProperties.UpdateJournalEmptyPatch | src/services/mirage/routes/journal.ts:128-132 | an empty body changes only the journal's updatedAt |
| JournalProperties.UpdateJournalIdempotent | src/services/mirage/routes/journal.ts:124-135 | repeating the same journal update at the same time leaves the store and the reply as they were |
| JournalProperties.UpdateEntryIdempotent | src/services/mirage/routes/journal.ts:139-150 | repeating the same entry update at the same time leaves the store and the reply as they were |
| JournalProperties.UpdateJournalThenRead | src/services/mirage/routes/journal.ts:79-81 | reading a journal back after an update gives the updated journal |
| JournalProperties.UpdateEntryThenRead | src/services/mirage/routes/journal.ts:104-111 | after an update, looking the entry up in the journal it now belongs to gives the updated entry, or null when the body moved it to a journal that does not exist |
| JournalProperties.AliceScenario | src/services/mirage/routes/journal.ts:19-53 | for a user alice, creating "My Diary" gives a public journal with that title; adding "Day 1" to it gives it one entry and moves its updatedAt |

## Left out

- User creation and authentication routes live outside `journal.ts` and are not part of this model. A store's users are given, for example via `Seeded`.
- `dayjs` formatting and `JSON.parse`: the time is an opaque parameter and the body an already-parsed `Option`.
- The response shape built by `handleErrors` (in `server.ts`, not part of this model) is abstracted to `Error(message)`.
- Mirage ORM internals: `find`, `findBy`, `createJournal`, `createEntry`, `update` and the relation accessors are plain map operations. In particular, the model does not add the new journal to a `journalIds` attribute of the user, nor the new entry to the journal's `entryIds`; the journal attributes that `addEntry` returns therefore carry no entry list.
- UpdateJournal: a PATCH body carrying `id` is not modelled, because the patch type has no such field. The source would spread it into the record.
- UpdateJournal: an owner key is written into the record as a plain map write. The ORM may run its own checks on an unknown `userId`, and those are not modelled. A `userId` of `null`, which would detach the journal, is not modelled either.
- UpdateEntry: likewise, a body carrying `id` is not modelled, and an unknown or `null` `journalId` is a plain write.
- A declared field whose value has another JSON type, such as `"title": null` or a numeric title, is not modelled. Fields are either absent or of their declared type.
- Fields outside a record's declared attributes in a PATCH body are not modelled.
- GetJournals: returns the journals as a map keyed by id. The order of the array that the ORM collection would list is not modelled.
- GetEntries: returns the entries as a map keyed by id, for the same reason.
- The catch branches of `getJournalDataByJournalId` ("Journal not found.") and `getEntrieById` ("Failed to get entrie.") have no counterpart. Nothing in those handlers can throw once lookups are map operations.
- A `userId` in the create body whose JavaScript type differs from the stored id's type is not modelled. Ids are numbers throughout.
