/** Properties of the journal routes that relate several calls, or a handler
    to the store's referential integrity. */
module JournalProperties {
  import opened Results
  import opened JournalStore
  import opened JournalRoutes
  import opened RouteTable

  /** A new journal hangs off an existing user, so integrity survives creation. */
  lemma CreatePreservesValid(s: Store, now: Time, body: Option<CreateBody>)
    requires Valid(s)
    ensures Valid(Create(s, now, body).store)
  {
  }

  /** A new entry hangs off an existing journal, and the refreshed journal keeps its owner. */
  lemma AddEntryPreservesValid(s: Store, now: Time, journalId: Id, body: Option<EntryBody>)
    requires Valid(s)
    ensures Valid(AddEntry(s, now, journalId, body).store)
  {
  }

  /** A journal update keeps integrity exactly when the body names no owner,
      or names a user that exists: the body is spread into the record unchecked. */
  lemma UpdateJournalPreservesValid(s: Store, now: Time, journalId: Id, body: Option<JournalPatch>)
    requires Valid(s)
    ensures Valid(UpdateJournal(s, now, journalId, body).store) <==>
      (journalId in s.journals && body.Some? && body.value.userId.Some? ==> body.value.userId.value in s.users)
  {
    var r := UpdateJournal(s, now, journalId, body);
    if journalId in s.journals && body.Some? && body.value.userId.Some? && body.value.userId.value !in s.users {
      assert r.store.journals[journalId].userId !in r.store.users;
    }
  }

  /** An entry update keeps integrity exactly when the body names no journal,
      or names a journal that exists. */
  lemma UpdateEntryPreservesValid(s: Store, now: Time, entryId: Id, body: Option<EntryPatch>)
    requires Valid(s)
    ensures Valid(UpdateEntry(s, now, entryId, body).store) <==>
      (entryId in s.entries && body.Some? && body.value.journalId.Some? ==> body.value.journalId.value in s.journals)
  {
    var r := UpdateEntry(s, now, entryId, body);
    if entryId in s.entries && body.Some? && body.value.journalId.Some? && body.value.journalId.value !in s.journals {
      assert r.store.entries[entryId].journalId !in r.store.journals;
    }
  }

  /** Every route either answers an error and leaves the store as it was, or
      leaves a store in which every journal's user and every entry's journal
      exist; the one exception is a PATCH that moves a record to an owner
      that does not exist, and that one always breaks integrity. */
  lemma HandlePreservesValid(s: Store, now: Time, req: Request)
    requires Valid(s)
    ensures Handle(s, now, req).result.Error? ==> Handle(s, now, req).store == s
    ensures Valid(Handle(s, now, req).store) <==> NamesKnownOwner(s, req)
  {
    match req
    case PostJournal(b) => CreatePreservesValid(s, now, b);
    case PostEntry(j, b) => AddEntryPreservesValid(s, now, j, b);
    case PatchJournal(j, b) => UpdateJournalPreservesValid(s, now, j, b);
    case PatchEntry(e, b) => UpdateEntryPreservesValid(s, now, e, b);
    case _ =>
  }

  /** Integrity holds after any sequence of requests whose PATCH bodies name
      only existing owners. */
  lemma {:induction false} RunPreservesValid(s: Store, calls: seq<Call>)
    requires Valid(s)
    ensures NamesKnownOwners(s, calls) ==> Valid(Run(s, calls))
    decreases |calls|
  {
    if |calls| > 0 && NamesKnownOwners(s, calls) {
      HandlePreservesValid(s, calls[0].now, calls[0].request);
      RunPreservesValid(Handle(s, calls[0].now, calls[0].request).store, calls[1..]);
    }
  }

  /** A created journal shows up in its owner's journal list, which grows by
      exactly that one journal; every other user's list is unchanged. */
  lemma CreateListedForOwner(s: Store, now: Time, body: Option<CreateBody>)
    requires Create(s, now, body).result.Ok?
    ensures
      var r := Create(s, now, body);
      var c := r.result.value;
      && GetJournals(r.store, c.userId).result == Ok(GetJournals(s, c.userId).result.value[c.journalId := c.journal])
      && |GetJournals(r.store, c.userId).result.value| == |GetJournals(s, c.userId).result.value| + 1
    ensures
      var r := Create(s, now, body);
      forall u :: u != r.result.value.userId ==> GetJournals(r.store, u) == GetJournals(s, u).(store := r.store)
  {
    var r := Create(s, now, body);
    var c := r.result.value;
    var before := JournalsOf(s, c.userId);
    assert c.journalId !in before;
    assert JournalsOf(r.store, c.userId) == before[c.journalId := c.journal];
    forall u | u != c.userId
      ensures GetJournals(r.store, u) == GetJournals(s, u).(store := r.store)
    {
      assert JournalsOf(r.store, u) == JournalsOf(s, u);
    }
  }

  /** Adding an entry grows the target journal's entry list by exactly the new
      entry, and leaves every other journal's entry list as it was. */
  lemma AddEntryGrowsJournalByOne(s: Store, now: Time, journalId: Id, body: Option<EntryBody>)
    requires AddEntry(s, now, journalId, body).result.Ok?
    ensures
      var r := AddEntry(s, now, journalId, body);
      var a := r.result.value;
      && GetEntries(r.store, journalId).result.value.entries == GetEntries(s, journalId).result.value.entries[a.entryId := a.entry]
      && |GetEntries(r.store, journalId).result.value.entries| == |GetEntries(s, journalId).result.value.entries| + 1
    ensures
      var r := AddEntry(s, now, journalId, body);
      forall j :: j != journalId ==> EntriesOf(r.store, j) == EntriesOf(s, j)
  {
    var r := AddEntry(s, now, journalId, body);
    var a := r.result.value;
    var before := EntriesOf(s, journalId);
    assert a.entryId !in before;
    assert EntriesOf(r.store, journalId) == before[a.entryId := a.entry];
    forall j | j != journalId
      ensures EntriesOf(r.store, j) == EntriesOf(s, j)
    {
      assert EntriesOf(r.store, j).Keys == EntriesOf(s, j).Keys;
    }
  }

  /** The journal's `updatedAt` moves exactly when the clock reads something
      other than it already holds; two readings within the same second of the
      clock's formatting leave it as it was. */
  lemma AddEntryMovesUpdatedAt(s: Store, now: Time, journalId: Id, body: Option<EntryBody>)
    requires AddEntry(s, now, journalId, body).result.Ok?
    ensures
      var a := AddEntry(s, now, journalId, body).result.value;
      a.journal.updatedAt != s.journals[journalId].updatedAt <==> now != s.journals[journalId].updatedAt
  {
  }

  /** The entry just added is what a lookup of its id in its journal finds. */
  lemma AddEntryThenFound(s: Store, now: Time, journalId: Id, body: Option<EntryBody>)
    requires AddEntry(s, now, journalId, body).result.Ok?
    ensures
      var r := AddEntry(s, now, journalId, body);
      GetEntrieById(r.store, journalId, r.result.value.entryId).result == Ok(Found(r.result.value.entry))
  {
  }

  /** An entry that belongs to another journal is not found through this one. */
  lemma GetEntrieByIdScoped(s: Store, journalId: Id, postId: Id)
    requires journalId in s.journals
    requires postId in s.entries && s.entries[postId].journalId != journalId
    ensures GetEntrieById(s, journalId, postId).result == Ok(Undefined)
  {
  }

  /** The `updatedAt` a PATCH body supplies is overridden by the clock: the
      update does the same with or without it. */
  lemma UpdateJournalIgnoresSuppliedUpdatedAt(s: Store, now: Time, journalId: Id, data: JournalPatch, stamp: Option<Time>)
    ensures UpdateJournal(s, now, journalId, Some(data.(updatedAt := stamp))) == UpdateJournal(s, now, journalId, Some(data))
  {
  }

  /** As `UpdateJournalIgnoresSuppliedUpdatedAt`, for entries. */
  lemma UpdateEntryIgnoresSuppliedUpdatedAt(s: Store, now: Time, entryId: Id, data: EntryPatch, stamp: Option<Time>)
    ensures UpdateEntry(s, now, entryId, Some(data.(updatedAt := stamp))) == UpdateEntry(s, now, entryId, Some(data))
  {
  }

  /** An empty PATCH body changes nothing but the journal's `updatedAt`. */
  lemma UpdateJournalEmptyPatch(s: Store, now: Time, journalId: Id)
    requires journalId in s.journals
    ensures UpdateJournal(s, now, journalId, Some(JournalPatch(None, None, None, None, None))).result
         == Ok(s.journals[journalId].(updatedAt := now))
  {
  }

  /** Repeating the same journal update at the same time changes nothing more. */
  lemma UpdateJournalIdempotent(s: Store, now: Time, journalId: Id, data: JournalPatch)
    ensures
      var once := UpdateJournal(s, now, journalId, Some(data));
      UpdateJournal(once.store, now, journalId, Some(data)) == once
  {
  }

  /** Repeating the same entry update at the same time changes nothing more. */
  lemma UpdateEntryIdempotent(s: Store, now: Time, entryId: Id, data: EntryPatch)
    ensures
      var once := UpdateEntry(s, now, entryId, Some(data));
      UpdateEntry(once.store, now, entryId, Some(data)) == once
  {
  }

  /** After an update, reading the journal back gives the updated journal. */
  lemma UpdateJournalThenRead(s: Store, now: Time, journalId: Id, data: JournalPatch)
    requires journalId in s.journals
    ensures
      var r := UpdateJournal(s, now, journalId, Some(data));
      GetJournalDataByJournalId(r.store, journalId).result == Ok(Some(r.result.value))
  {
  }

  /** After an update, looking the entry up in the journal it now belongs to
      gives the updated entry, or null when the body moved it to a journal
      that does not exist. */
  lemma UpdateEntryThenRead(s: Store, now: Time, entryId: Id, data: EntryPatch)
    requires entryId in s.entries
    ensures
      var r := UpdateEntry(s, now, entryId, Some(data));
      var owner := r.result.value.journalId;
      GetEntrieById(r.store, owner, entryId).result
        == Ok(if owner in s.journals then Found(r.result.value) else Null)
  {
  }

  /** Alice creates "My Diary" and writes "Day 1" in it. The journal's
      `updatedAt` moves only because the two clock readings differ; see
      `AddEntryMovesUpdatedAt`. */
  lemma AliceScenario()
    ensures
      var s0 := Seeded(map[1 := User("alice", "secret", None)]);
      var r1 := Create(s0, "2021-01-01T10:00:00", Some(CreateBody(Some("My Diary"), Some(1))));
      && r1.result.Ok?
      && r1.result.value.journal.title == Some("My Diary")
      && r1.result.value.journal.kind == "public"
      && var r2 := AddEntry(r1.store, "2021-01-02T10:00:00", r1.result.value.journalId, Some(EntryBody(Some("Day 1"), Some("content"))));
      && r2.result.Ok?
      && |GetEntries(r2.store, r1.result.value.journalId).result.value.entries| == 1
      && r2.result.value.journal.updatedAt != r1.result.value.journal.updatedAt
  {
    var s0 := Seeded(map[1 := User("alice", "secret", None)]);
    var r1 := Create(s0, "2021-01-01T10:00:00", Some(CreateBody(Some("My Diary"), Some(1))));
    AddEntryGrowsJournalByOne(r1.store, "2021-01-02T10:00:00", r1.result.value.journalId, Some(EntryBody(Some("Day 1"), Some("content"))));
    assert EntriesOf(r1.store, r1.result.value.journalId) == map[];
  }
}
