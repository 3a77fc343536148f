/** The journal and entry route handlers of the mock server, each a pure
    transition from a store (and, where the handler reads the clock, the
    current time `now`) to a new store and a reply.

    A request body is `None` when reading it throws: for every handler when
    `JSON.parse` throws, and for `Create` and `AddEntry` also when the body is
    `null`, which their destructuring cannot read. Any other JSON value is
    `Some`, with every declared field it lacks set to `None`; in particular a
    PATCH body of `null` or a number spreads to nothing and is the empty patch.
    Each handler turns a `None` body, like a lookup that dereferences a missing
    record, into its catch-all error reply. */
module JournalRoutes {
  import opened Results
  import opened JournalStore

  const NoSuchUser := "No such user exists."
  const CreateJournalFailed := "Failed to create Journal."
  const SaveEntryFailed := "Failed to save entry."
  const GetJournalsFailed := "Could not get user journals."
  const GetEntriesFailed := "Failed to get Journal entries."
  const UpdateJournalFailed := "Failed to update Journal."
  const UpdateEntryFailed := "Failed to update entry."

  /** The store after a handler ran, and what the handler answered. */
  datatype Reply<+T> = Reply(store: Store, result: Result<T>)

  /** The body of POST /journal. */
  datatype CreateBody = CreateBody(title: Option<string>, userId: Option<Id>)

  /** The body of POST /journal/:id/entry. */
  datatype EntryBody = EntryBody(title: Option<string>, content: Option<string>)

  /** A partial journal: the fields present in a PATCH body, the owner's
      foreign key among them. The id is not part of it. */
  datatype JournalPatch = JournalPatch(
    title: Option<string>,
    kind: Option<string>,
    createdAt: Option<Time>,
    updatedAt: Option<Time>,
    userId: Option<Id>)

  /** A partial entry, as `JournalPatch`. */
  datatype EntryPatch = EntryPatch(
    title: Option<string>,
    content: Option<string>,
    createdAt: Option<Time>,
    updatedAt: Option<Time>,
    journalId: Option<Id>)

  /** `{ user, journal }`: the owner's attributes and the new journal's. */
  datatype Created = Created(userId: Id, user: User, journalId: Id, journal: Journal)

  /** `{ journal, entry }`: the refreshed journal and the new entry. */
  datatype EntryAdded = EntryAdded(journalId: Id, journal: Journal, entryId: Id, entry: Entry)

  /** `{ entries, journalTitle }`. */
  datatype EntryListing = EntryListing(entries: map<Id, Entry>, journalTitle: Option<string>)

  /** `{ entrie }`: `null` when the journal is missing, `undefined` when the
      journal has no entry with the asked id, otherwise that entry. */
  datatype EntrieLookup = Null | Undefined | Found(entry: Entry)

  /** The ORM's `update(attrs)`: every attribute present in `p` overwrites the
      journal's, every absent one keeps its old value. */
  function ApplyJournalPatch(j: Journal, p: JournalPatch): (m: Journal)
    ensures p.title.Some? ==> m.title == p.title
    ensures p.title.None? ==> m.title == j.title
    ensures p.kind.Some? ==> m.kind == p.kind.value
    ensures p.kind.None? ==> m.kind == j.kind
    ensures p.createdAt.Some? ==> m.createdAt == p.createdAt.value
    ensures p.createdAt.None? ==> m.createdAt == j.createdAt
    ensures p.updatedAt.Some? ==> m.updatedAt == p.updatedAt.value
    ensures p.updatedAt.None? ==> m.updatedAt == j.updatedAt
    ensures p.userId.Some? ==> m.userId == p.userId.value
    ensures p.userId.None? ==> m.userId == j.userId
  {
    Journal(
      if p.title.Some? then p.title else j.title,
      p.kind.GetOr(j.kind),
      p.createdAt.GetOr(j.createdAt),
      p.updatedAt.GetOr(j.updatedAt),
      p.userId.GetOr(j.userId))
  }

  /** The ORM's `update(attrs)` on an entry, as `ApplyJournalPatch`. */
  function ApplyEntryPatch(e: Entry, p: EntryPatch): (m: Entry)
    ensures p.title.Some? ==> m.title == p.title
    ensures p.title.None? ==> m.title == e.title
    ensures p.content.Some? ==> m.content == p.content
    ensures p.content.None? ==> m.content == e.content
    ensures p.createdAt.Some? ==> m.createdAt == p.createdAt.value
    ensures p.createdAt.None? ==> m.createdAt == e.createdAt
    ensures p.updatedAt.Some? ==> m.updatedAt == p.updatedAt.value
    ensures p.updatedAt.None? ==> m.updatedAt == e.updatedAt
    ensures p.journalId.Some? ==> m.journalId == p.journalId.value
    ensures p.journalId.None? ==> m.journalId == e.journalId
  {
    Entry(
      if p.title.Some? then p.title else e.title,
      if p.content.Some? then p.content else e.content,
      p.createdAt.GetOr(e.createdAt),
      p.updatedAt.GetOr(e.updatedAt),
      p.journalId.GetOr(e.journalId))
  }

  /** A journal's own attributes spread into a patch (`...journal.attrs`). */
  function JournalAttrs(j: Journal): (p: JournalPatch)
    ensures ApplyJournalPatch(j, p) == j
  {
    JournalPatch(j.title, Some(j.kind), Some(j.createdAt), Some(j.updatedAt), Some(j.userId))
  }

  /** `{ ...data, updatedAt: now }`: the clock's value written after the
      spread, so it wins over any `updatedAt` the data carries. */
  function StampJournal(data: JournalPatch, now: Time): (p: JournalPatch) {
    data.(updatedAt := Some(now))
  }

  /** `{ ...data, updatedAt: now }` for an entry. */
  function StampEntry(data: EntryPatch, now: Time): (p: EntryPatch) {
    data.(updatedAt := Some(now))
  }

  /** True when the parsed `userId` names an existing user. */
  predicate HasUser(s: Store, userId: Option<Id>) {
    userId.Some? && userId.value in s.users
  }

  /** POST /journal: create a public journal for an existing user. */
  function Create(s: Store, now: Time, body: Option<CreateBody>): (r: Reply<Created>)
    ensures body.None? ==> r == Reply(s, Error(CreateJournalFailed))
    ensures body.Some? && !HasUser(s, body.value.userId) ==> r == Reply(s, Error(NoSuchUser))
    ensures r.result.Ok? <==> body.Some? && HasUser(s, body.value.userId)
    ensures r.result.Ok? ==>
      var c := r.result.value;
      && c.userId == body.value.userId.value
      && c.userId in s.users
      && c.user == s.users[c.userId]
      && c.journal.title == body.value.title
      && c.journal.kind == "public"
      && c.journal.createdAt == now
      && c.journal.updatedAt == now
      && c.journal.userId == c.userId
      && c.journalId !in s.journals
      && r.store.journals == s.journals[c.journalId := c.journal]
      && r.store.users == s.users
      && r.store.entries == s.entries
  {
    match body
    case None => Reply(s, Error(CreateJournalFailed))
    case Some(b) =>
      if !HasUser(s, b.userId) then Reply(s, Error(NoSuchUser))
      else
        var userId := b.userId.value;
        var id := FreshId(s.journals.Keys, s.nextJournalId);
        var journal := Journal(b.title, "public", now, now, userId);
        var s' := s.(journals := s.journals[id := journal], nextJournalId := id + 1);
        Reply(s', Ok(Created(userId, s.users[userId], id, journal)))
  }

  /** POST /journal/:id/entry: add an entry to a journal and refresh the
      journal's `updatedAt`. */
  function AddEntry(s: Store, now: Time, journalId: Id, body: Option<EntryBody>): (r: Reply<EntryAdded>)
    ensures r.result.Ok? <==> journalId in s.journals && body.Some?
    ensures !r.result.Ok? ==> r == Reply(s, Error(SaveEntryFailed))
    ensures r.result.Ok? ==>
      var a := r.result.value;
      var prior := s.journals[journalId];
      && a.journalId == journalId
      && a.entry.title == body.value.title
      && a.entry.content == body.value.content
      && a.entry.createdAt == now
      && a.entry.updatedAt == now
      && a.entry.journalId == journalId
      && a.journal.updatedAt == a.entry.createdAt
      && a.journal.title == prior.title
      && a.journal.kind == prior.kind
      && a.journal.createdAt == prior.createdAt
      && a.journal.userId == prior.userId
      && a.entryId !in s.entries
      && r.store.entries == s.entries[a.entryId := a.entry]
      && r.store.journals == s.journals[journalId := a.journal]
      && r.store.users == s.users
  {
    if journalId !in s.journals || body.None? then Reply(s, Error(SaveEntryFailed))
    else
      var journal := s.journals[journalId];
      var id := FreshId(s.entries.Keys, s.nextEntryId);
      var entry := Entry(body.value.title, body.value.content, now, now, journalId);
      var journal' := ApplyJournalPatch(journal, StampJournal(JournalAttrs(journal), now));
      var s' := s.(journals := s.journals[journalId := journal'],
                   entries := s.entries[id := entry],
                   nextEntryId := id + 1);
      Reply(s', Ok(EntryAdded(journalId, journal', id, entry)))
  }

  /** GET /journal/user/:id: the journals a user owns. */
  function GetJournals(s: Store, userId: Id): (r: Reply<map<Id, Journal>>)
    ensures r.store == s
    ensures r.result.Ok? <==> userId in s.users
    ensures !r.result.Ok? ==> r.result == Error(GetJournalsFailed)
    ensures r.result.Ok? ==> forall j :: j in r.result.value <==> j in s.journals && s.journals[j].userId == userId
    ensures r.result.Ok? ==> forall j :: j in r.result.value ==> r.result.value[j] == s.journals[j]
  {
    if userId in s.users then Reply(s, Ok(JournalsOf(s, userId)))
    else Reply(s, Error(GetJournalsFailed))
  }

  /** GET /journal/:id: the journal, or `null` when there is none; a miss is
      not an error. */
  function GetJournalDataByJournalId(s: Store, journalId: Id): (r: Reply<Option<Journal>>)
    ensures r.store == s
    ensures r.result.Ok?
    ensures r.result.value.Some? <==> journalId in s.journals
    ensures r.result.value.Some? ==> r.result.value.value == s.journals[journalId]
  {
    Reply(s, Ok(if journalId in s.journals then Some(s.journals[journalId]) else None))
  }

  /** GET /journal/:id/entries: the journal's entries and its title. */
  function GetEntries(s: Store, journalId: Id): (r: Reply<EntryListing>)
    ensures r.store == s
    ensures r.result.Ok? <==> journalId in s.journals
    ensures !r.result.Ok? ==> r.result == Error(GetEntriesFailed)
    ensures r.result.Ok? ==> r.result.value.journalTitle == s.journals[journalId].title
    ensures r.result.Ok? ==> forall e :: e in r.result.value.entries <==> e in s.entries && s.entries[e].journalId == journalId
    ensures r.result.Ok? ==> forall e :: e in r.result.value.entries ==> r.result.value.entries[e] == s.entries[e]
  {
    if journalId in s.journals then
      Reply(s, Ok(EntryListing(EntriesOf(s, journalId), s.journals[journalId].title)))
    else Reply(s, Error(GetEntriesFailed))
  }

  /** GET /journal/:journalId/entry/:postId: one entry, searched for among
      that journal's entries only. */
  function GetEntrieById(s: Store, journalId: Id, postId: Id): (r: Reply<EntrieLookup>)
    ensures r.store == s
    ensures r.result.Ok?
    ensures r.result.value.Null? <==> journalId !in s.journals
    ensures r.result.value.Found? ==> postId in s.entries && r.result.value.entry == s.entries[postId]
    ensures r.result.value.Found? ==> r.result.value.entry.journalId == journalId
    ensures journalId in s.journals && postId in s.entries && s.entries[postId].journalId == journalId ==>
      r.result.value.Found?
  {
    if journalId !in s.journals then Reply(s, Ok(Null))
    else
      var entries := EntriesOf(s, journalId);
      Reply(s, Ok(if postId in entries then Found(entries[postId]) else Undefined))
  }

  /** PATCH /journal/:id: merge the body into the journal and stamp `updatedAt`. */
  function UpdateJournal(s: Store, now: Time, journalId: Id, body: Option<JournalPatch>): (r: Reply<Journal>)
    ensures r.result.Ok? <==> journalId in s.journals && body.Some?
    ensures !r.result.Ok? ==> r == Reply(s, Error(UpdateJournalFailed))
    ensures r.result.Ok? ==>
      var prior := s.journals[journalId];
      var data := body.value;
      var m := r.result.value;
      && (data.title.Some? ==> m.title == data.title)
      && (data.title.None? ==> m.title == prior.title)
      && (data.kind.Some? ==> m.kind == data.kind.value)
      && (data.kind.None? ==> m.kind == prior.kind)
      && (data.createdAt.Some? ==> m.createdAt == data.createdAt.value)
      && (data.createdAt.None? ==> m.createdAt == prior.createdAt)
      && m.updatedAt == now
      && (data.userId.Some? ==> m.userId == data.userId.value)
      && (data.userId.None? ==> m.userId == prior.userId)
      && r.store == s.(journals := s.journals[journalId := m])
  {
    if journalId !in s.journals || body.None? then Reply(s, Error(UpdateJournalFailed))
    else
      var journal' := ApplyJournalPatch(s.journals[journalId], StampJournal(body.value, now));
      Reply(s.(journals := s.journals[journalId := journal']), Ok(journal'))
  }

  /** PATCH /entry/:id: merge the body into the entry and stamp `updatedAt`. */
  function UpdateEntry(s: Store, now: Time, entryId: Id, body: Option<EntryPatch>): (r: Reply<Entry>)
    ensures r.result.Ok? <==> entryId in s.entries && body.Some?
    ensures !r.result.Ok? ==> r == Reply(s, Error(UpdateEntryFailed))
    ensures r.result.Ok? ==>
      var prior := s.entries[entryId];
      var data := body.value;
      var m := r.result.value;
      && (data.title.Some? ==> m.title == data.title)
      && (data.title.None? ==> m.title == prior.title)
      && (data.content.Some? ==> m.content == data.content)
      && (data.content.None? ==> m.content == prior.content)
      && (data.createdAt.Some? ==> m.createdAt == data.createdAt.value)
      && (data.createdAt.None? ==> m.createdAt == prior.createdAt)
      && m.updatedAt == now
      && (data.journalId.Some? ==> m.journalId == data.journalId.value)
      && (data.journalId.None? ==> m.journalId == prior.journalId)
      && r.store == s.(entries := s.entries[entryId := m])
  {
    if entryId !in s.entries || body.None? then Reply(s, Error(UpdateEntryFailed))
    else
      var entry' := ApplyEntryPatch(s.entries[entryId], StampEntry(body.value, now));
      Reply(s.(entries := s.entries[entryId := entry']), Ok(entry'))
  }
}
