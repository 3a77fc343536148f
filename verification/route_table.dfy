/** The journal routes as one request-to-reply step, and a run of requests
    against one store. */
module RouteTable {
  import opened Results
  import opened JournalStore
  import opened JournalRoutes

  /** One request to a journal route, with its path parameters and parsed body. */
  datatype Request =
    | PostJournal(createBody: Option<CreateBody>)                       // POST /journal
    | PostEntry(journalId: Id, entryBody: Option<EntryBody>)            // POST /journal/:id/entry
    | GetUserJournals(userId: Id)                                       // GET /journal/user/:id
    | GetJournal(journalId: Id)                                         // GET /journal/:id
    | GetJournalEntries(journalId: Id)                                  // GET /journal/:id/entries
    | GetEntry(journalId: Id, postId: Id)                               // GET /journal/:journalId/entry/:postId
    | PatchJournal(journalId: Id, journalPatch: Option<JournalPatch>)   // PATCH /journal/:id
    | PatchEntry(entryId: Id, entryPatch: Option<EntryPatch>)           // PATCH /entry/:id

  /** The success payload of whichever handler served the request. */
  datatype Response =
    | JournalCreated(created: Created)
    | EntrySaved(added: EntryAdded)
    | UserJournals(journals: map<Id, Journal>)
    | JournalData(journal: Option<Journal>)
    | JournalEntries(listing: EntryListing)
    | EntrieData(lookup: EntrieLookup)
    | JournalUpdated(updatedJournal: Journal)
    | EntryUpdated(updatedEntry: Entry)

  /** A request together with the clock reading taken while serving it. */
  datatype Call = Call(now: Time, request: Request)

  /** A handler's reply with its payload wrapped as a `Response`. */
  function Lift<T>(r: Reply<T>, wrap: T -> Response): Reply<Response>
  {
    match r.result
    case Ok(v) => Reply(r.store, Ok(wrap(v)))
    case Error(m) => Reply(r.store, Error(m))
  }

  /** Route a request to its handler. */
  function Handle(s: Store, now: Time, req: Request): (r: Reply<Response>)
    ensures r.result.Error? ==> r.store == s
    ensures req.GetUserJournals? || req.GetJournal? || req.GetJournalEntries? || req.GetEntry? ==> r.store == s
  {
    match req
    case PostJournal(b) => Lift(Create(s, now, b), c => JournalCreated(c))
    case PostEntry(j, b) => Lift(AddEntry(s, now, j, b), a => EntrySaved(a))
    case GetUserJournals(u) => Lift(GetJournals(s, u), m => UserJournals(m))
    case GetJournal(j) => Lift(GetJournalDataByJournalId(s, j), o => JournalData(o))
    case GetJournalEntries(j) => Lift(GetEntries(s, j), l => JournalEntries(l))
    case GetEntry(j, p) => Lift(GetEntrieById(s, j, p), e => EntrieData(e))
    case PatchJournal(j, b) => Lift(UpdateJournal(s, now, j, b), m => JournalUpdated(m))
    case PatchEntry(e, b) => Lift(UpdateEntry(s, now, e, b), m => EntryUpdated(m))
  }

  /** The request names no owner the store lacks: a PATCH body that moves an
      existing journal or entry to another owner names one that exists. */
  predicate NamesKnownOwner(s: Store, req: Request) {
    match req
    case PatchJournal(j, Some(p)) => j in s.journals && p.userId.Some? ==> p.userId.value in s.users
    case PatchEntry(e, Some(p)) => e in s.entries && p.journalId.Some? ==> p.journalId.value in s.journals
    case _ => true
  }

  /** Every request of `calls`, served in order from `s`, names known owners. */
  predicate NamesKnownOwners(s: Store, calls: seq<Call>)
    decreases |calls|
  {
    |calls| == 0 ||
    (NamesKnownOwner(s, calls[0].request) &&
     NamesKnownOwners(Handle(s, calls[0].now, calls[0].request).store, calls[1..]))
  }

  /** The store after serving `calls` in order. */
  function Run(s: Store, calls: seq<Call>): (s': Store)
    decreases |calls|
  {
    if |calls| == 0 then s
    else Run(Handle(s, calls[0].now, calls[0].request).store, calls[1..])
  }
}
