/** The in-memory store behind the mock journal server: users, the journals
    they own and the entries those journals own. */
module JournalStore {
  import opened Results

  /** A record id. Mirage hands ids out as the decimal strings "1", "2", ...;
      the model keeps the number. */
  type Id = nat

  /** A timestamp as the server formats it. The model never looks inside one. */
  type Time = string

  datatype User = User(username: string, password: string, email: Option<string>)

  /** A journal's attributes. `kind` is the JavaScript attribute `type`;
      `userId` is the foreign key of the owning user. */
  datatype Journal = Journal(
    title: Option<string>,
    kind: string,
    createdAt: Time,
    updatedAt: Time,
    userId: Id)

  /** An entry's attributes; `journalId` is the foreign key of the owning journal. */
  datatype Entry = Entry(
    title: Option<string>,
    content: Option<string>,
    createdAt: Time,
    updatedAt: Time,
    journalId: Id)

  /** The three collections, each keyed by record id (a record's id is its key),
      and the next id each of the journal and entry collections will try. */
  datatype Store = Store(
    users: map<Id, User>,
    journals: map<Id, Journal>,
    entries: map<Id, Entry>,
    nextJournalId: Id,
    nextEntryId: Id)

  /** Referential integrity: every journal's user exists and every entry's journal exists. */
  ghost predicate Valid(s: Store) {
    && (forall j :: j in s.journals ==> s.journals[j].userId in s.users)
    && (forall e :: e in s.entries ==> s.entries[e].journalId in s.journals)
  }

  /** A store holding only the given users; Mirage starts every collection's ids at 1. */
  function Seeded(users: map<Id, User>): (s: Store)
    ensures Valid(s)
    ensures s.users == users && s.journals == map[] && s.entries == map[]
  {
    Store(users, map[], map[], 1, 1)
  }

  /** The id a collection gives its next record: the counter `next`, skipping
      every id already in use. */
  function FreshId(used: set<Id>, next: Id): (id: Id)
    ensures id !in used
    ensures next <= id
    ensures next !in used ==> id == next
    decreases |used|
  {
    if next in used then FreshId(used - {next}, next + 1) else next
  }

  /** The journals a user owns, keyed by id (the ORM's `user.journal`). */
  function JournalsOf(s: Store, userId: Id): (m: map<Id, Journal>) {
    map j | j in s.journals && s.journals[j].userId == userId :: s.journals[j]
  }

  /** The entries a journal owns, keyed by id (the ORM's `journal.entry`). */
  function EntriesOf(s: Store, journalId: Id): (m: map<Id, Entry>) {
    map e | e in s.entries && s.entries[e].journalId == journalId :: s.entries[e]
  }
}
