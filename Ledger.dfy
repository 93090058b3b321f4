/**
 * The engagement ledger both servers keep in `db.users` and persist to `data.json`:
 * a JavaScript object from user id to user record. Its keys are modelled as a map plus
 * the key order in which `Object.entries` and `for...in` visit them.
 */
module Ledger {
  import opened JsValues

  /** One user's record. Every creator sets `likes`; the other counters are written only by
      the handler that owns them, so a record may lack them (a record written by the older
      server has no `points` at all). */
  datatype UserRecord = UserRecord(
    nickname: Option<string>,
    avatar: Option<string>,
    likes: int,
    points: Option<int>,
    giftsSent: Option<int>,
    comments: Option<int>,
    shares: Option<int>)

  /** `u.points || 0` */
  function PointsOf(u: UserRecord): int {
    OrNumber(u.points, 0)
  }

  /** `uniqueId || nickname || 'Anonymous'`, the display name both servers store: never empty. */
  function DisplayName(uniqueId: Option<string>, nickname: Option<string>): (r: string)
    ensures r != ""
    ensures uniqueId.Some? && uniqueId.value != "" ==> r == uniqueId.value
    ensures (uniqueId.None? || uniqueId.value == "") && nickname.Some? && nickname.value != "" ==>
              r == nickname.value
    ensures (uniqueId.None? || uniqueId.value == "") && (nickname.None? || nickname.value == "") ==>
              r == "Anonymous"
  {
    OrString(uniqueId, OrString(nickname, "Anonymous"))
  }

  /** `db = { users: {...} }`, with the order of its keys. */
  datatype Db = Db(users: map<string, UserRecord>, order: seq<string>) {
    /** The keys of a JavaScript object are distinct and the order lists each once. */
    ghost predicate Valid() {
      && (forall i, j :: 0 <= i < j < |order| ==> order[i] != order[j])
      && users.Keys == Elems(order)
    }
  }

  /** The strings a sequence lists. */
  function Elems(s: seq<string>): set<string> {
    set x | x in s
  }

  /** `{ users: {} }` */
  const EmptyDb := Db(map[], [])

  /** One element of `Object.entries(db.users)`, spread as `{ userId, ...u }`. */
  datatype Entry = Entry(userId: string, user: UserRecord)

  function EntriesOf(order: seq<string>, users: map<string, UserRecord>): (r: seq<Entry>)
    requires forall i :: 0 <= i < |order| ==> order[i] in users
    ensures |r| == |order|
    ensures forall i :: 0 <= i < |order| ==> r[i] == Entry(order[i], users[order[i]])
  {
    if order == [] then [] else [Entry(order[0], users[order[0]])] + EntriesOf(order[1..], users)
  }

  /** `Object.entries(db.users).map(([userId, u]) => ({ userId, ...u }))` */
  function Entries(db: Db): (r: seq<Entry>)
    requires db.Valid()
    ensures |r| == |db.order| == |db.users|
    ensures forall i :: 0 <= i < |r| ==> r[i].userId == db.order[i] && r[i].user == db.users[db.order[i]]
  {
    DistinctCard(db);
    EntriesOf(db.order, db.users)
  }

  lemma DistinctCard(db: Db)
    requires db.Valid()
    ensures |db.users| == |db.order|
  {
    var ks := set i | 0 <= i < |db.order| :: db.order[i];
    assert db.users.Keys == ks;
    IndexSetCard(db.order);
  }

  lemma {:induction false} IndexSetCard(s: seq<string>)
    requires forall i, j :: 0 <= i < j < |s| ==> s[i] != s[j]
    ensures |set i | 0 <= i < |s| :: s[i]| == |s|
  {
    if s != [] {
      var last := s[|s| - 1];
      var init := s[..|s| - 1];
      IndexSetCard(init);
      var a := set i | 0 <= i < |init| :: init[i];
      var b := set i | 0 <= i < |s| :: s[i];
      assert b == a + {last};
      assert last !in a;
    }
  }

  /** A handler's effect on the ledger apart from the record at `id`: an unseen `id` becomes
      the newest key, and every other record is left exactly as it was. */
  ghost predicate ChangesOnly(db: Db, r: Db, id: string) {
    && r.users.Keys == db.users.Keys + {id}
    && r.order == (if id in db.users then db.order else db.order + [id])
    && forall k :: k in db.users && k != id ==> r.users[k] == db.users[k]
  }

  /** The record a handler starts from: the stored one, or none yet (all counters read as 0). */
  function Before(db: Db, id: string): UserRecord {
    if id in db.users then db.users[id] else UserRecord(None, None, 0, None, None, None, None)
  }

  /** Replaces (or adds, as the newest key) the record at `id`. */
  function Put(db: Db, id: string, u: UserRecord): Db {
    Db(db.users[id := u], if id in db.users then db.order else db.order + [id])
  }

  /** `Put` keeps the ledger well formed and changes the record at `id` only. */
  lemma PutChangesOnly(db: Db, id: string, u: UserRecord)
    requires db.Valid()
    ensures Put(db, id, u).Valid()
    ensures ChangesOnly(db, Put(db, id, u), id) && Put(db, id, u).users[id] == u
  {
  }

  /** A change confined to `id` is a `Put` of the new record at `id`. */
  lemma ChangesOnlyIsPut(db: Db, r: Db, id: string)
    requires ChangesOnly(db, r, id)
    ensures r == Put(db, id, r.users[id])
  {
    assert r.users == db.users[id := r.users[id]];
  }

  /** Writing a stored record replaces its entry in place, at the key's position. */
  lemma EntriesPutExisting(db: Db, id: string, u: UserRecord, p: nat)
    requires db.Valid() && p < |db.order| && db.order[p] == id
    ensures Put(db, id, u).Valid()
    ensures Entries(Put(db, id, u)) == Entries(db)[p := Entry(id, u)]
  {
    PutChangesOnly(db, id, u);
    var before, after := Entries(db), Entries(Put(db, id, u));
    assert |after| == |before|;
    forall i | 0 <= i < |after| ensures after[i] == before[p := Entry(id, u)][i] {
      if i != p {
        assert db.order[i] != id;
      }
    }
  }

  lemma EntriesOfAppend(order: seq<string>, users: map<string, UserRecord>, id: string, u: UserRecord)
    requires forall i :: 0 <= i < |order| ==> order[i] in users && order[i] != id
    ensures EntriesOf(order + [id], users[id := u]) == EntriesOf(order, users) + [Entry(id, u)]
  {
    var after := EntriesOf(order + [id], users[id := u]);
    var before := EntriesOf(order, users);
    forall i | 0 <= i < |after| ensures after[i] == (before + [Entry(id, u)])[i] {
      if i < |order| {
        assert (order + [id])[i] == order[i];
      }
    }
  }

  /** Writing a new record appends its entry after all others. */
  lemma EntriesPutNew(db: Db, id: string, u: UserRecord)
    requires db.Valid() && id !in db.users
    ensures Put(db, id, u).Valid()
    ensures Entries(Put(db, id, u)) == Entries(db) + [Entry(id, u)]
  {
    PutChangesOnly(db, id, u);
    assert forall i :: 0 <= i < |db.order| ==> db.order[i] in db.users;
    EntriesOfAppend(db.order, db.users, id, u);
  }

  /** What `data.json` holds at startup. */
  datatype Store = Missing | Unparsable | Parsed(db: Db)

  /** `let db = { users: {} }; if (exists) try { db = JSON.parse(...) } catch { db = { users: {} } }`:
      a missing or unparsable file yields the empty ledger, a parsed one yields its contents. */
  function Load(file: Store): (r: Db)
    requires file.Parsed? ==> file.db.Valid()
    ensures r.Valid()
    ensures file.Parsed? ==> r == file.db
    ensures !file.Parsed? ==> r.users == map[] && r.order == []
  {
    match file
    case Parsed(db) => db
    case _ => EmptyDb
  }

  /** `saveDB()`: the file holds the whole ledger afterwards. */
  function Save(db: Db): (r: Store)
    ensures r.Parsed? && r.db == db
  {
    Parsed(db)
  }

  /** Restarting right after a save restores exactly the ledger that was saved. */
  lemma ReloadRestores(db: Db)
    requires db.Valid()
    ensures Load(Save(db)) == db
  {
  }
}
