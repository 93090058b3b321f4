/**
 * The older server (`server.js`): a ledger of likes only, changed by the `like` handler, and
 * an unfiltered `/api/stats` projection ordered by likes. The handler is a method of `Server`
 * proved against the function `AfterLike`; the lemmas relate that function to the stats.
 */
module ServerJs {
  import opened JsValues
  import opened Ledger
  import opened Ranking

  /** The fields of a `like` event that the handler reads, straight from the event. */
  datatype LikeData = LikeData(
    userId: Option<string>,
    uniqueId: Option<string>,
    nickname: Option<string>,
    profilePictureUrl: Option<string>,
    likeCount: Option<int>)

  /** `db.users[data.userId]`: an absent id is the property key `"undefined"`; an empty id is
      kept as the key `""` (this version has no `|| 'undefined'`). */
  function UserKey(d: LikeData): (r: string)
    ensures d.userId.Some? ==> r == d.userId.value
    ensures d.userId.None? ==> r == "undefined"
  {
    match d.userId
    case Some(id) => id
    case None => "undefined"
  }

  /** `data.profilePictureUrl || ''` */
  function Avatar(d: LikeData): (r: string)
    ensures d.profilePictureUrl.Some? && d.profilePictureUrl.value != "" ==> r == d.profilePictureUrl.value
    ensures d.profilePictureUrl.None? || d.profilePictureUrl.value == "" ==> r == ""
  {
    OrString(d.profilePictureUrl, "")
  }

  /** `data.likeCount || 1` */
  function LikeCount(d: LikeData): (r: int)
    ensures r != 0
    ensures d.likeCount.Some? && d.likeCount.value != 0 ==> r == d.likeCount.value
    ensures d.likeCount.None? || d.likeCount.value == 0 ==> r == 1
  {
    OrNumber(d.likeCount, 1)
  }

  /** `like`: likes rise by the like count (1 when absent or 0), name and avatar are
      overwritten (set on a new record), nothing else of the record and no other record
      changes. */
  function AfterLike(db: Db, d: LikeData): (r: Db)
    requires db.Valid()
    ensures r.Valid() && ChangesOnly(db, r, UserKey(d))
    ensures var u, b := r.users[UserKey(d)], Before(db, UserKey(d));
      && u.likes == b.likes + LikeCount(d)
      && u.nickname == Some(DisplayName(d.uniqueId, d.nickname)) && u.avatar == Some(Avatar(d))
      && u.points == b.points && u.giftsSent == b.giftsSent
      && u.comments == b.comments && u.shares == b.shares
  {
    var id := UserKey(d);
    var base :=
      if id in db.users then db.users[id].(nickname := Some(DisplayName(d.uniqueId, d.nickname)),
                                           avatar := Some(Avatar(d)))
      else UserRecord(Some(DisplayName(d.uniqueId, d.nickname)), Some(Avatar(d)), 0,
                      None, None, None, None);
    PutChangesOnly(db, id, base.(likes := base.likes + LikeCount(d)));
    Put(db, id, base.(likes := base.likes + LikeCount(d)))
  }

  class Server {
    var users: map<string, UserRecord>
    var order: seq<string>
    var dataFile: Store

    /** `db` as it stands. */
    function Current(): Db
      reads this
    {
      Db(users, order)
    }

    ghost predicate Valid()
      reads this
    {
      Current().Valid()
    }

    /** Startup: the ledger is what `data.json` yields. */
    constructor (file: Store)
      requires file.Parsed? ==> file.db.Valid()
      ensures Valid() && Current() == Load(file) && dataFile == file
    {
      var db := Load(file);
      users, order := db.users, db.order;
      dataFile := file;
    }

    /** `saveDB()` */
    method SaveDb()
      modifies this`dataFile
      ensures dataFile == Save(Current())
    {
      dataFile := Save(Current());
    }

    /** The `like` handler. */
    method OnLike(d: LikeData)
      requires Valid()
      modifies this
      ensures Valid() && Current() == AfterLike(old(Current()), d)
      ensures dataFile == Save(Current())
    {
      ghost var db := Current();
      var userId := UserKey(d);
      var nickname := DisplayName(d.uniqueId, d.nickname);
      var avatar := Avatar(d);
      var count := LikeCount(d);
      var user: UserRecord;
      if userId !in users {
        user := UserRecord(Some(nickname), Some(avatar), 0, None, None, None, None);
        order := order + [userId];
      } else {
        user := users[userId];
        user := user.(nickname := Some(nickname));
        user := user.(avatar := Some(avatar));
      }
      user := user.(likes := user.likes + count);
      users := users[userId := user];
      assert Current() == Put(db, userId, user) == AfterLike(db, d);
      PutChangesOnly(db, userId, user);
      SaveDb();
    }
  }

  // ---------------------------------------------------------------------------------------
  // `/api/stats`

  datatype Stats = Stats(totalLikes: int, totalMiners: nat, leaderboard: seq<Entry>)

  /** `/api/stats`: every user counts; the leaderboard is the first five by non-increasing
      likes, `totalLikes` sums the likes of ALL users and `totalMiners` counts them. */
  function GetStats(db: Db): (r: Stats)
    requires db.Valid()
    ensures r.totalMiners == |db.users|
    ensures r.totalLikes == Total(ByLikes, Entries(db))
    ensures |r.leaderboard| == Min(5, |db.users|)
    ensures r.leaderboard == Rank(ByLikes, Entries(db))[..|r.leaderboard|]
    ensures SortedDesc(ByLikes, r.leaderboard)
    ensures forall e :: e in r.leaderboard ==> e.userId in db.users && db.users[e.userId] == e.user
  {
    var users := Rank(ByLikes, Entries(db));
    var leaderboard := Top(users, 5);
    RankKeepsTotal(ByLikes, Entries(db));
    TopOfSorted(ByLikes, users, 5);
    EntriesAreStored(db);
    Stats(Total(ByLikes, users), |users|, leaderboard)
  }

  /** Every entry of the ledger is a stored user with its record. */
  lemma EntriesAreStored(db: Db)
    requires db.Valid()
    ensures forall e :: e in multiset(Entries(db)) ==> e.userId in db.users && db.users[e.userId] == e.user
  {
    forall e | e in multiset(Entries(db)) ensures e.userId in db.users && db.users[e.userId] == e.user {
      var i :| 0 <= i < |Entries(db)| && Entries(db)[i] == e;
    }
  }

  /** A user missing from the leaderboard has no more likes than anyone on it. */
  lemma LeaderboardIsTopFive(db: Db, x: Entry)
    requires db.Valid() && x in Entries(db) && x !in GetStats(db).leaderboard
    ensures forall y :: y in GetStats(db).leaderboard ==> y.user.likes >= x.user.likes
  {
    var users := Rank(ByLikes, Entries(db));
    assert x in multiset(users);
    TopDominates(ByLikes, users, 5, x);
  }

  /** Users with equal likes appear on the leaderboard in ledger order. */
  lemma LeaderboardTiesInLedgerOrder(db: Db, v: int)
    requires db.Valid()
    ensures var t := Ties(ByLikes, GetStats(db).leaderboard, v);
            |t| <= |Ties(ByLikes, Entries(db), v)| && t == Ties(ByLikes, Entries(db), v)[..|t|]
  {
    var users := Rank(ByLikes, Entries(db));
    TopTiesArePrefix(ByLikes, users, 5, v);
    RankIsStable(ByLikes, Entries(db), v);
  }

  /** A like event raises `totalLikes` by exactly its like count, and `totalMiners` by one
      exactly when its sender is new. */
  lemma LikeRaisesTotals(db: Db, d: LikeData)
    requires db.Valid()
    ensures GetStats(AfterLike(db, d)).totalLikes == GetStats(db).totalLikes + LikeCount(d)
    ensures GetStats(AfterLike(db, d)).totalMiners ==
            GetStats(db).totalMiners + (if UserKey(d) in db.users then 0 else 1)
  {
    var id := UserKey(d);
    var r := AfterLike(db, d);
    ChangesOnlyIsPut(db, r, id);
    PutTotal(ByLikes, db, id, r.users[id]);
    if id !in db.users {
      assert |r.users| == |r.order| == |db.order| + 1;
    }
  }

  /** A restart right after a save serves the same stats. */
  lemma RestartKeepsStats(db: Db)
    requires db.Valid()
    ensures GetStats(Load(Save(db))) == GetStats(db)
  {
    ReloadRestores(db);
  }
}
