/**
 * The current server (`server.mjs`): the score ledger changed by the `like`, `gift`, `chat`
 * and `share` handlers, the like-log throttle, the `/api/stats` projection and the startup
 * load. Each handler is a method of `Server` that updates the ledger in place, proved against
 * a function (`AfterLike`, ...) that states the new ledger; the lemmas relate those functions.
 */
module ServerMjs {
  import opened JsValues
  import opened JsText
  import opened Ledger
  import opened Ranking
  import opened LikeLog

  /** The fields of a live event's user that the handlers read. `pictureUrls` is
      `profilePicture.urls`, absent when there is no `profilePicture` or `urls` is not an array. */
  datatype UserInfo = UserInfo(
    userId: Option<string>,
    uniqueId: Option<string>,
    nickname: Option<string>,
    pictureUrls: Option<seq<string>>)

  /** A live event: its `user` object if it has one, the same fields read from the event
      itself otherwise, and the like and gift multipliers. */
  datatype LiveEvent = LiveEvent(
    user: Option<UserInfo>,
    own: UserInfo,
    likeCount: Option<int>,
    repeatCount: Option<int>)

  /** `event.user || event` */
  function Sender(e: LiveEvent): (r: UserInfo)
    ensures e.user.Some? ==> r == e.user.value
    ensures e.user.None? ==> r == e.own
  {
    if e.user.Some? then e.user.value else e.own
  }

  /** `userObj.userId || 'undefined'` */
  function UserKey(u: UserInfo): (r: string)
    ensures r != ""
    ensures u.userId.Some? && u.userId.value != "" ==> r == u.userId.value
    ensures u.userId.None? || u.userId.value == "" ==> r == "undefined"
  {
    OrString(u.userId, "undefined")
  }

  function Nickname(u: UserInfo): string {
    DisplayName(u.uniqueId, u.nickname)
  }

  /** `profilePicture && Array.isArray(urls) ? urls[0] : ""`: an empty `urls` gives `undefined`. */
  function Avatar(u: UserInfo): (r: Option<string>)
    ensures u.pictureUrls.None? ==> r == Some("")
    ensures u.pictureUrls.Some? && u.pictureUrls.value != [] ==> r == Some(u.pictureUrls.value[0])
    ensures u.pictureUrls == Some([]) ==> r.None?
  {
    match u.pictureUrls
    case None => Some("")
    case Some(urls) => if urls == [] then None else Some(urls[0])
  }

  /** `event.likeCount || 1` */
  function LikeCount(e: LiveEvent): (r: int)
    ensures r != 0
    ensures e.likeCount.Some? && e.likeCount.value != 0 ==> r == e.likeCount.value
    ensures e.likeCount.None? || e.likeCount.value == 0 ==> r == 1
  {
    OrNumber(e.likeCount, 1)
  }

  /** `event.repeatCount || 1` */
  function RepeatCount(e: LiveEvent): (r: int)
    ensures r != 0
    ensures e.repeatCount.Some? && e.repeatCount.value != 0 ==> r == e.repeatCount.value
    ensures e.repeatCount.None? || e.repeatCount.value == 0 ==> r == 1
  {
    OrNumber(e.repeatCount, 1)
  }

  /** The id whose record an event changes. */
  function Target(e: LiveEvent): string {
    UserKey(Sender(e))
  }

  // ---------------------------------------------------------------------------------------
  // The four handlers, as functions of the ledger

  /** `like`: likes and points both rise by the like count (1 when absent or 0), name and
      avatar are overwritten, and no other record changes. */
  function AfterLike(db: Db, e: LiveEvent): (r: Db)
    requires db.Valid()
    ensures r.Valid() && ChangesOnly(db, r, Target(e))
    ensures var u, b := r.users[Target(e)], Before(db, Target(e));
      && u.likes == b.likes + LikeCount(e)
      && u.points == Some(PointsOf(b) + LikeCount(e))
      && u.nickname == Some(Nickname(Sender(e))) && u.avatar == Avatar(Sender(e))
      && u.giftsSent == b.giftsSent && u.comments == b.comments && u.shares == b.shares
  {
    var who := Sender(e);
    var id := UserKey(who);
    var base :=
      if id in db.users then db.users[id].(nickname := Some(Nickname(who)), avatar := Avatar(who))
      else UserRecord(Some(Nickname(who)), Avatar(who), 0, Some(0), None, None, None);
    var count := LikeCount(e);
    PutChangesOnly(db, id, base.(likes := base.likes + count, points := Some(PointsOf(base) + count)));
    Put(db, id, base.(likes := base.likes + count, points := Some(PointsOf(base) + count)))
  }

  /** `gift`: points rise by 1000 per repeat and `giftsSent` by the repeat count (1 when
      absent or 0), name and avatar are overwritten, and no other record changes. */
  function AfterGift(db: Db, e: LiveEvent): (r: Db)
    requires db.Valid()
    ensures r.Valid() && ChangesOnly(db, r, Target(e))
    ensures var u, b := r.users[Target(e)], Before(db, Target(e));
      && u.points == Some(PointsOf(b) + 1000 * RepeatCount(e))
      && u.giftsSent == Some(OrNumber(b.giftsSent, 0) + RepeatCount(e))
      && u.nickname == Some(Nickname(Sender(e))) && u.avatar == Avatar(Sender(e))
      && u.likes == b.likes && u.comments == b.comments && u.shares == b.shares
  {
    var who := Sender(e);
    var id := UserKey(who);
    var base :=
      if id in db.users then db.users[id].(nickname := Some(Nickname(who)), avatar := Avatar(who))
      else UserRecord(Some(Nickname(who)), Avatar(who), 0, Some(0), Some(0), None, None);
    var repeat := RepeatCount(e);
    PutChangesOnly(db, id, base.(points := Some(PointsOf(base) + 1000 * repeat),
                                 giftsSent := Some(OrNumber(base.giftsSent, 0) + repeat)));
    Put(db, id, base.(points := Some(PointsOf(base) + 1000 * repeat),
                      giftsSent := Some(OrNumber(base.giftsSent, 0) + repeat)))
  }

  /** `chat`: exactly 100 points and one comment, whatever the payload; a stored user keeps
      name and avatar, a new one gets the event's name and an empty avatar. */
  function AfterChat(db: Db, e: LiveEvent): (r: Db)
    requires db.Valid()
    ensures r.Valid() && ChangesOnly(db, r, Target(e))
    ensures var u, b := r.users[Target(e)], Before(db, Target(e));
      && u.points == Some(PointsOf(b) + 100)
      && u.comments == Some(OrNumber(b.comments, 0) + 1)
      && u.likes == b.likes && u.giftsSent == b.giftsSent && u.shares == b.shares
      && (Target(e) in db.users ==> u.nickname == b.nickname && u.avatar == b.avatar)
      && (Target(e) !in db.users ==> u.nickname == Some(Nickname(Sender(e))) && u.avatar == Some(""))
  {
    var who := Sender(e);
    var id := UserKey(who);
    var base :=
      if id in db.users then db.users[id]
      else UserRecord(Some(Nickname(who)), Some(""), 0, Some(0), None, Some(0), None);
    PutChangesOnly(db, id, base.(comments := Some(OrNumber(base.comments, 0) + 1),
                                 points := Some(PointsOf(base) + 100)));
    Put(db, id, base.(comments := Some(OrNumber(base.comments, 0) + 1),
                      points := Some(PointsOf(base) + 100)))
  }

  /** `share`: exactly 300 points and one share, whatever the payload; a stored user keeps
      name and avatar, a new one gets the event's name and an empty avatar. */
  function AfterShare(db: Db, e: LiveEvent): (r: Db)
    requires db.Valid()
    ensures r.Valid() && ChangesOnly(db, r, Target(e))
    ensures var u, b := r.users[Target(e)], Before(db, Target(e));
      && u.points == Some(PointsOf(b) + 300)
      && u.shares == Some(OrNumber(b.shares, 0) + 1)
      && u.likes == b.likes && u.giftsSent == b.giftsSent && u.comments == b.comments
      && (Target(e) in db.users ==> u.nickname == b.nickname && u.avatar == b.avatar)
      && (Target(e) !in db.users ==> u.nickname == Some(Nickname(Sender(e))) && u.avatar == Some(""))
  {
    var who := Sender(e);
    var id := UserKey(who);
    var base :=
      if id in db.users then db.users[id]
      else UserRecord(Some(Nickname(who)), Some(""), 0, Some(0), None, None, Some(0));
    PutChangesOnly(db, id, base.(shares := Some(OrNumber(base.shares, 0) + 1),
                                 points := Some(PointsOf(base) + 300)));
    Put(db, id, base.(shares := Some(OrNumber(base.shares, 0) + 1),
                      points := Some(PointsOf(base) + 300)))
  }

  // ---------------------------------------------------------------------------------------
  // The server object: the ledger, the throttle state and the data file, changed in place

  class Server {
    var users: map<string, UserRecord>
    var order: seq<string>
    var likeLogState: map<string, LogState>
    var dataFile: Store

    /** `db` as it stands. */
    function Current(): Db
      reads this
    {
      Db(users, order)
    }

    ghost predicate Valid()
      reads this
    {
      Current().Valid()
    }

    /** Startup: the ledger is what `data.json` yields, the throttle tracks nobody. */
    constructor (file: Store)
      requires file.Parsed? ==> file.db.Valid()
      ensures Valid() && Current() == Load(file)
      ensures likeLogState == map[] && dataFile == file
    {
      var db := Load(file);
      users, order := db.users, db.order;
      likeLogState := map[];
      dataFile := file;
    }

    /** `saveDB()` */
    method SaveDb()
      modifies this`dataFile
      ensures dataFile == Save(Current())
    {
      dataFile := Save(Current());
    }

    /** The `like` handler. Returns whether the throttle printed a progress line. */
    method OnLike(e: LiveEvent, now: int) returns (logged: bool)
      requires Valid()
      modifies this
      ensures Valid() && Current() == AfterLike(old(Current()), e)
      ensures dataFile == Save(Current())
      ensures (logged, likeLogState) ==
              Observe(old(likeLogState), Target(e), users[Target(e)].likes, now)
    {
      ghost var db := Current();
      var who := Sender(e);
      var userId := UserKey(who);
      var nickname := Nickname(who);
      var avatar := Avatar(who);
      var count := LikeCount(e);
      var user: UserRecord;
      if userId !in users {
        user := UserRecord(Some(nickname), avatar, 0, Some(0), None, None, None);
        order := order + [userId];
      } else {
        user := users[userId];
        user := user.(nickname := Some(nickname));
        user := user.(avatar := avatar);
      }
      user := user.(likes := user.likes + count);
      user := user.(points := Some(PointsOf(user) + count));
      users := users[userId := user];
      assert Current() == Put(db, userId, user) == AfterLike(db, e);
      PutChangesOnly(db, userId, user);
      SaveDb();
      logged := LogLike(userId, user.likes, now);
    }

    /** The like-log block of the `like` handler, for a user whose total is now `likes`. */
    method LogLike(userId: string, likes: int, now: int) returns (logged: bool)
      modifies this`likeLogState
      ensures (logged, likeLogState) == Observe(old(likeLogState), userId, likes, now)
    {
      var state: LogState;
      if userId in likeLogState {
        state := likeLogState[userId];
      } else {
        state := LogState(likes, now);
        likeLogState := likeLogState[userId := state];
      }
      var likesSince := likes - state.lastLikes;
      var timeSince := now - state.lastLog;
      logged := likesSince >= LikeStep || timeSince > QuietMillis;
      if logged {
        likeLogState := likeLogState[userId := LogState(likes, now)];
      }
      assert likeLogState == old(likeLogState)[userId := likeLogState[userId]];
    }

    /** The `gift` handler. */
    method OnGift(e: LiveEvent)
      requires Valid()
      modifies this
      ensures Valid() && Current() == AfterGift(old(Current()), e)
      ensures dataFile == Save(Current()) && likeLogState == old(likeLogState)
    {
      ghost var db := Current();
      var who := Sender(e);
      var userId := UserKey(who);
      var nickname := Nickname(who);
      var avatar := Avatar(who);
      var repeatCount := RepeatCount(e);
      var user: UserRecord;
      if userId !in users {
        user := UserRecord(Some(nickname), avatar, 0, Some(0), Some(0), None, None);
        order := order + [userId];
      } else {
        user := users[userId];
        user := user.(nickname := Some(nickname));
        user := user.(avatar := avatar);
      }
      user := user.(points := Some(PointsOf(user) + 1000 * repeatCount));
      user := user.(giftsSent := Some(OrNumber(user.giftsSent, 0) + repeatCount));
      users := users[userId := user];
      assert Current() == Put(db, userId, user) == AfterGift(db, e);
      PutChangesOnly(db, userId, user);
      SaveDb();
    }

    /** The `chat` handler. */
    method OnChat(e: LiveEvent)
      requires Valid()
      modifies this
      ensures Valid() && Current() == AfterChat(old(Current()), e)
      ensures dataFile == Save(Current()) && likeLogState == old(likeLogState)
    {
      ghost var db := Current();
      var who := Sender(e);
      var userId := UserKey(who);
      var nickname := Nickname(who);
      var user: UserRecord;
      if userId !in users {
        user := UserRecord(Some(nickname), Some(""), 0, Some(0), None, Some(0), None);
        order := order + [userId];
      } else {
        user := users[userId];
      }
      user := user.(comments := Some(OrNumber(user.comments, 0) + 1));
      user := user.(points := Some(PointsOf(user) + 100));
      users := users[userId := user];
      assert Current() == Put(db, userId, user) == AfterChat(db, e);
      PutChangesOnly(db, userId, user);
      SaveDb();
    }

    /** The `share` handler. */
    method OnShare(e: LiveEvent)
      requires Valid()
      modifies this
      ensures Valid() && Current() == AfterShare(old(Current()), e)
      ensures dataFile == Save(Current()) && likeLogState == old(likeLogState)
    {
      ghost var db := Current();
      var who := Sender(e);
      var userId := UserKey(who);
      var nickname := Nickname(who);
      var user: UserRecord;
      if userId !in users {
        user := UserRecord(Some(nickname), Some(""), 0, Some(0), None, None, Some(0));
        order := order + [userId];
      } else {
        user := users[userId];
      }
      user := user.(shares := Some(OrNumber(user.shares, 0) + 1));
      user := user.(points := Some(PointsOf(user) + 300));
      users := users[userId := user];
      assert Current() == Put(db, userId, user) == AfterShare(db, e);
      PutChangesOnly(db, userId, user);
      SaveDb();
    }
  }

  // ---------------------------------------------------------------------------------------
  // `/api/stats`

  /** The response of `/api/stats`. */
  datatype Stats = Stats(pointsMined: int, totalMiners: nat, leaderboard: seq<Entry>)

  /** The filter of `/api/stats`: positive points and a nickname that is a non-blank string. */
  predicate Listed(e: Entry)
    ensures Listed(e) <==>
      && PointsOf(e.user) > 0 && e.user.nickname.Some?
      && exists i :: 0 <= i < |e.user.nickname.value| && !IsJsSpace(e.user.nickname.value[i])
  {
    PointsOf(e.user) > 0 && e.user.nickname.Some? && Trim(e.user.nickname.value) != ""
  }

  /** `r` is `xs` with some entries left out and the rest in their order in `xs`. */
  predicate SubsequenceOf(r: seq<Entry>, xs: seq<Entry>) {
    if r == [] then true
    else if xs == [] then false
    else if r[0] == xs[0] then SubsequenceOf(r[1..], xs[1..])
    else SubsequenceOf(r, xs[1..])
  }

  /** `entries.filter(Listed)`: keeps exactly the listed entries, in ledger order. */
  function Miners(xs: seq<Entry>): (r: seq<Entry>)
    ensures forall e :: e in r <==> e in xs && Listed(e)
    ensures SubsequenceOf(r, xs)
    ensures |r| <= |xs|
  {
    if xs == [] then []
    else if Listed(xs[0]) then
      var r := [xs[0]] + Miners(xs[1..]);
      assert r[1..] == Miners(xs[1..]);
      r
    else
      var r := Miners(xs[1..]);
      assert r != [] ==> r[0] in r && r[0] != xs[0];
      r
  }

  /** The listed users of the ledger, in ledger order. */
  function MinersOf(db: Db): seq<Entry>
    requires db.Valid()
  {
    Miners(Entries(db))
  }

  /** `/api/stats`: the leaderboard is the first five listed users by non-increasing points,
      `pointsMined` sums the points of ALL listed users and `totalMiners` counts them. */
  function GetStats(db: Db): (r: Stats)
    requires db.Valid()
    ensures r.totalMiners == |MinersOf(db)|
    ensures r.pointsMined == Total(ByPoints, MinersOf(db))
    ensures |r.leaderboard| == Min(5, |MinersOf(db)|)
    ensures r.leaderboard == Rank(ByPoints, MinersOf(db))[..|r.leaderboard|]
    ensures SortedDesc(ByPoints, r.leaderboard)
    ensures forall e :: e in r.leaderboard ==> e in MinersOf(db) && Listed(e)
  {
    var users := Rank(ByPoints, MinersOf(db));
    var leaderboard := Top(users, 5);
    RankKeepsTotal(ByPoints, MinersOf(db));
    TopOfSorted(ByPoints, users, 5);
    Stats(Total(ByPoints, users), |users|, leaderboard)
  }

  /** A listed user missing from the leaderboard has no more points than anyone on it. */
  lemma LeaderboardIsTopFive(db: Db, x: Entry)
    requires db.Valid() && x in MinersOf(db) && x !in GetStats(db).leaderboard
    ensures forall y :: y in GetStats(db).leaderboard ==> PointsOf(y.user) >= PointsOf(x.user)
  {
    var users := Rank(ByPoints, MinersOf(db));
    assert x in multiset(users);
    TopDominates(ByPoints, users, 5, x);
  }

  /** Users with equal points appear on the leaderboard in ledger order: for every score, the
      leaderboard holds the first few listed users with that score. */
  lemma LeaderboardTiesInLedgerOrder(db: Db, v: int)
    requires db.Valid()
    ensures var t := Ties(ByPoints, GetStats(db).leaderboard, v);
            |t| <= |Ties(ByPoints, MinersOf(db), v)| && t == Ties(ByPoints, MinersOf(db), v)[..|t|]
  {
    var users := Rank(ByPoints, MinersOf(db));
    TopTiesArePrefix(ByPoints, users, 5, v);
    RankIsStable(ByPoints, MinersOf(db), v);
  }

  /** A restart right after a save serves the same stats. */
  lemma RestartKeepsStats(db: Db)
    requires db.Valid()
    ensures GetStats(Load(Save(db))) == GetStats(db)
  {
    ReloadRestores(db);
  }

  // ---------------------------------------------------------------------------------------
  // Streams of events

  datatype Kind = Like | Gift | Chat | Share

  /** One event as the connector delivers it to the handler of its kind. */
  datatype Incoming = Incoming(kind: Kind, event: LiveEvent)

  function Apply(db: Db, ev: Incoming): (r: Db)
    requires db.Valid()
    ensures r.Valid()
  {
    match ev.kind
    case Like => AfterLike(db, ev.event)
    case Gift => AfterGift(db, ev.event)
    case Chat => AfterChat(db, ev.event)
    case Share => AfterShare(db, ev.event)
  }

  /** The ledger after the handlers have run on `evs`, in order. */
  function Replay(db: Db, evs: seq<Incoming>): (r: Db)
    requires db.Valid()
    ensures r.Valid()
    decreases evs
  {
    if evs == [] then db else Replay(Apply(db, evs[0]), evs[1..])
  }

  /** The points an event is worth: its like count, 1000 per gift repeat, 100 per comment and
      300 per share. */
  function Weight(ev: Incoming): int {
    match ev.kind
    case Like => LikeCount(ev.event)
    case Gift => 1000 * RepeatCount(ev.event)
    case Chat => 100
    case Share => 300
  }

  function TotalWeight(evs: seq<Incoming>): int {
    if evs == [] then 0 else Weight(evs[0]) + TotalWeight(evs[1..])
  }

  /** The sum of `points || 0` over every user of the ledger (listed or not). */
  function TotalPoints(db: Db): int
    requires db.Valid()
  {
    Total(ByPoints, Entries(db))
  }

  /** Every handler adds exactly its event's weight to the ledger's points. */
  lemma ApplyAddsWeight(db: Db, ev: Incoming)
    requires db.Valid()
    ensures TotalPoints(Apply(db, ev)) == TotalPoints(db) + Weight(ev)
  {
    var id := Target(ev.event);
    var r := Apply(db, ev);
    assert ChangesOnly(db, r, id);
    assert PointsOf(r.users[id]) == PointsOf(Before(db, id)) + Weight(ev);
    ChangesOnlyIsPut(db, r, id);
    PutTotal(ByPoints, db, id, r.users[id]);
  }

  /** The ledger's points are its starting points plus the weights of all events applied:
      points are never lost, and an event delivered twice counts twice. */
  lemma {:induction false} ReplayAddsWeights(db: Db, evs: seq<Incoming>)
    requires db.Valid()
    ensures TotalPoints(Replay(db, evs)) == TotalPoints(db) + TotalWeight(evs)
    decreases evs
  {
    if evs != [] {
      ApplyAddsWeight(db, evs[0]);
      ReplayAddsWeights(Apply(db, evs[0]), evs[1..]);
    }
  }

  /** The handlers do not deduplicate: the same event delivered twice adds its weight twice. */
  lemma DuplicateCountsTwice(db: Db, ev: Incoming)
    requires db.Valid()
    ensures TotalPoints(Replay(db, [ev, ev])) == TotalPoints(db) + 2 * Weight(ev)
  {
    var once := Apply(db, ev);
    ApplyAddsWeight(db, ev);
    ApplyAddsWeight(once, ev);
    assert [ev, ev][1..] == [ev] && [ev][1..] == [];
    assert Replay(db, [ev, ev]) == Replay(once, [ev]) == Apply(once, ev);
    assert TotalWeight([ev, ev]) == Weight(ev) + TotalWeight([ev]) == 2 * Weight(ev);
  }

  /** The like and gift multipliers are not clamped: only these two can be negative. */
  predicate NonNegative(ev: Incoming) {
    match ev.kind
    case Like => LikeCount(ev.event) >= 0
    case Gift => RepeatCount(ev.event) >= 0
    case _ => true
  }

  /** No counter of `a` exceeds the same counter of `b`, counters read as the handlers read them. */
  ghost predicate NoLess(a: UserRecord, b: UserRecord) {
    && a.likes <= b.likes
    && PointsOf(a) <= PointsOf(b)
    && OrNumber(a.giftsSent, 0) <= OrNumber(b.giftsSent, 0)
    && OrNumber(a.comments, 0) <= OrNumber(b.comments, 0)
    && OrNumber(a.shares, 0) <= OrNumber(b.shares, 0)
  }

  /** `r` keeps every user of `db`, with no counter lower. */
  ghost predicate Grows(db: Db, r: Db) {
    && db.users.Keys <= r.users.Keys
    && forall k :: k in db.users ==> NoLess(db.users[k], r.users[k])
  }

  /** With non-negative multipliers no handler lowers any counter of any user. */
  lemma ApplyGrows(db: Db, ev: Incoming)
    requires db.Valid() && NonNegative(ev)
    ensures Grows(db, Apply(db, ev))
  {
    match ev.kind
    case Like =>
    case Gift =>
    case Chat =>
    case Share =>
  }

  /** Counters and points never decrease over a stream of events with non-negative
      multipliers. */
  lemma {:induction false} ReplayGrows(db: Db, evs: seq<Incoming>)
    requires db.Valid()
    requires forall i :: 0 <= i < |evs| ==> NonNegative(evs[i])
    ensures Grows(db, Replay(db, evs))
    decreases evs
  {
    if evs != [] {
      var next := Apply(db, evs[0]);
      ApplyGrows(db, evs[0]);
      ReplayGrows(next, evs[1..]);
    }
  }

  /** A negative `likeCount` is passed through: it lowers the user's likes and points. */
  lemma NegativeLikeLowers(db: Db, e: LiveEvent)
    requires db.Valid() && e.likeCount.Some? && e.likeCount.value < 0
    ensures AfterLike(db, e).users[Target(e)].likes < Before(db, Target(e)).likes
    ensures PointsOf(AfterLike(db, e).users[Target(e)]) < PointsOf(Before(db, Target(e)))
  {
  }
}
