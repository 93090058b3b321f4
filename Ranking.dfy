/**
 * The leaderboard pipeline shared by both servers' `/api/stats`: `users.sort((a, b) =>
 * b.key - a.key)`, `slice(0, 5)` and the `reduce` that sums the key. `Array.prototype.sort`
 * is stable (required by ECMA-262 since its 2019 edition), so the sort is modelled as a
 * stable insertion sort, and `SortIsRank` shows that any stable sort gives the same answer.
 */
module Ranking {
  import opened JsValues
  import opened Ledger

  /** The field a leaderboard is ordered by: `points` in the current server, `likes` in the older one. */
  datatype SortKey = ByPoints | ByLikes

  function Key(k: SortKey, e: Entry): int {
    match k
    case ByPoints => PointsOf(e.user)
    case ByLikes => e.user.likes
  }

  /** Non-increasing by key: the order the comparator `(a, b) => b.key - a.key` asks for. */
  ghost predicate SortedDesc(k: SortKey, s: seq<Entry>) {
    forall i, j :: 0 <= i < j < |s| ==> Key(k, s[i]) >= Key(k, s[j])
  }

  /** The entries of `s` whose key is `v`, in the order `s` has them. */
  function Ties(k: SortKey, s: seq<Entry>, v: int): seq<Entry> {
    if s == [] then [] else (if Key(k, s[0]) == v then [s[0]] else []) + Ties(k, s[1..], v)
  }

  /** The sum of the keys of `s`. */
  function Total(k: SortKey, s: seq<Entry>): (r: int)
    ensures (forall i :: 0 <= i < |s| ==> Key(k, s[i]) >= 0) ==> r >= 0
    ensures (forall i :: 0 <= i < |s| ==> Key(k, s[i]) > 0) ==> r >= |s|
  {
    if s == [] then 0
    else
      assert forall i :: 0 <= i < |s[1..]| ==> s[1..][i] == s[i + 1];
      Key(k, s[0]) + Total(k, s[1..])
  }

  /** Puts `x` in front of the first entry whose key is not greater than its own. */
  function Insert(k: SortKey, x: Entry, s: seq<Entry>): (r: seq<Entry>)
    ensures multiset(r) == multiset(s) + multiset{x}
    ensures |r| == |s| + 1
  {
    if s == [] || Key(k, x) >= Key(k, s[0]) then [x] + s
    else
      assert s == [s[0]] + s[1..];
      [s[0]] + Insert(k, x, s[1..])
  }

  /** No key in `s` exceeds `m`. */
  ghost predicate AtMost(k: SortKey, s: seq<Entry>, m: int) {
    forall i :: 0 <= i < |s| ==> Key(k, s[i]) <= m
  }

  lemma {:induction false} InsertAtMost(k: SortKey, x: Entry, s: seq<Entry>, m: int)
    requires AtMost(k, s, m) && Key(k, x) <= m
    ensures AtMost(k, Insert(k, x, s), m)
  {
    if s != [] && Key(k, x) < Key(k, s[0]) {
      InsertAtMost(k, x, s[1..], m);
      var r := Insert(k, x, s);
      forall i | 0 <= i < |r| ensures Key(k, r[i]) <= m {
        if i > 0 {
          assert r[i] == Insert(k, x, s[1..])[i - 1];
        }
      }
    }
  }

  lemma {:induction false} InsertSorted(k: SortKey, x: Entry, s: seq<Entry>)
    requires SortedDesc(k, s)
    ensures SortedDesc(k, Insert(k, x, s))
  {
    if s != [] && Key(k, x) < Key(k, s[0]) {
      var rest := Insert(k, x, s[1..]);
      InsertSorted(k, x, s[1..]);
      assert AtMost(k, s[1..], Key(k, s[0])) by {
        forall i | 0 <= i < |s[1..]| ensures Key(k, s[1..][i]) <= Key(k, s[0]) {
          assert s[1..][i] == s[i + 1];
        }
      }
      InsertAtMost(k, x, s[1..], Key(k, s[0]));
      var r := [s[0]] + rest;
      forall i, j | 0 <= i < j < |r| ensures Key(k, r[i]) >= Key(k, r[j]) {
        assert r[j] == rest[j - 1];
        if i > 0 {
          assert r[i] == rest[i - 1];
        }
      }
    }
  }

  /** `users.sort((a, b) => b.key - a.key)`: a permutation of `xs` in non-increasing key order. */
  function Rank(k: SortKey, xs: seq<Entry>): (r: seq<Entry>)
    ensures SortedDesc(k, r)
    ensures multiset(r) == multiset(xs)
    ensures |r| == |xs|
  {
    if xs == [] then []
    else
      assert xs == [xs[0]] + xs[1..];
      InsertSorted(k, xs[0], Rank(k, xs[1..]));
      Insert(k, xs[0], Rank(k, xs[1..]))
  }

  lemma TiesCons(k: SortKey, e: Entry, s: seq<Entry>, v: int)
    ensures Ties(k, [e] + s, v) == (if Key(k, e) == v then [e] else []) + Ties(k, s, v)
  {
    assert ([e] + s)[0] == e && ([e] + s)[1..] == s;
  }

  /** The step of `InsertTies`: `x` passes `s[0]`, which has a different key. */
  lemma InsertTiesStep(k: SortKey, x: Entry, s: seq<Entry>, v: int, rest: seq<Entry>)
    requires s != [] && Key(k, x) < Key(k, s[0])
    requires Ties(k, rest, v) == Ties(k, [x] + s[1..], v)
    ensures Ties(k, [s[0]] + rest, v) == Ties(k, [x] + s, v)
  {
    var tail := Ties(k, s[1..], v);
    assert s == [s[0]] + s[1..];
    TiesCons(k, s[0], rest, v);
    TiesCons(k, x, s[1..], v);
    TiesCons(k, s[0], s[1..], v);
    TiesCons(k, x, s, v);
    if Key(k, x) == v {
      assert Ties(k, [s[0]] + rest, v) == [x] + tail;
    } else if Key(k, s[0]) == v {
      assert Ties(k, [s[0]] + rest, v) == [s[0]] + tail;
    } else {
      assert Ties(k, [s[0]] + rest, v) == tail;
    }
  }

  lemma {:induction false} InsertTies(k: SortKey, x: Entry, s: seq<Entry>, v: int)
    ensures Ties(k, Insert(k, x, s), v) == Ties(k, [x] + s, v)
  {
    if s != [] && Key(k, x) < Key(k, s[0]) {
      InsertTies(k, x, s[1..], v);
      InsertTiesStep(k, x, s, v, Insert(k, x, s[1..]));
    }
  }

  /** The sort is stable: entries with equal keys come out in the order they went in. */
  lemma {:induction false} RankIsStable(k: SortKey, xs: seq<Entry>, v: int)
    ensures Ties(k, Rank(k, xs), v) == Ties(k, xs, v)
  {
    if xs != [] {
      RankIsStable(k, xs[1..], v);
      InsertTies(k, xs[0], Rank(k, xs[1..]), v);
      assert ([xs[0]] + Rank(k, xs[1..]))[1..] == Rank(k, xs[1..]);
    }
  }

  lemma {:induction false} TiesAppend(k: SortKey, a: seq<Entry>, b: seq<Entry>, v: int)
    ensures Ties(k, a + b, v) == Ties(k, a, v) + Ties(k, b, v)
  {
    if a == [] {
      assert a + b == b;
    } else {
      TiesAppend(k, a[1..], b, v);
      var t := if Key(k, a[0]) == v then [a[0]] else [];
      assert a == [a[0]] + a[1..] && a + b == [a[0]] + (a[1..] + b);
      TiesCons(k, a[0], a[1..] + b, v);
      TiesCons(k, a[0], a[1..], v);
      assert t + (Ties(k, a[1..], v) + Ties(k, b, v)) == (t + Ties(k, a[1..], v)) + Ties(k, b, v);
    }
  }

  /** The first entry of a sorted list has the largest key. */
  lemma HeadIsMax(k: SortKey, s: seq<Entry>, x: Entry)
    requires SortedDesc(k, s) && x in multiset(s)
    ensures s != [] && Key(k, s[0]) >= Key(k, x)
  {
    var i :| 0 <= i < |s| && s[i] == x;
  }

  /** The first entry with key `v` in a list that starts with key `v` is its head. */
  lemma TiesHead(k: SortKey, s: seq<Entry>)
    requires s != []
    ensures Ties(k, s, Key(k, s[0])) != [] && Ties(k, s, Key(k, s[0]))[0] == s[0]
  {
  }

  /** Two sorted permutations with the same ties start with the same entry. */
  lemma SameHead(k: SortKey, r: seq<Entry>, s: seq<Entry>)
    requires r != [] && SortedDesc(k, r) && SortedDesc(k, s)
    requires multiset(r) == multiset(s)
    requires forall v :: Ties(k, r, v) == Ties(k, s, v)
    ensures s != [] && r[0] == s[0]
  {
    HeadIsMax(k, s, r[0]);
    HeadIsMax(k, r, s[0]);
    TiesHead(k, r);
    TiesHead(k, s);
    assert Ties(k, r, Key(k, r[0])) == Ties(k, s, Key(k, s[0]));
  }

  /** ... and, past that entry, are again permutations with the same ties. */
  lemma SameTails(k: SortKey, r: seq<Entry>, s: seq<Entry>)
    requires r != [] && s != [] && r[0] == s[0]
    requires multiset(r) == multiset(s)
    requires forall v :: Ties(k, r, v) == Ties(k, s, v)
    ensures multiset(r[1..]) == multiset(s[1..])
    ensures forall v :: Ties(k, r[1..], v) == Ties(k, s[1..], v)
  {
    assert r == [r[0]] + r[1..] && s == [s[0]] + s[1..];
    assert multiset(r[1..]) == multiset(r) - multiset{r[0]};
    assert multiset(s[1..]) == multiset(s) - multiset{s[0]};
    forall v ensures Ties(k, r[1..], v) == Ties(k, s[1..], v) {
      assert Ties(k, r, v) == Ties(k, s, v);
      TiesCons(k, r[0], r[1..], v);
      TiesCons(k, s[0], s[1..], v);
      var t := if Key(k, r[0]) == v then [r[0]] else [];
      assert t + Ties(k, r[1..], v) == t + Ties(k, s[1..], v);
      assert Ties(k, r[1..], v) == (t + Ties(k, r[1..], v))[|t|..];
    }
  }

  lemma {:induction false} StableSortIsUnique(k: SortKey, r: seq<Entry>, s: seq<Entry>)
    requires SortedDesc(k, r) && SortedDesc(k, s)
    requires multiset(r) == multiset(s)
    requires forall v :: Ties(k, r, v) == Ties(k, s, v)
    ensures r == s
  {
    if r == [] {
      assert |s| == |multiset(s)| == 0;
    } else {
      SameHead(k, r, s);
      SameTails(k, r, s);
      StableSortIsUnique(k, r[1..], s[1..]);
      assert r == [r[0]] + r[1..] && s == [s[0]] + s[1..];
    }
  }

  /** `Rank` is THE stable sort: any permutation of `xs` that is in non-increasing key order
      and keeps equal keys in input order is `Rank(k, xs)`. So the model agrees with every
      conforming `Array.prototype.sort`. */
  lemma SortIsRank(k: SortKey, xs: seq<Entry>, r: seq<Entry>)
    requires SortedDesc(k, r) && multiset(r) == multiset(xs)
    requires forall v :: Ties(k, r, v) == Ties(k, xs, v)
    ensures r == Rank(k, xs)
  {
    forall v ensures Ties(k, r, v) == Ties(k, Rank(k, xs), v) {
      RankIsStable(k, xs, v);
    }
    StableSortIsUnique(k, r, Rank(k, xs));
  }

  lemma {:induction false} InsertTotal(k: SortKey, x: Entry, s: seq<Entry>)
    ensures Total(k, Insert(k, x, s)) == Key(k, x) + Total(k, s)
  {
    if s != [] && Key(k, x) < Key(k, s[0]) {
      InsertTotal(k, x, s[1..]);
      assert ([s[0]] + Insert(k, x, s[1..]))[1..] == Insert(k, x, s[1..]);
    } else {
      assert ([x] + s)[1..] == s;
    }
  }

  /** Sorting does not change the sum of the keys. */
  lemma {:induction false} RankKeepsTotal(k: SortKey, xs: seq<Entry>)
    ensures Total(k, Rank(k, xs)) == Total(k, xs)
  {
    if xs != [] {
      RankKeepsTotal(k, xs[1..]);
      InsertTotal(k, xs[0], Rank(k, xs[1..]));
    }
  }

  lemma {:induction false} TotalAppend(k: SortKey, a: seq<Entry>, b: seq<Entry>)
    ensures Total(k, a + b) == Total(k, a) + Total(k, b)
  {
    if a == [] {
      assert a + b == b;
    } else {
      TotalAppend(k, a[1..], b);
      assert (a + b)[0] == a[0];
      assert (a + b)[1..] == a[1..] + b;
    }
  }

  /** Replacing one entry changes the sum by the difference of the two keys. */
  lemma {:induction false} TotalUpdate(k: SortKey, s: seq<Entry>, p: nat, x: Entry)
    requires p < |s|
    ensures Total(k, s[p := x]) == Total(k, s) - Key(k, s[p]) + Key(k, x)
  {
    if p == 0 {
      assert s[p := x][1..] == s[1..];
    } else {
      TotalUpdate(k, s[1..], p - 1, x);
      assert s[p := x][1..] == s[1..][p - 1 := x];
    }
  }

  /** `slice(0, n)` */
  function Top(s: seq<Entry>, n: nat): (r: seq<Entry>)
    ensures |r| <= n && |r| <= |s| && r == s[..|r|]
    ensures |s| <= n ==> r == s
    ensures n <= |s| ==> |r| == n
  {
    s[..Min(n, |s|)]
  }

  /** In a sorted list, an entry the first `n` leave out ranks no higher than any they keep. */
  lemma TopDominates(k: SortKey, s: seq<Entry>, n: nat, x: Entry)
    requires SortedDesc(k, s) && x in s && x !in Top(s, n)
    ensures forall y :: y in Top(s, n) ==> Key(k, y) >= Key(k, x)
  {
    var i :| 0 <= i < |s| && s[i] == x;
    var top := Top(s, n);
    assert i >= |top|;
    forall y | y in top ensures Key(k, y) >= Key(k, x) {
      var j :| 0 <= j < |top| && top[j] == y;
      assert s[j] == y;
    }
  }

  /** Cutting a sorted list keeps, for every key, a prefix of the entries with that key. */
  lemma TopTiesArePrefix(k: SortKey, s: seq<Entry>, n: nat, v: int)
    ensures var t := Ties(k, Top(s, n), v);
            |t| <= |Ties(k, s, v)| && t == Ties(k, s, v)[..|t|]
  {
    var top := Top(s, n);
    assert s == top + s[|top|..];
    TiesAppend(k, top, s[|top|..], v);
  }

  /** In a sorted list the first `n` entries are again sorted, and are entries of the list. */
  lemma TopOfSorted(k: SortKey, s: seq<Entry>, n: nat)
    requires SortedDesc(k, s)
    ensures SortedDesc(k, Top(s, n))
    ensures forall e :: e in Top(s, n) ==> e in multiset(s)
  {
    var top := Top(s, n);
    forall e | e in top ensures e in multiset(s) {
      var i :| 0 <= i < |top| && top[i] == e;
      assert s[i] == e;
    }
  }

  lemma PutTotalExisting(k: SortKey, db: Db, id: string, u: UserRecord)
    requires db.Valid() && id in db.users
    ensures Put(db, id, u).Valid()
    ensures Total(k, Entries(Put(db, id, u))) ==
            Total(k, Entries(db)) - Key(k, Entry(id, db.users[id])) + Key(k, Entry(id, u))
  {
    var p :| 0 <= p < |db.order| && db.order[p] == id;
    EntriesPutExisting(db, id, u, p);
    TotalUpdate(k, Entries(db), p, Entry(id, u));
  }

  lemma PutTotalNew(k: SortKey, db: Db, id: string, u: UserRecord)
    requires db.Valid() && id !in db.users
    ensures Put(db, id, u).Valid()
    ensures Total(k, Entries(Put(db, id, u))) == Total(k, Entries(db)) + Key(k, Entry(id, u))
  {
    EntriesPutNew(db, id, u);
    TotalAppend(k, Entries(db), [Entry(id, u)]);
    assert Total(k, [Entry(id, u)]) == Key(k, Entry(id, u)) + Total(k, []);
  }

  /** Writing record `u` at `id` changes the ledger-wide sum of a key by exactly the change of
      that record's key; a new id adds its key. */
  lemma PutTotal(k: SortKey, db: Db, id: string, u: UserRecord)
    requires db.Valid()
    ensures Put(db, id, u).Valid()
    ensures Total(k, Entries(Put(db, id, u))) ==
            Total(k, Entries(db)) - (if id in db.users then Key(k, Entry(id, db.users[id])) else 0)
              + Key(k, Entry(id, u))
  {
    if id in db.users {
      PutTotalExisting(k, db, id, u);
    } else {
      PutTotalNew(k, db, id, u);
    }
  }
}
