/**
 * The dashboard's "check my points" form (`dashboard/script.js`): the typed username is
 * trimmed and given a leading `@`, then the downloaded ledger is searched, in key order, for
 * the first user whose lower-cased nickname equals the lower-cased name without its `@`.
 */
module Dashboard {
  import opened JsValues
  import opened JsText
  import opened Ledger

  /** What the form shows: nothing (blank input), the user found, the name not found, or an
      error because `data.json` could not be fetched or parsed. */
  datatype CheckResult = Skipped | Found(user: UserRecord) | NotFound(username: string) | FetchFailed

  /** `value.trim()`, then `'@' + username` unless it starts with `@`; `None` when the trimmed
      input is empty, which ends the handler. */
  function Normalize(input: string): (r: Option<string>)
    ensures r.None? <==> forall i :: 0 <= i < |input| ==> IsJsSpace(input[i])
    ensures r.Some? ==> r.value == ['@'] + StripLeadingAt(Trim(input))
  {
    var t := Trim(input);
    if t == [] then None
    else if t[0] == '@' then
      assert t == ['@'] + t[1..];
      Some(t)
    else Some(['@'] + t)
  }

  /** `username.replace(/^@/, '')`: at most one leading `@` goes. */
  function StripLeadingAt(s: string): (r: string)
    ensures s != [] && s[0] == '@' ==> r == s[1..]
    ensures (s == [] || s[0] != '@') ==> r == s
  {
    if s != [] && s[0] == '@' then s[1..] else s
  }

  /** `username.replace(/^@/, '').toLowerCase()` */
  function SearchKey(username: string): (r: string)
    ensures username != [] && username[0] == '@' ==>
      |r| == |username| - 1 && forall i :: 0 <= i < |r| ==> r[i] == LowerChar(username[i + 1])
    ensures (username == [] || username[0] != '@') ==>
      |r| == |username| && forall i :: 0 <= i < |r| ==> r[i] == LowerChar(username[i])
  {
    ToLower(StripLeadingAt(username))
  }

  /** `(u.nickname || '').toLowerCase()` */
  function NickKey(u: UserRecord): (r: string)
    ensures r == [] <==> u.nickname.None? || u.nickname.value == ""
    ensures u.nickname.Some? ==>
      |r| == |u.nickname.value| && forall i :: 0 <= i < |r| ==> r[i] == LowerChar(u.nickname.value[i])
  {
    ToLower(OrString(u.nickname, ""))
  }

  /** The first position at or after `from`, in key order, whose user's nickname key is `key`. */
  function FirstMatch(db: Db, key: string, from: nat): (r: Option<nat>)
    requires db.Valid() && from <= |db.order|
    ensures r.Some? ==> from <= r.value < |db.order|
    decreases |db.order| - from
  {
    if from == |db.order| then None
    else if NickKey(db.users[db.order[from]]) == key then Some(from)
    else FirstMatch(db, key, from + 1)
  }

  /** `FirstMatch` finds a match exactly when there is one, and no earlier position matches. */
  lemma {:induction false} FirstMatchIsFirst(db: Db, key: string, from: nat)
    requires db.Valid() && from <= |db.order|
    ensures var r := FirstMatch(db, key, from);
      && (r.Some? ==> NickKey(db.users[db.order[r.value]]) == key)
      && (r.Some? ==> forall j :: from <= j < r.value ==> NickKey(db.users[db.order[j]]) != key)
      && (r.None? <==> forall j :: from <= j < |db.order| ==> NickKey(db.users[db.order[j]]) != key)
    decreases |db.order| - from
  {
    if from < |db.order| && NickKey(db.users[db.order[from]]) != key {
      FirstMatchIsFirst(db, key, from + 1);
      assert FirstMatch(db, key, from) == FirstMatch(db, key, from + 1);
    }
  }

  /** The user the `for...in` loop finds for `key`, if any. */
  function Lookup(db: Db, key: string): (r: Option<UserRecord>)
    requires db.Valid()
    ensures r.Some? ==> r.value in db.users.Values && NickKey(r.value) == key
  {
    match FirstMatch(db, key, 0)
    case Some(i) =>
      FirstMatchIsFirst(db, key, 0);
      assert db.order[i] in db.users;
      Some(db.users[db.order[i]])
    case None => None
  }

  /** The loop finds nothing exactly when no nickname key is `key`, and otherwise the user at
      the first position, in key order, whose nickname key is `key`. */
  lemma LookupFindsFirst(db: Db, key: string)
    requires db.Valid()
    ensures Lookup(db, key).None? <==> forall j :: 0 <= j < |db.order| ==> NickKey(db.users[db.order[j]]) != key
    ensures Lookup(db, key).Some? ==>
      exists i :: 0 <= i < |db.order| && db.users[db.order[i]] == Lookup(db, key).value
        && NickKey(db.users[db.order[i]]) == key
        && forall j :: 0 <= j < i ==> NickKey(db.users[db.order[j]]) != key
  {
    FirstMatchIsFirst(db, key, 0);
  }

  /** The whole submit handler as a function of the input and of the fetched ledger. */
  function Check(input: string, fetched: Option<Db>): (r: CheckResult)
    requires fetched.Some? ==> fetched.value.Valid()
    ensures r.Skipped? <==> forall i :: 0 <= i < |input| ==> IsJsSpace(input[i])
    ensures r.FetchFailed? <==> !r.Skipped? && fetched.None?
    ensures r.Found? ==> && Normalize(input).Some? && fetched.Some?
                         && r.user in fetched.value.users.Values
                         && NickKey(r.user) == SearchKey(Normalize(input).value)
    ensures r.NotFound? ==> Some(r.username) == Normalize(input)
  {
    match Normalize(input)
    case None => Skipped
    case Some(username) =>
      match fetched
      case None => FetchFailed
      case Some(db) =>
        match Lookup(db, SearchKey(username))
        case Some(user) => Found(user)
        case None => NotFound(username)
  }

  /** For a non-blank name and a fetched ledger, the handler reports not found exactly when no
      user's nickname key equals the search key, and otherwise the first such user in key order. */
  lemma CheckFindsFirst(input: string, db: Db)
    requires db.Valid() && Normalize(input).Some?
    ensures var key, r := SearchKey(Normalize(input).value), Check(input, Some(db));
      && (r.Found? || r.NotFound?)
      && (r.NotFound? <==> forall j :: 0 <= j < |db.order| ==> NickKey(db.users[db.order[j]]) != key)
      && (r.Found? ==> exists i :: 0 <= i < |db.order| && db.users[db.order[i]] == r.user
                                   && NickKey(r.user) == key
                                   && forall j :: 0 <= j < i ==> NickKey(db.users[db.order[j]]) != key)
  {
    LookupFindsFirst(db, SearchKey(Normalize(input).value));
  }

  /** The submit handler: normalises the name, then searches the fetched ledger. */
  method Submit(input: string, fetched: Option<Db>) returns (result: CheckResult)
    requires fetched.Some? ==> fetched.value.Valid()
    ensures result == Check(input, fetched)
  {
    var username := Trim(input);
    if username == [] {
      return Skipped;
    }
    if username[0] != '@' {
      username := ['@'] + username;
    }
    assert Normalize(input) == Some(username);
    if fetched.None? {
      return FetchFailed;
    }
    var inputNick := ToLower(StripLeadingAt(username));
    var found := Search(fetched.value, inputNick);
    if found.Some? {
      result := Found(found.value);
    } else {
      result := NotFound(username);
    }
  }

  /** The `for...in` loop over `data.users`: stops at the first user whose nickname key is
      `inputNick`. */
  method Search(data: Db, inputNick: string) returns (found: Option<UserRecord>)
    requires data.Valid()
    ensures found == Lookup(data, inputNick)
  {
    found := None;
    var i := 0;
    while i < |data.order|
      invariant 0 <= i <= |data.order|
      invariant FirstMatch(data, inputNick, 0) == FirstMatch(data, inputNick, i)
    {
      var userId := data.order[i];
      var nick := NickKey(data.users[userId]);
      if nick == inputNick {
        found := Some(data.users[userId]);
        break;
      }
      i := i + 1;
    }
  }

  /** Normalising a normalised name changes nothing. */
  lemma NormalizeIdempotent(input: string)
    requires Normalize(input).Some?
    ensures Normalize(Normalize(input).value) == Normalize(input)
  {
    var n := Normalize(input).value;
    TrimKeepsTrimmed(n);
  }

  /** The search key drops exactly one `@`: `@@name` is searched for as `@name`, and a name
      typed with or without its `@` gives the same key. */
  lemma SearchKeyDropsOneAt(input: string)
    requires Normalize(input).Some?
    ensures SearchKey(Normalize(input).value) == ToLower(Normalize(input).value[1..])
    ensures Trim(input)[0] != '@' ==> Normalize(['@'] + Trim(input)) == Normalize(input)
  {
    var t := Trim(input);
    if t[0] != '@' {
      AtPrefixedIsNormal(t);
    }
  }

  /** A trimmed name without an `@` gets one, and is then left alone. */
  lemma AtPrefixedIsNormal(t: string)
    requires t != [] && t[0] != '@' && !IsJsSpace(t[0]) && !IsJsSpace(t[|t| - 1])
    ensures Normalize(['@'] + t) == Some(['@'] + t)
  {
    var n := ['@'] + t;
    assert n[|n| - 1] == t[|t| - 1];
    TrimKeepsTrimmed(n);
    assert StripLeadingAt(n) == t;
  }

  /** The input `@` is searched for as the empty nickname key. */
  lemma AtSignSearchesEmpty(db: Db, at: string)
    requires db.Valid() && at == ['@']
    ensures Check(at, Some(db)) == if Lookup(db, "").Some? then Found(Lookup(db, "").value) else NotFound(at)
  {
    TrimKeepsTrimmed(at);
    assert Normalize(at) == Some(at);
    assert StripLeadingAt(at) == [];
  }

  /** The input `@` matches the first user with no nickname (or an empty one). */
  lemma NamelessUserMatchesAtSign(db: Db, i: nat)
    requires db.Valid() && i < |db.order|
    requires OrString(db.users[db.order[i]].nickname, "") == ""
    requires forall j :: 0 <= j < i ==> OrString(db.users[db.order[j]].nickname, "") != ""
    ensures Check("@", Some(db)) == Found(db.users[db.order[i]])
  {
    FirstMatchIsFirst(db, "", 0);
    forall j | 0 <= j <= i ensures NickKey(db.users[db.order[j]]) == "" <==> j == i {
      assert |NickKey(db.users[db.order[j]])| == |OrString(db.users[db.order[j]].nickname, "")|;
    }
    assert FirstMatch(db, "", 0) == Some(i);
    AtSignSearchesEmpty(db, "@");
  }
}
