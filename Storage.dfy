/** The two durable entries the session keeps in local storage, and the
    checks the editor makes on them. Local storage is a map from key to
    string; `getItem` of an absent key is null. */
module Storage {

  const TokenKey := "token"
  const UsernameKey := "username"

  /** The placeholder a `setItem` of an undefined value leaves behind. */
  const Placeholder := "undefined"

  /** `localStorage.getItem(key)` in a JavaScript truth test (`!token`):
      `getItem` of an absent key is null, which is falsy, and the empty string
      is the only falsy string, so the entry counts exactly when it is stored
      and non-empty. */
  function Truthy(storage: map<string, string>, key: string): (v: bool)
    ensures v <==> key in storage && |storage[key]| > 0
  {
    key in storage && storage[key] != ""
  }

  /** The bearer token an authenticated call sends, if any. */
  function AuthToken(storage: map<string, string>): (t: string)
    requires Truthy(storage, TokenKey)
    ensures t != "" && t == storage[TokenKey]
  {
    storage[TokenKey]
  }

  /** The user a page load restores: both entries present, non-empty and not
      the placeholder. Nothing is validated against the server. */
  function RestoredUser(storage: map<string, string>): (u: string)
    ensures u != "" <==>
              TokenKey in storage && storage[TokenKey] !in {"", Placeholder} &&
              UsernameKey in storage && storage[UsernameKey] !in {"", Placeholder}
    ensures u != "" ==> u == storage[UsernameKey]
  {
    if Truthy(storage, TokenKey) && storage[TokenKey] != Placeholder &&
       Truthy(storage, UsernameKey) && storage[UsernameKey] != Placeholder
    then storage[UsernameKey]
    else ""
  }

  /** The storage after logout. */
  function Cleared(storage: map<string, string>): (r: map<string, string>)
    ensures TokenKey !in r && UsernameKey !in r
  {
    storage - {TokenKey, UsernameKey}
  }

  /** The storage after a successful login or registration. */
  function Stored(storage: map<string, string>, token: string, user: string): (r: map<string, string>)
    ensures TokenKey in r && r[TokenKey] == token && UsernameKey in r && r[UsernameKey] == user
  {
    assert TokenKey[0] != UsernameKey[0];
    storage[TokenKey := token][UsernameKey := user]
  }

  /** After logout a reload restores nobody and no call carries a token. */
  lemma ClearedRestoresNobody(storage: map<string, string>)
    ensures RestoredUser(Cleared(storage)) == ""
    ensures !Truthy(Cleared(storage), TokenKey)
  {
    assert TokenKey !in Cleared(storage);
  }

  /** After a login whose token and name are real strings, a reload restores
      that user with that token: login and restore round-trip. */
  lemma StoredRestoresUser(storage: map<string, string>, token: string, user: string)
    requires token !in {"", Placeholder} && user !in {"", Placeholder}
    ensures RestoredUser(Stored(storage, token, user)) == user
    ensures Truthy(Stored(storage, token, user), TokenKey)
    ensures AuthToken(Stored(storage, token, user)) == token
  {
    var s := Stored(storage, token, user);
    assert TokenKey != UsernameKey;
    assert s[TokenKey] == token && s[UsernameKey] == user;
  }

  /** Logging out only removes the two session entries. */
  lemma ClearedKeepsOthers(storage: map<string, string>, key: string)
    requires key != TokenKey && key != UsernameKey
    ensures key in Cleared(storage) <==> key in storage
    ensures key in storage ==> Cleared(storage)[key] == storage[key]
  {
  }

  /** Logging in only writes the two session entries. */
  lemma StoredKeepsOthers(storage: map<string, string>, token: string, user: string, key: string)
    requires key != TokenKey && key != UsernameKey
    ensures key in Stored(storage, token, user) <==> key in storage
    ensures key in storage ==> Stored(storage, token, user)[key] == storage[key]
  {
  }
}
