/**
 * The persisted session: a string-to-string preferences map. Reading it is a
 * pure function of the map; saving and clearing edit the map in place.
 */
module SessionStore {
  import opened Wrappers

  datatype AuthSession = AuthSession(
    token: string,
    refreshToken: Option<string>,
    userName: string,
    rawUserData: string,
    username: string,
    password: Option<string>,
    userId: Option<string>)

  const TOKEN := "token"
  const REFRESH_TOKEN := "refresh_token"
  const USER_NAME := "user_name"
  const USER_DATA := "user_data"
  const USERNAME := "username"
  const PASSWORD := "password"
  const USER_ID := "user_id"

  /** The seven keys the store owns. */
  const SESSION_KEYS: set<string> := {TOKEN, REFRESH_TOKEN, USER_NAME, USER_DATA, USERNAME, PASSWORD, USER_ID}

  function Get(prefs: map<string, string>, key: string): Option<string> {
    if key in prefs then Some(prefs[key]) else None
  }

  /**
   * `authSessionFlow`'s mapping: no session without a token; the text
   * fields default to "", the optional ones to null.
   */
  function SessionOf(prefs: map<string, string>): (s: Option<AuthSession>)
    ensures s.None? <==> TOKEN !in prefs
    ensures s.Some? ==> s.value.token == prefs[TOKEN]
    ensures s.Some? ==> s.value.userName == Get(prefs, USER_NAME).GetOr("")
                        && s.value.rawUserData == Get(prefs, USER_DATA).GetOr("")
                        && s.value.username == Get(prefs, USERNAME).GetOr("")
    ensures s.Some? ==> s.value.refreshToken == Get(prefs, REFRESH_TOKEN)
                        && s.value.password == Get(prefs, PASSWORD)
                        && s.value.userId == Get(prefs, USER_ID)
  {
    if TOKEN !in prefs then None
    else Some(AuthSession(
      prefs[TOKEN],
      Get(prefs, REFRESH_TOKEN),
      Get(prefs, USER_NAME).GetOr(""),
      Get(prefs, USER_DATA).GetOr(""),
      Get(prefs, USERNAME).GetOr(""),
      Get(prefs, PASSWORD),
      Get(prefs, USER_ID)))
  }

  /** `prefs[key] = value` when the value is non-null; a null value leaves the key alone. */
  function PutIfPresent(prefs: map<string, string>, key: string, value: Option<string>): map<string, string> {
    if value.Some? then prefs[key := value.value] else prefs
  }

  /** The preferences after `saveSession(s)`. */
  function Saved(prefs: map<string, string>, s: AuthSession): map<string, string> {
    var p := prefs[TOKEN := s.token];
    var p := PutIfPresent(p, REFRESH_TOKEN, s.refreshToken);
    var p := p[USER_NAME := s.userName][USER_DATA := s.rawUserData][USERNAME := s.username];
    var p := PutIfPresent(p, PASSWORD, s.password);
    PutIfPresent(p, USER_ID, s.userId)
  }

  /** The preferences after `clear()`. */
  function Cleared(prefs: map<string, string>): map<string, string> {
    prefs - {TOKEN} - {REFRESH_TOKEN} - {USER_NAME} - {USER_DATA} - {USERNAME} - {PASSWORD} - {USER_ID}
  }

  /** `s.field ?: old` for an optional field `saveSession` skips when null. */
  function Keep(value: Option<string>, stored: Option<string>): Option<string> {
    if value.Some? then value else stored
  }

  /**
   * Reading after a save gives the saved session, except that a null
   * refresh token, password or user id reads back whatever was stored.
   */
  lemma ReadAfterSave(prefs: map<string, string>, s: AuthSession)
    ensures SessionOf(Saved(prefs, s))
            == Some(s.(refreshToken := Keep(s.refreshToken, Get(prefs, REFRESH_TOKEN)),
                       password := Keep(s.password, Get(prefs, PASSWORD)),
                       userId := Keep(s.userId, Get(prefs, USER_ID))))
  {
    var p := Saved(prefs, s);
    assert p[TOKEN] == s.token;
    assert p[USER_NAME] == s.userName && p[USER_DATA] == s.rawUserData && p[USERNAME] == s.username;
    assert Get(p, REFRESH_TOKEN) == Keep(s.refreshToken, Get(prefs, REFRESH_TOKEN));
    assert Get(p, PASSWORD) == Keep(s.password, Get(prefs, PASSWORD));
    assert Get(p, USER_ID) == Keep(s.userId, Get(prefs, USER_ID));
  }

  /**
   * The exact round trip holds precisely when each optional field that is
   * null has no stale value under its key.
   */
  lemma RoundTripIff(prefs: map<string, string>, s: AuthSession)
    ensures SessionOf(Saved(prefs, s)) == Some(s)
            <==> (s.refreshToken.Some? || REFRESH_TOKEN !in prefs)
                 && (s.password.Some? || PASSWORD !in prefs)
                 && (s.userId.Some? || USER_ID !in prefs)
  {
    ReadAfterSave(prefs, s);
  }

  /** After `clear()` there is no session. */
  lemma ReadAfterClear(prefs: map<string, string>)
    ensures SessionOf(Cleared(prefs)) == None
    ensures Cleared(prefs).Keys !! SESSION_KEYS
  {
    assert TOKEN in SESSION_KEYS;
  }

  /** Clearing twice is clearing once. */
  lemma ClearIdempotent(prefs: map<string, string>)
    ensures Cleared(Cleared(prefs)) == Cleared(prefs)
  {
  }

  /** Saving and clearing leave every other key, and its value, as it was. */
  lemma OnlySessionKeysTouched(prefs: map<string, string>, s: AuthSession, k: string)
    requires k !in SESSION_KEYS
    ensures k in Saved(prefs, s) <==> k in prefs
    ensures k in prefs ==> Saved(prefs, s)[k] == prefs[k]
    ensures k in Cleared(prefs) <==> k in prefs
    ensures k in prefs ==> Cleared(prefs)[k] == prefs[k]
  {
  }

  /** The session store over its preferences map. */
  class AuthDataStore {
    var prefs: map<string, string>

    constructor (prefs: map<string, string>)
      ensures this.prefs == prefs
    {
      this.prefs := prefs;
    }

    /** The value `authSessionFlow` currently emits. */
    function Session(): Option<AuthSession>
      reads this
    {
      SessionOf(prefs)
    }

    /** `saveSession`. */
    method SaveSession(s: AuthSession)
      modifies this
      ensures prefs == Saved(old(prefs), s)
    {
      prefs := prefs[TOKEN := s.token];
      if s.refreshToken.Some? {
        prefs := prefs[REFRESH_TOKEN := s.refreshToken.value];
      }
      prefs := prefs[USER_NAME := s.userName];
      prefs := prefs[USER_DATA := s.rawUserData];
      prefs := prefs[USERNAME := s.username];
      if s.password.Some? {
        prefs := prefs[PASSWORD := s.password.value];
      }
      if s.userId.Some? {
        prefs := prefs[USER_ID := s.userId.value];
      }
    }

    /** `clear`: the seven keys are removed one by one. */
    method Clear()
      modifies this
      ensures prefs == Cleared(old(prefs))
      ensures Session() == None
    {
      prefs := prefs - {TOKEN};
      prefs := prefs - {REFRESH_TOKEN};
      prefs := prefs - {USER_NAME};
      prefs := prefs - {USER_DATA};
      prefs := prefs - {USERNAME};
      prefs := prefs - {PASSWORD};
      prefs := prefs - {USER_ID};
      ReadAfterClear(old(prefs));
    }
  }
}
