/**
 * The saved-account logic of `components/LoginForm.tsx`: the list of
 * accounts kept in the encrypted `user_info` cache, the e-mail filter that
 * feeds the dropdown, the dropdown's focus and selection handlers, the
 * submit guard, and the cache merge after a successful login.
 *
 * Reading the cache (storage, decryption and `JSON.parse`) is summarised by
 * a `CacheRead` value; a user record is a map from field names to text.
 * `getLocalCache` turns a storage error into `null` and `decrypt` turns a
 * decryption error into "", so the only step that can throw is `JSON.parse`.
 */
module LoginForm {
  import opened Wrappers
  import opened Strings

  /** A saved account (`ExtendedUserInfo`): the user info fields plus `email` and `password`. */
  type UserRecord = map<string, string>

  /** The saved accounts, keyed by e-mail. */
  type UserList = map<string, UserRecord>

  /** What reading the `user_info` cache yields. */
  datatype CacheRead =
    | Missing                          // nothing stored, a failed storage read, or the "" left by a clear
    | ParsedObject(list: UserList)     // decrypted and parsed to a non-null object
    | ParsedOther                      // parsed to null, a number or a boolean
    | Corrupt                          // `JSON.parse` threw on the decrypted text

  // ---------------------------------------------------------------------------
  // The e-mail filter
  // ---------------------------------------------------------------------------

  /** `email.toLowerCase().includes(emailValue.toLowerCase())`. */
  predicate MatchesQuery(email: string, query: string) {
    Contains(Lower(email), Lower(query))
  }

  /** The accounts whose e-mail matches the query, with their records. */
  function Matching(users: UserList, query: string): (r: UserList)
    ensures forall k :: k in r <==> k in users && MatchesQuery(k, query)
    ensures forall k :: k in r ==> r[k] == users[k]
  {
    map k | k in users && MatchesQuery(k, query) :: users[k]
  }

  /** The filtered list is part of the saved list: same keys or fewer, same records. */
  lemma MatchingIsSubMap(users: UserList, query: string)
    ensures Matching(users, query).Keys <= users.Keys
    ensures |Matching(users, query)| <= |users|
  {
    var r := Matching(users, query);
    assert r.Keys <= users.Keys;
    SubsetCardinality(r.Keys, users.Keys);
  }

  lemma {:induction false} SubsetCardinality<T>(a: set<T>, b: set<T>)
    requires a <= b
    ensures |a| <= |b|
    decreases b
  {
    if a != {} {
      var x :| x in a;
      SubsetCardinality(a - {x}, b - {x});
    }
  }

  /** Every e-mail matches the empty query, so filtering with it keeps the whole list. */
  lemma MatchingEmptyQuery(users: UserList)
    ensures Matching(users, "") == users
  {
    forall k | k in users ensures MatchesQuery(k, "") {
      ContainsEmpty(Lower(k));
    }
  }

  /** An e-mail always matches itself, whatever its letter case. */
  lemma MatchesItself(email: string)
    ensures MatchesQuery(email, email)
  {
    assert OccursAt(Lower(email), Lower(email), 0);
  }

  /**
   * The `reduce` over `Object.entries(userList)`: visits the entries one by
   * one and copies those whose e-mail matches.
   */
  method FilterUsers(users: UserList, query: string) returns (filtered: UserList)
    ensures filtered == Matching(users, query)
  {
    filtered := map[];
    var remaining := users.Keys;
    while remaining != {}
      invariant remaining <= users.Keys
      invariant filtered == map k | k in users.Keys - remaining && MatchesQuery(k, query) :: users[k]
      decreases remaining
    {
      var email :| email in remaining;
      if MatchesQuery(email, query) {
        filtered := filtered[email := users[email]];
      }
      remaining := remaining - {email};
    }
  }

  // ---------------------------------------------------------------------------
  // Loading and merging the cache
  // ---------------------------------------------------------------------------

  /**
   * The mount effect: with nothing stored the list stays as it is; a parsed
   * object becomes the list; a parsed non-object or text that does not parse
   * clears the cache and empties the list.
   */
  datatype LoadResult = LoadResult(list: Option<UserList>, clearCache: bool)

  function LoadUserList(read: CacheRead): (r: LoadResult)
    ensures r.list.None? <==> read.Missing?
    ensures read.ParsedObject? ==> r.list == Some(read.list)
    ensures r.clearCache <==> read.ParsedOther? || read.Corrupt?
    ensures r.clearCache ==> r.list == Some(map[])
  {
    match read
    case Missing => LoadResult(None, false)
    case ParsedObject(list) => LoadResult(Some(list), false)
    case ParsedOther => LoadResult(Some(map[]), true)
    case Corrupt => LoadResult(Some(map[]), true)
  }

  /** `{ ...userInfo.data, email, password }`: the logged-in e-mail and password override the info's own. */
  function SavedEntry(info: UserRecord, email: string, password: string): (r: UserRecord)
    ensures r.Keys == info.Keys + {"email", "password"}
    ensures r["email"] == email && r["password"] == password
    ensures forall f :: f in info && f != "email" && f != "password" ==> r[f] == info[f]
  {
    info["email" := email]["password" := password]
  }

  /**
   * The cache written after a successful login. A readable cache keeps every
   * other account and gets the logged-in entry (added or replaced); nothing
   * stored, or a parsed non-object, spreads to no entries; when parsing
   * threw, the cache is replaced by the logged-in e-mail alone, stored with
   * the bare user info.
   */
  function MergeCache(read: CacheRead, email: string, password: string, info: UserRecord): (r: UserList)
    ensures email in r
    ensures !read.Corrupt? ==> r[email] == SavedEntry(info, email, password)
    ensures read.ParsedObject? ==> r.Keys == read.list.Keys + {email}
    ensures read.ParsedObject? ==> forall k :: k in read.list && k != email ==> r[k] == read.list[k]
    ensures read.Missing? || read.ParsedOther? ==> r == map[email := SavedEntry(info, email, password)]
    ensures read.Corrupt? ==> r == map[email := info]
  {
    match read
    case ParsedObject(list) => list[email := SavedEntry(info, email, password)]
    case Missing => map[email := SavedEntry(info, email, password)]
    case ParsedOther => map[email := SavedEntry(info, email, password)]
    case Corrupt => map[email := info]
  }

  /**
   * The account saved by a login is offered on the next visit: loading the
   * written cache lists it, and typing its e-mail keeps it in the dropdown.
   * Unless the earlier cache text did not parse, selecting it fills in the
   * same password; if it did not parse, the entry is the bare user info.
   */
  lemma SavedAccountOffered(read: CacheRead, email: string, password: string, info: UserRecord)
    ensures var list := LoadUserList(ParsedObject(MergeCache(read, email, password, info))).list.value;
      && email in Matching(list, email)
      && (!read.Corrupt? ==> Matching(list, email)[email]["password"] == password)
      && (read.Corrupt? ==> Matching(list, email)[email] == info)
  {
    MatchesItself(email);
  }

  // ---------------------------------------------------------------------------
  // Submitting
  // ---------------------------------------------------------------------------

  /** The reply of `userService.login`: its `code`, `message` and token. */
  datatype LoginReply = LoginReply(code: int, message: string, token: string)

  /** The reply of `userService.getUserInfo`. */
  datatype InfoReply = InfoReply(code: int, info: UserRecord)

  /** What one press of submit leads to. */
  datatype SubmitOutcome =
    | NotAgreed                                  // returns before anything else
    | LoginFailed                                // `login` threw: only logged, no field errors, no token
    | Rejected(message: string)                  // both fields get the reply's message as their error
    | TokenOnly(token: string)                   // the token is stored, the user info request failed or threw
    | LoggedIn(token: string, cache: UserList)   // token stored, cache written, back to "/"

  /**
   * `onSubmit`, with each service call's reply as a parameter: `None` stands
   * for a call that threw. With the default business-code gate a login whose
   * code is not 200 arrives as a thrown error, so `Rejected` is reached only
   * where the gate lets such a reply through.
   */
  function SubmitResult(agreed: bool, email: string, password: string, login: Option<LoginReply>,
                        userInfo: Option<InfoReply>, cache: CacheRead): (r: SubmitOutcome)
    ensures !agreed <==> r.NotAgreed?
    ensures r.LoginFailed? <==> agreed && login.None?
    ensures r.Rejected? <==> agreed && login.Some? && login.value.code != 200
    ensures r.Rejected? ==> r.message == login.value.message
    ensures r.TokenOnly? <==> agreed && login.Some? && login.value.code == 200
                              && (userInfo.None? || userInfo.value.code != 200)
    ensures r.TokenOnly? || r.LoggedIn? ==> r.token == login.value.token
    ensures r.LoggedIn? <==> agreed && login.Some? && login.value.code == 200
                             && userInfo.Some? && userInfo.value.code == 200
    ensures r.LoggedIn? ==> r.cache == MergeCache(cache, email, password, userInfo.value.info)
  {
    if !agreed then NotAgreed
    else if login.None? then LoginFailed
    else if login.value.code != 200 then Rejected(login.value.message)
    else if userInfo.None? || userInfo.value.code != 200 then TokenOnly(login.value.token)
    else LoggedIn(login.value.token, MergeCache(cache, email, password, userInfo.value.info))
  }

  /** The submit button's `disabled`: loading, no e-mail, no password, or the agreement not ticked. */
  predicate SubmitDisabled(isLoading: bool, email: string, password: string, isAgreed: bool) {
    isLoading || email == "" || password == "" || !isAgreed
  }

  /**
   * A press of the enabled button always gets past the agreement guard: it
   * is never a no-op, whatever the service replies.
   */
  lemma EnabledSubmitIsAgreed(isLoading: bool, email: string, password: string, isAgreed: bool,
                              login: Option<LoginReply>, userInfo: Option<InfoReply>, cache: CacheRead)
    requires !SubmitDisabled(isLoading, email, password, isAgreed)
    ensures isAgreed && !isLoading && email != "" && password != ""
    ensures !SubmitResult(isAgreed, email, password, login, userInfo, cache).NotAgreed?
  {
  }

  // ---------------------------------------------------------------------------
  // The form's state
  // ---------------------------------------------------------------------------

  class LoginFormState {
    var userList: UserList
    var filteredUserList: UserList
    var showEmailDropdown: bool
    var isSelectingEmail: bool
    var isAgreed: bool
    var isLoading: bool
    var email: string
    var password: string
    var emailError: Option<string>
    var passwordError: Option<string>

    /** The initial `useState` values and the form's empty default values. */
    constructor ()
      ensures userList == map[] && filteredUserList == map[]
      ensures !showEmailDropdown && !isSelectingEmail && !isAgreed && !isLoading
      ensures email == "" && password == ""
      ensures emailError.None? && passwordError.None?
    {
      userList := map[];
      filteredUserList := map[];
      showEmailDropdown := false;
      isSelectingEmail := false;
      isAgreed := false;
      isLoading := false;
      email := "";
      password := "";
      emailError := None;
      passwordError := None;
    }

    /** The mount effect: applies `LoadUserList`; returns whether the cache is cleared. */
    method LoadUsers(read: CacheRead) returns (clearCache: bool)
      modifies this
      ensures clearCache == LoadUserList(read).clearCache
      ensures userList == LoadUserList(read).list.GetOr(old(userList))
      ensures filteredUserList == old(filteredUserList) && showEmailDropdown == old(showEmailDropdown)
      ensures isSelectingEmail == old(isSelectingEmail) && email == old(email) && password == old(password)
      ensures isAgreed == old(isAgreed) && isLoading == old(isLoading)
      ensures emailError == old(emailError) && passwordError == old(passwordError)
    {
      var result := LoadUserList(read);
      if result.list.Some? {
        userList := result.list.value;
      }
      clearCache := result.clearCache;
    }

    /**
     * The filter effect. While an e-mail is being selected nothing is
     * recomputed. An empty e-mail shows the whole list and leaves the dropdown
     * as it is; otherwise the matching accounts are shown and the dropdown is
     * open exactly when there is at least one.
     */
    method FilterEffect()
      modifies this
      ensures old(isSelectingEmail) ==> filteredUserList == old(filteredUserList) && showEmailDropdown == old(showEmailDropdown)
      ensures !old(isSelectingEmail) && email == "" ==>
        filteredUserList == userList && showEmailDropdown == old(showEmailDropdown)
      ensures !old(isSelectingEmail) && email != "" ==>
        filteredUserList == Matching(userList, email) && (showEmailDropdown <==> |filteredUserList| > 0)
      ensures userList == old(userList) && isSelectingEmail == old(isSelectingEmail)
      ensures email == old(email) && password == old(password)
      ensures isAgreed == old(isAgreed) && isLoading == old(isLoading)
      ensures emailError == old(emailError) && passwordError == old(passwordError)
    {
      if isSelectingEmail {
        return;
      }
      if email == "" {
        filteredUserList := userList;
        return;
      }
      var filtered := FilterUsers(userList, email);
      filteredUserList := filtered;
      if |filtered| > 0 {
        showEmailDropdown := true;
      } else {
        showEmailDropdown := false;
      }
    }

    /** `handleEmailSelect`: fills both fields, marks the selection, closes the dropdown. */
    method HandleEmailSelect(selected: string, savedPassword: string)
      modifies this
      ensures isSelectingEmail && !showEmailDropdown
      ensures email == selected && password == savedPassword
      ensures userList == old(userList) && filteredUserList == old(filteredUserList)
      ensures isAgreed == old(isAgreed) && isLoading == old(isLoading)
      ensures emailError == old(emailError) && passwordError == old(passwordError)
    {
      isSelectingEmail := true;
      email := selected;
      password := savedPassword;
      showEmailDropdown := false;
    }

    /** `onFocusChange`: gaining focus with saved accounts opens the dropdown and ends the selection. */
    method OnFocusChange(focused: bool)
      modifies this
      ensures focused && |old(userList)| > 0 ==> showEmailDropdown && !isSelectingEmail
      ensures !(focused && |old(userList)| > 0) ==>
        showEmailDropdown == old(showEmailDropdown) && isSelectingEmail == old(isSelectingEmail)
      ensures userList == old(userList) && filteredUserList == old(filteredUserList)
      ensures email == old(email) && password == old(password)
      ensures isAgreed == old(isAgreed) && isLoading == old(isLoading)
      ensures emailError == old(emailError) && passwordError == old(passwordError)
    {
      if focused && |userList| > 0 {
        showEmailDropdown := true;
        isSelectingEmail := false;
      }
    }

    /** `handleBlur`: closes the dropdown. */
    method HandleBlur()
      modifies this
      ensures !showEmailDropdown
      ensures userList == old(userList) && filteredUserList == old(filteredUserList)
      ensures isSelectingEmail == old(isSelectingEmail) && email == old(email) && password == old(password)
      ensures isAgreed == old(isAgreed) && isLoading == old(isLoading)
      ensures emailError == old(emailError) && passwordError == old(passwordError)
    {
      showEmailDropdown := false;
    }

    /** The agreement checkbox flips `isAgreed`. */
    method ToggleAgreement()
      modifies this
      ensures isAgreed == !old(isAgreed)
      ensures userList == old(userList) && filteredUserList == old(filteredUserList)
      ensures showEmailDropdown == old(showEmailDropdown) && isSelectingEmail == old(isSelectingEmail)
      ensures email == old(email) && password == old(password) && isLoading == old(isLoading)
      ensures emailError == old(emailError) && passwordError == old(passwordError)
    {
      isAgreed := !isAgreed;
    }

    /**
     * `onSubmit` with the service replies and the cache read as parameters.
     * Returns the outcome; a rejected login puts its message on both fields,
     * and loading is over once the submit has run past the agreement guard.
     */
    method OnSubmit(login: Option<LoginReply>, userInfo: Option<InfoReply>, cache: CacheRead) returns (outcome: SubmitOutcome)
      modifies this
      ensures outcome == SubmitResult(old(isAgreed), email, password, login, userInfo, cache)
      ensures outcome.Rejected? ==> emailError == Some(login.value.message) && passwordError == Some(login.value.message)
      ensures !outcome.Rejected? ==> emailError == old(emailError) && passwordError == old(passwordError)
      ensures isLoading == (outcome.NotAgreed? && old(isLoading))
      ensures userList == old(userList) && filteredUserList == old(filteredUserList)
      ensures showEmailDropdown == old(showEmailDropdown) && isSelectingEmail == old(isSelectingEmail)
      ensures email == old(email) && password == old(password) && isAgreed == old(isAgreed)
    {
      if !isAgreed {
        return NotAgreed;
      }
      isLoading := true;
      if login.None? {
        outcome := LoginFailed;
      } else if login.value.code == 200 {
        if userInfo.Some? && userInfo.value.code == 200 {
          outcome := LoggedIn(login.value.token, MergeCache(cache, email, password, userInfo.value.info));
        } else {
          outcome := TokenOnly(login.value.token);
        }
      } else {
        emailError := Some(login.value.message);
        passwordError := Some(login.value.message);
        outcome := Rejected(login.value.message);
      }
      isLoading := false;
    }
  }
}
