/** The brand portal's session, brand-portal/src/services/AuthService.ts: the token and the
    user kept in the browser's key-value store, the login that fills them, the logout that
    removes them, and the two axios interceptors (the bearer header on every request,
    logout on a 401). The store is a field; the login response is an input. */
module AuthService {
  import opened Wrappers

  const TokenKey := "brand_auth_token"
  const UserKey := "brand_user"

  datatype BrandUser = BrandUser(id: string, name: string, email: string, brandId: string, role: string)

  /** A stored value: a plain string, or the JSON text of a user (JSON.stringify's output,
      which JSON.parse turns back into the same user). */
  datatype Stored = Str(s: string) | UserJson(user: BrandUser)

  /** What `/api/v1/brands/login` answered: the token (absent when the body has none) and
      the user. */
  datatype LoginResponse = LoginResponse(token: Option<string>, user: BrandUser)

  /** JavaScript's `String(value)` as setItem applies it: an absent token is stored as the
      text "undefined". */
  function StoredToken(token: Option<string>): string {
    if token.Some? then token.value else "undefined"
  }

  class AuthStore {
    var store: map<string, Stored>
    /** Where a 401 sends the browser, when it has. */
    var location: Option<string>

    /** Only a plain string is ever kept under the token key. */
    predicate Valid()
      reads this
    {
      TokenKey in store ==> store[TokenKey].Str?
    }

    constructor (initial: map<string, string>)
      ensures Valid() && location == None
      ensures store.Keys == initial.Keys && forall k :: k in initial ==> store[k] == Str(initial[k])
    {
      store := map k | k in initial :: Str(initial[k]);
      location := None;
    }

    /** Any other code writing a string to the store. */
    method SetItem(key: string, value: string)
      requires Valid()
      modifies this
      ensures Valid() && store == old(store)[key := Str(value)] && location == old(location)
    {
      store := store[key := Str(value)];
    }

    /** login: the response's token and user stored, and the user returned; a failed call
        rejects with its error and stores nothing. */
    method Login(response: Result<LoginResponse>) returns (r: Result<BrandUser>)
      requires Valid()
      modifies this
      ensures Valid() && location == old(location)
      ensures response.Err? ==> r == Err(response.error) && store == old(store)
      ensures response.Ok? ==>
        (r == Ok(response.value.user)
         && store == old(store)[TokenKey := Str(StoredToken(response.value.token))][UserKey := UserJson(response.value.user)])
      // The user reads back as stored; an absent token is stored as "undefined", which
      // still counts as a session.
      ensures response.Ok? ==>
        ((forall parse :: GetCurrentUser(parse) == Ok(Some(response.value.user)))
         && (IsAuthenticated() <==> response.value.token != Some("")))
    {
      if response.Err? {
        return Err(response.error);
      }
      store := store[TokenKey := Str(StoredToken(response.value.token))];
      store := store[UserKey := UserJson(response.value.user)];
      return Ok(response.value.user);
    }

    /** logout: both keys removed, every other key kept. */
    method Logout()
      requires Valid()
      modifies this
      ensures Valid() && location == old(location)
      ensures store == old(store) - {TokenKey, UserKey}
      ensures !IsAuthenticated() && forall parse :: GetCurrentUser(parse) == Ok(None)
    {
      store := store - {TokenKey};
      store := store - {UserKey};
    }

    /** getToken. */
    function GetToken(): (t: Option<string>)
      requires Valid()
      reads this
      ensures t.Some? <==> TokenKey in store
      ensures t.Some? ==> store[TokenKey] == Str(t.value)
    {
      if TokenKey in store then Some(store[TokenKey].s) else None
    }

    /** getCurrentUser, with `parse` for JSON.parse on stored text (null parses to None): no
        user for a missing or empty entry, the stored user for its JSON, and whatever
        parsing yields, a user, null or a rejection, for any other text. */
    function GetCurrentUser(parse: string -> Result<Option<BrandUser>>): (r: Result<Option<BrandUser>>)
      reads this
      ensures UserKey !in store || store[UserKey] == Str("") ==> r == Ok(None)
      ensures UserKey in store && store[UserKey].UserJson? ==> r == Ok(Some(store[UserKey].user))
      ensures UserKey in store && store[UserKey].Str? && store[UserKey].s != "" ==> r == parse(store[UserKey].s)
    {
      if UserKey !in store then Ok(None)
      else match store[UserKey]
        case UserJson(u) => Ok(Some(u))
        case Str(s) => if s == "" then Ok(None) else parse(s)
    }

    /** isAuthenticated: a stored, non-empty token. */
    function IsAuthenticated(): (b: bool)
      requires Valid()
      reads this
      ensures b <==> TokenKey in store && store[TokenKey] != Str("")
    {
      var t := GetToken();
      t.Some? && t.value != ""
    }

    /** The request interceptor: the bearer header added when a token is stored (and is not
        empty), the request's other headers untouched. */
    function WithAuthorization(headers: map<string, string>): (h: map<string, string>)
      requires Valid()
      reads this
      ensures IsAuthenticated() ==> h == headers["Authorization" := "Bearer " + GetToken().value]
      ensures !IsAuthenticated() ==> h == headers
    {
      var t := GetToken();
      if t.Some? && t.value != "" then headers["Authorization" := "Bearer " + t.value] else headers
    }

    /** The response interceptor for an error with the given status: a 401 logs out and
        sends the browser to /login; the error is passed on either way. */
    method OnResponseError(status: Option<int>, error: string) returns (r: Result<()>)
      requires Valid()
      modifies this
      ensures Valid() && r == Err(error)
      ensures status == Some(401) ==> store == old(store) - {TokenKey, UserKey} && location == Some("/login")
      ensures status == Some(401) ==> !IsAuthenticated() && forall parse :: GetCurrentUser(parse) == Ok(None)
      ensures status != Some(401) ==> store == old(store) && location == old(location)
    {
      if status == Some(401) {
        Logout();
        location := Some("/login");
      }
      return Err(error);
    }
  }
}
