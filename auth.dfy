/**
 * `lib/auth-context.tsx`: the session state behind `AuthProvider`. It holds
 * the signed-in user, a loading flag and an error message, the token in
 * local storage, and the Authorization header of the shared GraphQL client.
 * The outcome of each remote call is a parameter. A failure carries the
 * thrown error's message, which may be empty.
 */
module Auth {
  import opened Wrappers
  import Text

  datatype User = User(id: string, firstName: string, lastName: string, email: string, icon: string)

  /** What one awaited `executeGraphQL` call produced. */
  datatype Remote<+T> = Succeeded(data: T) | Failed(message: string)

  /** The `login` / `signup` payload: a token and the user it belongs to. */
  datatype Session = Session(token: string, user: User)

  const TokenKey := "auth_token"
  const FetchUserFailed := "ユーザー情報の取得に失敗しました。"
  const LoginFailed := "ログインに失敗しました。"
  const SendCodeFailed := "認証コードの送信に失敗しました。"
  const SignupFailed := "登録に失敗しました。"

  /** The header `setAuthToken` installs. */
  function Bearer(token: string): string {
    "Bearer " + token
  }

  class AuthSession {
    var user: Option<User>
    var loading: bool
    var error: Option<string>
    var storage: map<string, string>
    /** The client's Authorization header; `None` once `removeAuthToken` cleared the headers. */
    var authHeader: Option<string>

    /** The stored token, when it is truthy. */
    function StoredToken(): Option<string>
      reads this
    {
      if TokenKey in storage && storage[TokenKey] != "" then Some(storage[TokenKey]) else None
    }

    /**
     * The client sends exactly the stored token, and a signed-in user always
     * has one.
     */
    ghost predicate Valid()
      reads this
    {
      (authHeader == if StoredToken().Some? then Some(Bearer(StoredToken().value)) else None) &&
      (user.Some? ==> StoredToken().Some?)
    }

    /**
     * Mounting the provider. With a stored token the header is installed
     * and `fetchUser` runs with outcome `me`; without one loading just ends.
     */
    constructor (storage: map<string, string>, me: Remote<Option<User>>)
      ensures Valid() && !loading
      ensures !(TokenKey in storage && storage[TokenKey] != "") ==>
        user == None && error == None && this.storage == storage
      ensures TokenKey in storage && storage[TokenKey] != "" ==>
        match me
        case Succeeded(u) => user == u && error == None && this.storage == storage
        case Failed(msg) =>
          user == None && error == Some(Text.Or(msg, FetchUserFailed)) && this.storage == storage - {TokenKey}
    {
      this.storage := storage;
      user := None;
      loading := true;
      error := None;
      authHeader := None;
      new;
      if TokenKey in storage && storage[TokenKey] != "" {
        authHeader := Some(Bearer(storage[TokenKey]));
        FetchUser(me);
      } else {
        loading := false;
      }
    }

    /** `fetchUser`: a failure signs the client out; success with `me` present sets the user. */
    method FetchUser(me: Remote<Option<User>>)
      requires Valid() && user.None? && StoredToken().Some?
      modifies this
      ensures Valid() && !loading
      ensures match me
        case Succeeded(u) =>
          user == (if u.Some? then u else old(user)) && error == old(error)
          && storage == old(storage) && authHeader == old(authHeader)
        case Failed(msg) =>
          user == old(user) && error == Some(Text.Or(msg, FetchUserFailed))
          && storage == old(storage) - {TokenKey} && authHeader == None
    {
      match me {
      case Succeeded(u) =>
        if u.Some? {
          user := u;
        }
      case Failed(msg) =>
        storage := storage - {TokenKey};
        authHeader := None;
        error := Some(Text.Or(msg, FetchUserFailed));
      }
      loading := false;
    }

    /** `login`: a truthy token signs in; a failure is reported in `error` and not rethrown. */
    method Login(email: string, password: string, outcome: Remote<Session>)
      requires Valid()
      modifies this
      ensures Valid() && !loading
      ensures match outcome
        case Succeeded(d) =>
          error == None &&
          if d.token != "" then
            user == Some(d.user) && storage == old(storage)[TokenKey := d.token]
          else
            user == old(user) && storage == old(storage) && authHeader == old(authHeader)
        case Failed(msg) =>
          error == Some(Text.Or(msg, LoginFailed))
          && user == old(user) && storage == old(storage) && authHeader == old(authHeader)
    {
      loading := true;
      error := None;
      match outcome {
      case Succeeded(d) =>
        if d.token != "" {
          storage := storage[TokenKey := d.token];
          authHeader := Some(Bearer(d.token));
          user := Some(d.user);
        }
      case Failed(msg) =>
        error := Some(Text.Or(msg, LoginFailed));
      }
      loading := false;
    }

    /** `sendVerificationCode`: touches neither user nor token, and rethrows a failure. */
    method SendVerificationCode(email: string, outcome: Remote<bool>) returns (thrown: Option<string>)
      requires Valid()
      modifies this
      ensures Valid() && !loading
      ensures user == old(user) && storage == old(storage) && authHeader == old(authHeader)
      ensures match outcome
        case Succeeded(_) => error == None && thrown == None
        case Failed(msg) => error == Some(Text.Or(msg, SendCodeFailed)) && thrown == Some(msg)
    {
      loading := true;
      error := None;
      thrown := None;
      match outcome {
      case Succeeded(_) =>
      case Failed(msg) =>
        error := Some(Text.Or(msg, SendCodeFailed));
        thrown := Some(msg);
      }
      loading := false;
    }

    /** `signup`: like `login`, but the failure is rethrown to the form. */
    method Signup(firstName: string, lastName: string, email: string, password: string,
                  icon: string, vcode: string, outcome: Remote<Session>) returns (thrown: Option<string>)
      requires Valid()
      modifies this
      ensures Valid() && !loading
      ensures match outcome
        case Succeeded(d) =>
          error == None && thrown == None &&
          if d.token != "" then
            user == Some(d.user) && storage == old(storage)[TokenKey := d.token]
          else
            user == old(user) && storage == old(storage) && authHeader == old(authHeader)
        case Failed(msg) =>
          error == Some(Text.Or(msg, SignupFailed)) && thrown == Some(msg)
          && user == old(user) && storage == old(storage) && authHeader == old(authHeader)
    {
      loading := true;
      error := None;
      thrown := None;
      match outcome {
      case Succeeded(d) =>
        if d.token != "" {
          storage := storage[TokenKey := d.token];
          authHeader := Some(Bearer(d.token));
          user := Some(d.user);
        }
      case Failed(msg) =>
        error := Some(Text.Or(msg, SignupFailed));
        thrown := Some(msg);
      }
      loading := false;
    }

    /** `logout`: local only; `loading` and `error` are left as they are. */
    method Logout()
      requires Valid()
      modifies this
      ensures Valid()
      ensures user == None && storage == old(storage) - {TokenKey} && authHeader == None
      ensures loading == old(loading) && error == old(error)
    {
      storage := storage - {TokenKey};
      authHeader := None;
      user := None;
    }
  }
}
