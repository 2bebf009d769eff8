/** The client session (AuthContext): the token kept in `localStorage`, the
    decoded `user` claims and the `loading` flag, with the restore-at-startup
    effect and the `login`, `register` and `logout` operations. */
module Auth {
  import opened Common

  /** The claims the client reads from a decoded token: the subject (the
      user's e-mail) and the expiry in epoch seconds. */
  datatype Claims = Claims(sub: Option<string>, exp: Option<int>)

  /** `jwt_decode`: a partial map from a token to its claims, None where it throws. */
  type Decoder = string -> Option<Claims>

  /** The `localStorage` key the token is kept under. */
  const TokenKey: string := "token"

  /** The browser's `localStorage`: one string map shared by the session and
      the request interceptor. */
  class Storage {
    var items: map<string, string>

    constructor (items: map<string, string>)
      ensures this.items == items
    {
      this.items := items;
    }
  }

  /** `localStorage.getItem('token')`, None standing for `null`. */
  function StoredToken(items: map<string, string>): (r: Option<string>)
    ensures r.Some? <==> TokenKey in items
    ensures r.Some? ==> r.value == items[TokenKey]
  {
    if TokenKey in items then Some(items[TokenKey]) else None
  }

  /** `decodedUser.exp * 1000 > Date.now()`, `now` in milliseconds. A missing
      `exp` makes the product NaN, which is never greater. */
  predicate Unexpired(c: Claims, now: int)
    ensures Unexpired(c, now) ==> c.exp.Some?
    ensures c.exp.Some? ==> (Unexpired(c, now) <==> now < c.exp.value * 1000)
  {
    c.exp.Some? && c.exp.value * 1000 > now
  }

  /** The session as a value: storage contents, `user` and `loading`. */
  datatype Session = Session(items: map<string, string>, user: Option<Claims>, loading: bool)

  /** How an awaited session operation settles. */
  datatype Completion = Fulfilled | Thrown(error: Error)

  /** The provider as first rendered: no user, loading. */
  function Initial(items: map<string, string>): Session
  {
    Session(items, None, true)
  }

  /** The restore effect run once on mount: a truthy stored token is decoded;
      unexpired claims become the user, an expired or undecodable token is
      removed. Loading ends in every branch. */
  function Restored(s: Session, now: int, decode: Decoder): (r: Session)
    ensures !r.loading
    ensures r.items - {TokenKey} == s.items - {TokenKey}
    ensures TokenKey in r.items ==> TokenKey in s.items && r.items[TokenKey] == s.items[TokenKey]
    ensures r.user != s.user ==>
              Truthy(StoredToken(s.items)) && r.user.Some? && r.user == decode(s.items[TokenKey]) && Unexpired(r.user.value, now)
  {
    var token := StoredToken(s.items);
    var after :=
      if !Truthy(token) then s
      else match decode(token.value)
        case None => s.(items := s.items - {TokenKey})
        case Some(c) =>
          if Unexpired(c, now) then s.(user := Some(c)) else s.(items := s.items - {TokenKey});
    after.(loading := false)
  }

  /** `login`: the token request either fails (nothing changes, its error is
      rethrown) or yields `access_token`, which is stored BEFORE it is decoded;
      a decode that throws leaves the token stored and the user unchanged. */
  function LoginStep(s: Session, response: Outcome<string>, decode: Decoder): (r: (Session, Completion))
    ensures r.0.loading == s.loading
    ensures r.0.items - {TokenKey} == s.items - {TokenKey}
    ensures response.Rejected? ==> r == (s, Thrown(response.error))
    ensures response.Resolved? ==> StoredToken(r.0.items) == Some(response.value)
    ensures r.1.Fulfilled? <==> response.Resolved? && decode(response.value).Some?
    ensures r.1.Fulfilled? ==> r.0.user == decode(response.value)
    ensures r.1.Thrown? ==> r.0.user == s.user
  {
    match response
    case Rejected(e) => (s, Thrown(e))
    case Resolved(token) =>
      var stored := s.(items := s.items[TokenKey := token]);
      match decode(token)
      case None => (stored, Thrown(Error(None)))
      case Some(c) => (stored.(user := Some(c)), Fulfilled)
  }

  /** `logout`: the token is removed and the user cleared. */
  function LoggedOut(s: Session): (r: Session)
    ensures r.user.None? && TokenKey !in r.items
    ensures r.items == s.items - {TokenKey} && r.loading == s.loading
  {
    s.(items := s.items - {TokenKey}, user := None)
  }

  /** `register`: the registration request's settlement, rethrown on failure. */
  function RegisterStep(response: Outcome<()>): (c: Completion)
    ensures c.Fulfilled? <==> response.Resolved?
    ensures response.Rejected? ==> c.error == response.error
  {
    match response
    case Resolved(_) => Fulfilled
    case Rejected(e) => Thrown(e)
  }

  /** The session agrees with storage: there is a user exactly when a truthy
      token is stored, and the user is what that token decodes to. */
  ghost predicate Consistent(s: Session, decode: Decoder)
  {
    && (s.user.Some? <==> Truthy(StoredToken(s.items)))
    && (s.user.Some? ==> decode(s.items[TokenKey]) == s.user)
  }

  /** Restoring at startup leaves a consistent session, whatever is stored. */
  lemma RestoreConsistent(items: map<string, string>, now: int, decode: Decoder)
    ensures Consistent(Restored(Initial(items), now, decode), decode)
  {
  }

  /** Restore against the clock: a stored token whose claims expire at `exp`
      seconds is kept, and its claims become the user, exactly when the
      restore runs before `exp * 1000` milliseconds; otherwise it is purged. */
  lemma RestoreAgainstClock(s: Session, now: int, decode: Decoder, c: Claims)
    requires s.user.None? && Truthy(StoredToken(s.items))
    requires decode(s.items[TokenKey]) == Some(c) && c.exp.Some?
    ensures Restored(s, now, decode).user == Some(c) <==> now < c.exp.value * 1000
    ensures TokenKey in Restored(s, now, decode).items <==> now < c.exp.value * 1000
  {
  }

  /** Restore with a token that does not decode: the token is removed and the user stays as it was. */
  lemma RestoreUndecodable(s: Session, now: int, decode: Decoder)
    requires Truthy(StoredToken(s.items)) && decode(s.items[TokenKey]).None?
    ensures Restored(s, now, decode) == Session(s.items - {TokenKey}, s.user, false)
  {
  }

  /** Restore with no token (or the empty string) stored changes neither storage nor the user. */
  lemma RestoreWithoutToken(s: Session, now: int, decode: Decoder)
    requires !Truthy(StoredToken(s.items))
    ensures Restored(s, now, decode) == s.(loading := false)
  {
  }

  /** A successful login from a consistent session leaves it consistent,
      given that the empty token never decodes. */
  lemma LoginSuccessConsistent(s: Session, token: string, decode: Decoder)
    requires decode("").None? && decode(token).Some?
    ensures LoginStep(s, Resolved(token), decode).1 == Fulfilled
    ensures Consistent(LoginStep(s, Resolved(token), decode).0, decode)
  {
  }

  /** `login` is not atomic: from the signed-out session, a token that the
      server issues but that does not decode stays stored with no user, so the
      session is no longer consistent (and the interceptor will send it). */
  lemma LoginNotAtomic(items: map<string, string>, token: string, decode: Decoder)
    requires token != "" && decode(token).None?
    ensures var r := LoginStep(Session(items, None, false), Resolved(token), decode);
      r.1.Thrown? && StoredToken(r.0.items) == Some(token) && r.0.user.None? && !Consistent(r.0, decode)
  {
  }

  /** Logging out is idempotent and always ends consistent. */
  lemma LogoutIdempotent(s: Session, decode: Decoder)
    ensures LoggedOut(LoggedOut(s)) == LoggedOut(s)
    ensures Consistent(LoggedOut(s), decode)
  {
  }

  /** Logging in and then restoring one millisecond after the token's expiry
      ends signed out with the token gone. */
  lemma LoginThenRestoreAfterExpiry(s: Session, token: string, decode: Decoder, c: Claims)
    requires token != "" && decode(token) == Some(c) && c.exp.Some?
    ensures var after := Restored(Initial(LoginStep(s, Resolved(token), decode).0.items), c.exp.value * 1000 + 1, decode);
      after.user.None? && TokenKey !in after.items
  {
  }

  /** The provider component: its state lives in `user` and `loading`, the
      token in the shared storage. */
  class AuthProvider {
    const storage: Storage
    var user: Option<Claims>
    var loading: bool

    function State(): Session
      reads this, storage
    {
      Session(storage.items, user, loading)
    }

    constructor (storage: Storage)
      ensures this.storage == storage
      ensures State() == Initial(storage.items)
    {
      this.storage := storage;
      user := None;
      loading := true;
    }

    /** Children are rendered only once loading has ended. */
    function RendersChildren(): (r: bool)
      reads this
      ensures r <==> !loading
    {
      !loading
    }

    /** The mount effect; `now` is `Date.now()`. */
    method Restore(now: int, decode: Decoder)
      modifies this, storage
      ensures State() == Restored(old(State()), now, decode)
    {
      var token := StoredToken(storage.items);
      if Truthy(token) {
        match decode(token.value) {
          case None =>
            storage.items := storage.items - {TokenKey};
          case Some(c) =>
            if Unexpired(c, now) {
              user := Some(c);
            } else {
              storage.items := storage.items - {TokenKey};
            }
        }
      }
      loading := false;
    }

    /** `login(email, password)`; `response` is how the token request settles. */
    method Login(email: string, password: string, response: Outcome<string>, decode: Decoder)
      returns (c: Completion)
      modifies this, storage
      ensures (State(), c) == LoginStep(old(State()), response, decode)
    {
      match response {
        case Rejected(e) =>
          return Thrown(e);
        case Resolved(token) =>
          storage.items := storage.items[TokenKey := token];
          match decode(token) {
            case None =>
              return Thrown(Error(None));
            case Some(claims) =>
              user := Some(claims);
              return Fulfilled;
          }
      }
    }

    /** `register(email, password)`: touches neither storage nor the user. */
    method Register(email: string, password: string, response: Outcome<()>) returns (c: Completion)
      ensures c == RegisterStep(response)
    {
      c := if response.Resolved? then Fulfilled else Thrown(response.error);
    }

    method Logout()
      modifies this, storage
      ensures State() == LoggedOut(old(State()))
    {
      storage.items := storage.items - {TokenKey};
      user := None;
    }
  }
}
