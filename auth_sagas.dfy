/** The authentication sagas `signIn`, `getMe` and `signOut`.

    Each saga is a straight-line generator: it calls into code outside the
    file (`login`, `getMeApi`, `getHomeInfo`, `LocalStorage.clearStorage`) and
    puts redux actions, inside one try/catch.  Here the outcome of every
    external call is an input, and a saga is a function from those outcomes to
    the ordered trace of effects it performs; `Emitted` projects the trace
    onto the actions it puts. */
module AuthSagas {
  import opened Options
  import opened AuthActions

  /** How a call whose result the saga ignores ends. */
  datatype CallOutcome = Completes | Throws

  /** What the login request resolves to: a falsy value, or a response with
      its auth flag, its token and an optional error message. */
  datatype LoginReply =
    | NullReply
    | Reply(auth: bool, token: string, errorMessage: Option<string>)

  /** `login` either resolves to a reply or throws (its promise rejects). */
  datatype LoginOutcome = Returns(reply: LoginReply) | LoginThrows

  /** Clearing the local storage is started without being awaited: it either
      finishes, throws synchronously, or returns a promise that rejects later. */
  datatype StorageOutcome = Cleared | ThrowsNow | RejectsLater

  /** The outcomes of the two fetches of one run of `getMe`. */
  datatype Fetches = Fetches(getMeApi: CallOutcome, getHomeInfo: CallOutcome)

  /** The outcomes of the network calls during one run of `signIn`. */
  datatype Backend = Backend(login: LoginOutcome, fetches: Fetches)

  /** One effect of a saga, in the order it happens. */
  datatype Effect =
    | CallLogin(email: string, password: string)   // the login request with the credentials
    | CallGetMeApi(token: string)                   // the profile request with the token
    | CallGetHomeInfo                               // the home-data fetch
    | RunGetMe(token: string, directCall: bool)     // running the getMe saga to completion
    | ClearStorage                                  // clearing the local storage
    | Put(action: Action)                           // dispatching a redux action

  /** The actions a trace puts, in order. */
  function Emitted(t: seq<Effect>): (acts: seq<Action>)
    ensures |acts| <= |t|
    ensures forall a :: a in acts <==> Put(a) in t
  {
    if t == [] then []
    else (if t[0].Put? then [t[0].action] else []) + Emitted(t[1..])
  }

  lemma {:induction false} EmittedAppend(s: seq<Effect>, t: seq<Effect>)
    ensures Emitted(s + t) == Emitted(s) + Emitted(t)
  {
    if s == [] {
      assert s + t == t;
    } else {
      assert (s + t)[0] == s[0];
      assert (s + t)[1..] == s[1..] + t;
      EmittedAppend(s[1..], t);
    }
  }

  /** The message the server supplied with its reply, if any. */
  function ServerMessage(o: LoginOutcome): Option<string> {
    if o.Returns? && o.reply.Reply? then o.reply.errorMessage else None
  }

  /** The message of a rejected login: the reply's error message when it
      carries one, the fixed default otherwise. */
  function RejectionMessage(r: LoginReply): (m: string)
    ensures r.Reply? && r.errorMessage.Some? ==> m == r.errorMessage.value
    ensures !(r.Reply? && r.errorMessage.Some?) ==> m == WrongLogin
  {
    if r.Reply? && r.errorMessage.Some? then r.errorMessage.value else WrongLogin
  }

  /** Every failure among `acts` carries one of the three fixed messages or
      the message `server` supplied. */
  predicate KnownFailures(acts: seq<Action>, server: Option<string>) {
    forall a :: a in acts && a.RequestAuthFailed? ==>
      a.message in {NetworkLost, WrongLogin, SignOutFailed} || server == Some(a.message)
  }

  /** The `getMe` saga: fetch the profile, then the home data, and report
      success only when called directly (the auto-login path).  It never
      calls `login`. */
  function GetMe(token: string, directCall: bool, f: Fetches): (t: seq<Effect>)
    ensures |t| > 0 && t[0] == CallGetMeApi(token)
    ensures forall e :: e in t ==> !e.CallLogin?
    ensures |Emitted(t)| <= 1
    ensures forall a :: a in Emitted(t) ==> a == RequestAuthFailed(NetworkLost) || a == SignInSuccess(token)
  {
    if f.getMeApi == Throws then
      [CallGetMeApi(token), Put(RequestAuthFailed(NetworkLost))]
    else if f.getHomeInfo == Throws then
      [CallGetMeApi(token), CallGetHomeInfo, Put(RequestAuthFailed(NetworkLost))]
    else if directCall then
      [CallGetMeApi(token), CallGetHomeInfo, Put(SignInSuccess(token))]
    else
      [CallGetMeApi(token), CallGetHomeInfo]
  }

  /** The `signIn` saga: log in, and on an accepted reply run `getMe` with the
      returned token before reporting success. */
  function SignIn(email: string, password: string, b: Backend): (t: seq<Effect>)
    ensures |t| > 0 && t[0] == CallLogin(email, password)
    ensures |Emitted(t)| <= 2
    ensures KnownFailures(Emitted(t), ServerMessage(b.login))
  {
    [CallLogin(email, password)] +
      match b.login
      case LoginThrows => [Put(RequestAuthFailed(NetworkLost))]
      case Returns(r) =>
        if r.Reply? && r.auth then
          var inner := GetMe(r.token, false, b.fetches);
          EmittedAppend([RunGetMe(r.token, false)], inner);
          EmittedAppend([RunGetMe(r.token, false)] + inner, [Put(SignInSuccess(r.token))]);
          [RunGetMe(r.token, false)] + inner + [Put(SignInSuccess(r.token))]
        else [Put(RequestAuthFailed(RejectionMessage(r)))]
  }

  /** The `signOut` saga: clear the storage, reporting a failure only when the
      call throws before returning. */
  function SignOut(s: StorageOutcome): (t: seq<Effect>)
    ensures |t| > 0 && t[0] == ClearStorage
    ensures |Emitted(t)| <= 1
    ensures KnownFailures(Emitted(t), None)
  {
    [ClearStorage] + if s == ThrowsNow then [Put(RequestAuthFailed(SignOutFailed))] else []
  }

  // ---------------------------------------------------------------------
  // signIn

  /** A falsy reply or one whose auth flag is false: one failure, with the server's
      message when it sent one, and `getMe` is never run. */
  lemma SignInRejected(email: string, password: string, b: Backend)
    requires b.login.Returns? && !(b.login.reply.Reply? && b.login.reply.auth)
    ensures var r := b.login.reply;
      r.Reply? && r.errorMessage.Some? ==>
        Emitted(SignIn(email, password, b)) == [RequestAuthFailed(r.errorMessage.value)]
    ensures var r := b.login.reply;
      !(r.Reply? && r.errorMessage.Some?) ==>
        Emitted(SignIn(email, password, b)) == [RequestAuthFailed(WrongLogin)]
    ensures forall e :: e in SignIn(email, password, b) ==> !e.RunGetMe? && !e.CallGetMeApi?
  {
  }

  /** A thrown `login`: exactly the network failure, never a success. */
  lemma SignInLoginThrows(email: string, password: string, b: Backend)
    requires b.login == LoginThrows
    ensures Emitted(SignIn(email, password, b)) == [RequestAuthFailed(NetworkLost)]
  {
  }

  /** The trace of `signIn` on an accepted reply. */
  lemma SignInAcceptedTrace(email: string, password: string, b: Backend)
    requires b.login.Returns? && b.login.reply.Reply? && b.login.reply.auth
    ensures var token := b.login.reply.token;
      SignIn(email, password, b)
        == [CallLogin(email, password), RunGetMe(token, false)] + GetMe(token, false, b.fetches) + [Put(SignInSuccess(token))]
  {
  }

  /** On an accepted reply `signIn` emits what `getMe` emits, then the success. */
  lemma SignInAcceptedEmits(email: string, password: string, b: Backend)
    requires b.login.Returns? && b.login.reply.Reply? && b.login.reply.auth
    ensures var token := b.login.reply.token;
      Emitted(SignIn(email, password, b)) == Emitted(GetMe(token, false, b.fetches)) + [SignInSuccess(token)]
  {
    var token := b.login.reply.token;
    var pre, inner, post := [CallLogin(email, password), RunGetMe(token, false)], GetMe(token, false, b.fetches), [Put(SignInSuccess(token))];
    SignInAcceptedTrace(email, password, b);
    assert Emitted(pre) == [];
    assert Emitted(post) == [SignInSuccess(token)];
    EmittedAppend(pre, inner);
    EmittedAppend(pre + inner, post);
  }

  /** An accepted reply: `getMe` runs next with the returned token and no
      `directCall`, its effects follow, and the success comes last. */
  lemma SignInAccepted(email: string, password: string, b: Backend)
    requires b.login.Returns? && b.login.reply.Reply? && b.login.reply.auth
    ensures var t, token := SignIn(email, password, b), b.login.reply.token;
      && |t| >= 3
      && t[1] == RunGetMe(token, false)
      && t[2..|t| - 1] == GetMe(token, false, b.fetches)
      && t[|t| - 1] == Put(SignInSuccess(token))
    ensures var acts := Emitted(SignIn(email, password, b));
      |acts| > 0 && acts[|acts| - 1] == SignInSuccess(b.login.reply.token)
  {
    var t, token := SignIn(email, password, b), b.login.reply.token;
    var pre, inner, post := [CallLogin(email, password), RunGetMe(token, false)], GetMe(token, false, b.fetches), [Put(SignInSuccess(token))];
    SignInAcceptedTrace(email, password, b);
    assert t == pre + inner + post;
    assert t[2..|t| - 1] == inner;
    SignInAcceptedEmits(email, password, b);
  }

  /** An accepted reply whose profile or home fetch throws: `getMe` swallows
      the exception, so a failure is followed by a success. */
  lemma SignInProfileFails(email: string, password: string, b: Backend)
    requires b.login.Returns? && b.login.reply.Reply? && b.login.reply.auth
    requires b.fetches.getMeApi == Throws || b.fetches.getHomeInfo == Throws
    ensures Emitted(SignIn(email, password, b))
      == [RequestAuthFailed(NetworkLost), SignInSuccess(b.login.reply.token)]
  {
    SignInAcceptedEmits(email, password, b);
    GetMeFails(b.login.reply.token, false, b.fetches);
  }

  /** An accepted reply and both fetches completing: only the success. */
  lemma SignInCompletes(email: string, password: string, b: Backend)
    requires b.login.Returns? && b.login.reply.Reply? && b.login.reply.auth
    requires b.fetches.getMeApi == Completes && b.fetches.getHomeInfo == Completes
    ensures Emitted(SignIn(email, password, b)) == [SignInSuccess(b.login.reply.token)]
  {
    SignInAcceptedEmits(email, password, b);
    GetMeCompletes(b.login.reply.token, false, b.fetches);
  }

  /** `signIn` reports success, and then for the token `token`, exactly when
      the server accepted the credentials and returned that token. */
  lemma SignInSuccessIff(email: string, password: string, b: Backend, token: string)
    ensures SignInSuccess(token) in Emitted(SignIn(email, password, b))
      <==> b.login.Returns? && b.login.reply.Reply? && b.login.reply.auth && b.login.reply.token == token
  {
  }

  // ---------------------------------------------------------------------
  // getMe

  /** Either fetch throwing: exactly the network failure.  When `getMeApi`
      throws, `getHomeInfo` is never called. */
  lemma GetMeFails(token: string, directCall: bool, f: Fetches)
    requires f.getMeApi == Throws || f.getHomeInfo == Throws
    ensures Emitted(GetMe(token, directCall, f)) == [RequestAuthFailed(NetworkLost)]
    ensures f.getMeApi == Throws ==> CallGetHomeInfo !in GetMe(token, directCall, f)
  {
  }

  /** Both fetches completing: the success for the unchanged input token when
      called directly, nothing otherwise.  The profile itself is not used. */
  lemma GetMeCompletes(token: string, directCall: bool, f: Fetches)
    requires f.getMeApi == Completes && f.getHomeInfo == Completes
    ensures Emitted(GetMe(token, directCall, f)) == if directCall then [SignInSuccess(token)] else []
    ensures GetMe(token, directCall, f)[..2] == [CallGetMeApi(token), CallGetHomeInfo]
  {
  }

  // ---------------------------------------------------------------------
  // signOut

  /** Only a synchronous throw of `clearStorage` is reported; a later
      rejection of its promise escapes the try/catch. */
  lemma SignOutReports(s: StorageOutcome)
    ensures Emitted(SignOut(s)) == if s == ThrowsNow then [RequestAuthFailed(SignOutFailed)] else []
  {
  }
}
