/** The controller logic of the login screen.

    `CheckValid` is the form validator, a pure function of the two inputs and
    of the email/password predicates.  `LoginScreen` is the React component:
    its state fields become class fields that its handlers update, and
    everything it does to the outside world (alerts, redux dispatches,
    navigation, the forgot-password request, the native splash screen,
    timers) is appended to an event log. */
module Login {
  import opened Options
  import opened AuthActions

  /** A displayed string: a literal, or an i18n key whose translation for the
      current locale is opaque here. */
  datatype Text = Plain(s: string) | Localized(key: string)

  const PleaseInputEmail := "Please input email."
  const EmailNotValid := "Email is not valid."
  const InvalidEmailKey := "login.invalidEmail"
  const ResetSuccessKey := "forgotPassword.success"
  const ResetSuccessDescriptionKey := "forgotPassword.successDescription"
  const ResetInvalidDescriptionKey := "forgotPassword.invalidDescription"
  const MainStack := "MainStack"

  /** What `checkValid` returns: no error, or an error with its message. */
  datatype Check = Passed | Failed(msg: Text)

  /** The form validator.  The email is checked first; the password only when
      the email passes. */
  function CheckValid(email: string, password: string, isEmail: string -> bool, isPass: string -> bool): (r: Check)
    ensures r == Failed(Plain(PleaseInputEmail)) <==> !isEmail(email) && email == ""
    ensures r == Failed(Plain(EmailNotValid)) <==> !isEmail(email) && email != ""
    ensures r == Failed(Localized(InvalidEmailKey)) <==> isEmail(email) && !isPass(password)
    ensures r == Passed <==> isEmail(email) && isPass(password)
  {
    if !isEmail(email) then
      if email == "" then Failed(Plain(PleaseInputEmail)) else Failed(Plain(EmailNotValid))
    else if !isPass(password) then
      Failed(Localized(InvalidEmailKey))
    else
      Passed
  }

  /** An invalid email decides the outcome whatever the password is. */
  lemma EmailCheckedFirst(email: string, p1: string, p2: string, isEmail: string -> bool, isPass: string -> bool)
    requires !isEmail(email)
    ensures CheckValid(email, p1, isEmail, isPass) == CheckValid(email, p2, isEmail, isPass)
    ensures CheckValid(email, p1, isEmail, isPass).Failed?
  {
  }

  /** ASCII upper-casing, as `toUpperCase` acts on a locale code. */
  function Upper(s: string): (r: string)
    ensures |r| == |s|
    ensures forall i :: 0 <= i < |s| ==> if 'a' <= s[i] <= 'z' then r[i] == s[i] - 'a' + 'A' else r[i] == s[i]
  {
    if s == [] then []
    else [if 'a' <= s[0] <= 'z' then s[0] - 'a' + 'A' else s[0]] + Upper(s[1..])
  }

  /** The splash timer whose handle the component keeps.  The handle stays
      set once armed. */
  datatype Timer = NoTimer | Armed | Fired | Cleared

  /** The part of the redux auth state the screen reads from its props. */
  datatype AuthProps = AuthProps(fetchAuth: bool, signInError: Option<string>)

  /** What `onInitial` gets from local storage: the stored token and language
      (either may be missing), or a rejection of one of the two reads. */
  datatype StoredRead = Read(token: Option<string>, language: Option<string>) | ReadFails

  /** How the `forgotPassword` API call ends: a response or a rejection. */
  datatype ResetReply = Responded(success: bool) | Rejected

  /** Effects on the outside world, in order. */
  datatype Event =
    | ShowAlert(title: Text, message: Text)
    | Dispatch(action: Action)
    | Navigate(route: string)
    | RequestPasswordReset(email: string, locale: string)
    | HideNativeSplash
    | ClearTimeout
    | FocusPassword

  /** The dispatches the screen can make through its props: `login` and
      `getMe(token, true)`. */
  predicate ScreenDispatch(a: Action) {
    a.SignIn? || (a.GetMe? && a.directCall)
  }

  /** A snapshot of the component's state, for stating what a handler changes. */
  datatype State = State(
    email: string, password: string, forgotEmail: string,
    isShowForgotDialog: bool, showIndicator: bool, showSplash: bool,
    language: string, timeOut: Timer, log: seq<Event>)

  class LoginScreen {
    /** `checkEmail` and `checkPass` from the utilities, not modelled. */
    const checkEmail: string -> bool
    const checkPass: string -> bool
    /** The current i18n locale. */
    const locale: string

    var email: string
    var password: string
    var forgotEmail: string
    var isShowForgotDialog: bool
    var showIndicator: bool
    var showSplash: bool
    var language: string
    var timeOut: Timer
    var log: seq<Event>

    ghost function Snapshot(): State
      reads this
    {
      State(email, password, forgotEmail, isShowForgotDialog, showIndicator,
            showSplash, language, timeOut, log)
    }

    /** `showSplash` becomes false only after the timer was armed, and the
        timer's handle is never reset; every dispatch in the log is one the
        screen's props offer. */
    ghost predicate Valid()
      reads this
    {
      && (!showSplash ==> timeOut != NoTimer)
      && forall i :: 0 <= i < |log| && log[i].Dispatch? ==> ScreenDispatch(log[i].action)
    }

    constructor (checkEmail: string -> bool, checkPass: string -> bool, locale: string)
      ensures Valid()
      ensures this.checkEmail == checkEmail && this.checkPass == checkPass && this.locale == locale
      ensures Snapshot() == State("", "", "", false, false, true, "ENGLISH", NoTimer, [])
    {
      this.checkEmail, this.checkPass, this.locale := checkEmail, checkPass, locale;
      email, password, forgotEmail := "", "", "";
      isShowForgotDialog, showIndicator, showSplash := false, false, true;
      language, timeOut, log := "ENGLISH", NoTimer, [];
    }

    /** `onInitial` (all that `componentDidMount` does), with what it reads
        from local storage as input.  A stored token starts the auto-login;
        otherwise the splash timer is armed.  The reads are not guarded, so
        when one rejects the handler stops and changes nothing. */
    method OnInitial(read: StoredRead)
      requires Valid()
      modifies this
      ensures Valid()
      ensures read.ReadFails? ==> Snapshot() == old(Snapshot())
      ensures read.Read? ==>
        var s := old(Snapshot()).(language := if read.language == Some("en") then "ENGLISH" else old(language));
        Snapshot() ==
          if Truthy(read.token) then s.(log := old(log) + [Dispatch(GetMe(read.token.value, true))])
          else s.(timeOut := Armed)
    {
      if read.Read? {
        if read.language == Some("en") {
          language := "ENGLISH";
        }
        if Truthy(read.token) {
          log := log + [Dispatch(GetMe(read.token.value, true))];
        } else {
          timeOut := Armed;
        }
      }
    }

    /** The callback of the splash timer: hide the splash, then the native one. */
    method SplashTimerFires()
      requires Valid()
      modifies this
      ensures Valid()
      ensures Snapshot() ==
        if old(timeOut) == Armed then
          old(Snapshot()).(showSplash := false, timeOut := Fired, log := old(log) + [HideNativeSplash])
        else old(Snapshot())
    {
      if timeOut == Armed {
        showSplash := false;
        timeOut := Fired;
        log := log + [HideNativeSplash];
      }
    }

    /** `componentWillUnmount`: clear the timer when its handle is set. */
    method ComponentWillUnmount()
      requires Valid()
      modifies this
      ensures Valid()
      ensures Snapshot() ==
        if old(timeOut) == NoTimer then old(Snapshot())
        else old(Snapshot()).(timeOut := if old(timeOut) == Armed then Cleared else old(timeOut),
                              log := old(log) + [ClearTimeout])
    {
      if timeOut != NoTimer {
        log := log + [ClearTimeout];
        if timeOut == Armed {
          timeOut := Cleared;
        }
      }
    }

    /** `componentDidUpdate`: on the `fetchAuth` true-to-false edge, drop the
        indicator and either alert a newly set error or navigate on. */
    method ComponentDidUpdate(prev: AuthProps, props: AuthProps)
      requires Valid()
      modifies this
      ensures Valid()
      ensures Snapshot() ==
        if props.fetchAuth || !prev.fetchAuth then old(Snapshot())
        else if Truthy(props.signInError) && !Truthy(prev.signInError) then
          old(Snapshot()).(showIndicator := false,
                           log := old(log) + [ShowAlert(Plain(""), Plain(props.signInError.value)), HideNativeSplash])
        else
          old(Snapshot()).(showIndicator := false, log := old(log) + [Navigate(MainStack)])
    {
      if !props.fetchAuth && prev.fetchAuth {
        showIndicator := false;
        if Truthy(props.signInError) && !Truthy(prev.signInError) {
          log := log + [ShowAlert(Plain(""), Plain(props.signInError.value)), HideNativeSplash];
        } else {
          log := log + [Navigate(MainStack)];
        }
      }
    }

    /** `onChangeInput`: index 0 is the email field, any other the password. */
    method OnChangeInput(index: int, text: string)
      requires Valid()
      modifies this
      ensures Valid()
      ensures Snapshot() ==
        if index == 0 then old(Snapshot()).(email := text) else old(Snapshot()).(password := text)
    {
      if index == 0 {
        email := text;
      } else {
        password := text;
      }
    }

    /** `onLogin`: dispatch the sign-in with the current inputs when they pass
        `checkValid`, otherwise only alert its message. */
    method OnLogin()
      requires Valid()
      modifies this
      ensures Valid()
      ensures var r := CheckValid(old(email), old(password), checkEmail, checkPass);
        Snapshot() ==
          if r.Failed? then old(Snapshot()).(log := old(log) + [ShowAlert(Plain(""), r.msg)])
          else old(Snapshot()).(showIndicator := true, log := old(log) + [Dispatch(SignIn(old(email), old(password)))])
    {
      var ret := CheckValid(email, password, checkEmail, checkPass);
      if ret.Failed? {
        log := log + [ShowAlert(Plain(""), ret.msg)];
      } else {
        showIndicator := true;
        log := log + [Dispatch(SignIn(email, password))];
      }
    }

    /** `onSubmitEdit` on the email field: alert exactly the email message of
        `checkValid`, or move the focus to the password field. */
    method OnSubmitEdit()
      requires Valid()
      modifies this
      ensures Valid()
      ensures Snapshot() == old(Snapshot()).(log := old(log) + [
        if checkEmail(old(email)) then FocusPassword
        else ShowAlert(Plain(""), CheckValid(old(email), old(password), checkEmail, checkPass).msg)])
    {
      if !checkEmail(email) {
        if email == "" {
          log := log + [ShowAlert(Plain(""), Plain(PleaseInputEmail))];
        } else {
          log := log + [ShowAlert(Plain(""), Plain(EmailNotValid))];
        }
      } else {
        log := log + [FocusPassword];
      }
    }

    /** `forgotPassword`, with the API's reply as an input.  The request is
        made only for a valid email; a rejected request leaves the
        indicator on and shows nothing. */
    method ForgotPassword(address: string, reply: ResetReply)
      requires Valid()
      modifies this
      ensures Valid()
      ensures var s := old(Snapshot()).(forgotEmail := address, isShowForgotDialog := false, showIndicator := true);
        Snapshot() ==
          if !checkEmail(address) then
            s.(log := old(log) + [ShowAlert(Plain(""), Localized(ResetInvalidDescriptionKey))])
          else if reply.Rejected? then
            s.(log := old(log) + [RequestPasswordReset(address, Upper(locale))])
          else
            s.(showIndicator := false,
               log := old(log) + [RequestPasswordReset(address, Upper(locale)),
                                  if reply.success then ShowAlert(Localized(ResetSuccessKey), Localized(ResetSuccessDescriptionKey))
                                  else ShowAlert(Plain(""), Localized(ResetInvalidDescriptionKey))])
    {
      forgotEmail, isShowForgotDialog := address, false;
      showIndicator := true;
      if checkEmail(forgotEmail) {
        log := log + [RequestPasswordReset(address, Upper(locale))];
        if reply.Responded? {
          showIndicator := false;
          if reply.success {
            log := log + [ShowAlert(Localized(ResetSuccessKey), Localized(ResetSuccessDescriptionKey))];
          } else {
            log := log + [ShowAlert(Plain(""), Localized(ResetInvalidDescriptionKey))];
          }
        }
      } else {
        log := log + [ShowAlert(Plain(""), Localized(ResetInvalidDescriptionKey))];
      }
    }
  }
}
