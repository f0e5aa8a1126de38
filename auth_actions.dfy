/** The redux actions of the authentication flow (the `AuthActions` creators)
    and the fixed failure messages the sagas attach to them. */
module AuthActions {

  datatype Action =
    | SignIn(email: string, password: string)        // AuthActions.signIn
    | GetMe(token: string, directCall: bool)         // AuthActions.getMe
    | SignInSuccess(token: string)                   // AuthActions.signInSuccess
    | RequestAuthFailed(message: string)             // AuthActions.requestAuthFailed

  /** Message for any exception caught while signing in or fetching the profile. */
  const NetworkLost := "Network Connection Lost!"
  /** Message when the server rejects the credentials without saying why. */
  const WrongLogin := "Wrong Login information"
  /** Message when clearing the local storage throws. */
  const SignOutFailed := "Sign Out Failed"
}
