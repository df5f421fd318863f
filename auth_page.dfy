/** The sign-in / registration page: its form handler, which signs in or
    registers depending on the mode, and its Google sign-in handler. */
module AuthPage {
  import opened Wrappers
  import opened Sdk
  import opened Messages
  import opened Firebase

  /** The text a failed email/password sign-in throws. It depends on the
      error code alone, so it never tells which of email or password was wrong. */
  function LoginErrorMessage(code: Option<string>): (message: string)
    ensures message == WrongCredentialsMessage <==> code == Some(InvalidLoginCredentialsCode)
    ensures message != WrongCredentialsMessage ==> message == LoginFailedMessage
  {
    if code == Some(InvalidLoginCredentialsCode) then WrongCredentialsMessage else LoginFailedMessage
  }

  /** The text a failed registration throws. */
  function RegisterErrorMessage(code: Option<string>): (message: string)
    ensures message == EmailInUseMessage <==> code == Some(EmailInUseCode)
    ensures message != EmailInUseMessage ==> message == RegistrationFailedMessage
  {
    if code == Some(EmailInUseCode) then EmailInUseMessage else RegistrationFailedMessage
  }

  /** The outer catch: `err.message || fallback`. */
  function ShownError(message: string): (shown: string)
    ensures shown != ""
    ensures message != "" ==> shown == message
    ensures message == "" ==> shown == FallbackMessage
  {
    if message != "" then message else FallbackMessage
  }

  /** The page's component state. */
  class Auth {
    var isLogin: bool
    var email: string
    var password: string
    var showGiftModal: bool
    var error: string

    constructor ()
      ensures isLogin && email == "" && password == "" && !showGiftModal && error == ""
    {
      isLogin := true;
      email := "";
      password := "";
      showGiftModal := false;
      error := "";
    }

    /** `handleSubmit`. `credential` is how the sign-in (login mode) or the
        account creation (registration mode) settled, `verification` how the
        SDK's verification send settled, `profileWrite` how the profile
        `setDoc` settled; an outcome is read only if its call is made, and
        `calls` lists the calls made, in order. */
    method HandleSubmit(store: Store, credential: Outcome<User>, verification: Outcome<()>,
                        profileWrite: Outcome<()>, now: Instant) returns (calls: seq<Call>)
      modifies this`error, this`showGiftModal, store`profiles
      // login mode
      ensures isLogin ==> store.profiles == old(store.profiles) && showGiftModal == old(showGiftModal)
      ensures isLogin && credential.Resolved? ==>
        calls == [SignInWithPassword, Navigate(ProgramRoute)] && error == ""
      ensures isLogin && credential.Rejected? ==>
        calls == [SignInWithPassword] && error == LoginErrorMessage(credential.failure.code)
      // registration mode
      ensures !isLogin && credential.Rejected? ==>
        && calls == [CreateCredential]
        && store.profiles == old(store.profiles) && showGiftModal == old(showGiftModal)
        && error == RegisterErrorMessage(credential.failure.code)
      ensures !isLogin && credential.Resolved? && verification.Rejected? ==>
        && calls == [CreateCredential, SendVerification]
        && store.profiles == old(store.profiles) && showGiftModal == old(showGiftModal)
        && error == RegistrationFailedMessage
      ensures !isLogin && credential.Resolved? && verification.Resolved? ==>
        calls == [CreateCredential, SendVerification, WriteProfile(credential.value.uid)]
      ensures !isLogin && credential.Resolved? && verification.Resolved? && profileWrite.Rejected? ==>
        && store.profiles == old(store.profiles) && showGiftModal == old(showGiftModal)
        && error == RegisterErrorMessage(profileWrite.failure.code)
      ensures !isLogin && credential.Resolved? && verification.Resolved? && profileWrite.Resolved? ==>
        && store.profiles == old(store.profiles)[credential.value.uid :=
             Profile(credential.value.email, StartingTokens, now, map[])]
        && showGiftModal && error == ""
      // every failing path ends with a message and without navigating
      ensures error == "" <==>
        if isLogin then credential.Resolved?
        else credential.Resolved? && verification.Resolved? && profileWrite.Resolved?
      ensures Navigate(ProgramRoute) in calls <==> isLogin && credential.Resolved?
    {
      error := "";
      var errorMessage := "";
      if isLogin {
        calls := [SignInWithPassword];
        if credential.Resolved? {
          calls := calls + [Navigate(ProgramRoute)];
        } else {
          errorMessage := LoginErrorMessage(credential.failure.code);
          error := ShownError(errorMessage);  // the rethrown Error's message
        }
      } else {
        calls := [CreateCredential];
        var thrown: Option<Failure> := None;
        if credential.Rejected? {
          thrown := Some(credential.failure);
        } else {
          var user := credential.value;
          calls := calls + [SendVerification];
          var verificationError := SendEmailVerification(verification);
          if verificationError.Some? {
            thrown := Some(Failure(None, verificationError.value));
          } else {
            calls := calls + [WriteProfile(user.uid)];
            if profileWrite.Rejected? {
              thrown := Some(profileWrite.failure);
            } else {
              store.SetProfile(user.uid, Profile(user.email, StartingTokens, now, map[]));
              showGiftModal := true;
            }
          }
        }
        if thrown.Some? {
          errorMessage := RegisterErrorMessage(thrown.value.code);
          error := ShownError(errorMessage);  // the rethrown Error's message
        }
      }
    }

    /** `handleGoogleSignIn`. `popup` is how the Google popup sign-in settled,
        `profileWrite` how the merge `setDoc` settled. The merge names
        `tokens`, so it sets the balance to the starting balance whatever it
        was; it leaves the error text alone on success. */
    method HandleGoogleSignIn(store: Store, popup: Outcome<User>, profileWrite: Outcome<()>, now: Instant)
      returns (calls: seq<Call>)
      modifies this`error, store`profiles
      ensures popup.Rejected? ==>
        calls == [SignInWithPopup] && store.profiles == old(store.profiles) && error == GoogleSignInFailedMessage
      ensures popup.Resolved? && profileWrite.Rejected? ==>
        && calls == [SignInWithPopup, MergeProfile(popup.value.uid)]
        && store.profiles == old(store.profiles) && error == GoogleSignInFailedMessage
      ensures popup.Resolved? && profileWrite.Resolved? ==>
        var uid := popup.value.uid;
        var existing := if uid in old(store.profiles) then Some(old(store.profiles)[uid]) else None;
        && calls == [SignInWithPopup, MergeProfile(uid), Navigate(ProgramRoute)]
        && store.profiles == old(store.profiles)[uid := MergedProfile(existing, popup.value.email, StartingTokens, now)]
        && store.profiles[uid].tokens == StartingTokens
        && error == old(error)
    {
      calls := [SignInWithPopup];
      if popup.Rejected? {
        error := GoogleSignInFailedMessage;
        return;
      }
      var user := popup.value;
      calls := calls + [MergeProfile(user.uid)];
      if profileWrite.Rejected? {
        error := GoogleSignInFailedMessage;
        return;
      }
      store.MergeProfile(user.uid, user.email, StartingTokens, now);
      calls := calls + [Navigate(ProgramRoute)];
    }
  }
}
