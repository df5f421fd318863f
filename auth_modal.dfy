/** The registration modal: its form handler and the choice of what it shows. */
module AuthModal {
  import opened Wrappers
  import opened Sdk
  import opened Messages
  import opened Firebase

  /** The modal's error-code table; codes it does not list get the default
      registration text. */
  function RegistrationErrorMessage(code: Option<string>): (message: string)
    ensures code == Some(EmailInUseCode) ==> message == EmailInUseMessage
    ensures code == Some(InvalidEmailCode) ==> message == InvalidEmailMessage
    ensures code == Some(WeakPasswordCode) ==> message == WeakPasswordMessage
    ensures code !in {Some(EmailInUseCode), Some(InvalidEmailCode), Some(WeakPasswordCode)} ==>
      message == RegistrationFailedMessage
  {
    if code == Some(EmailInUseCode) then EmailInUseMessage
    else if code == Some(InvalidEmailCode) then InvalidEmailMessage
    else if code == Some(WeakPasswordCode) then WeakPasswordMessage
    else RegistrationFailedMessage
  }

  /** What the modal renders. */
  datatype View = Hidden | VerificationNotice | GiftNotice | RegistrationForm

  /** The render branches: nothing when closed; otherwise the verification
      notice before the gift notice, and the form only when neither is due. */
  function SelectView(isOpen: bool, showVerification: bool, showGift: bool): (v: View)
    ensures v == Hidden <==> !isOpen
    ensures v == VerificationNotice <==> isOpen && showVerification
    ensures v == GiftNotice <==> isOpen && !showVerification && showGift
    ensures v == RegistrationForm <==> isOpen && !showVerification && !showGift
  {
    if !isOpen then Hidden
    else if showVerification then VerificationNotice
    else if showGift then GiftNotice
    else RegistrationForm
  }

  /** An instance of `SelectView` for the modal the auth page mounts, with
      `isOpen = showGiftModal` and `showGift = true`. That this instance's
      `showVerification` stays false is not proved here: it is argued from the
      render branches (with `showGift` set the form, and so its submit handler,
      is never shown), not from a model of the mounted instance. */
  lemma PageModalShowsGift(showGiftModal: bool)
    ensures SelectView(showGiftModal, false, true) == if showGiftModal then GiftNotice else Hidden
  {
  }

  /** The modal's component state. */
  class Modal {
    var email: string
    var password: string
    var showVerification: bool
    var error: string

    constructor ()
      ensures email == "" && password == "" && !showVerification && error == ""
    {
      email := "";
      password := "";
      showVerification := false;
      error := "";
    }

    /** `handleSubmit`. `credential` is how the account creation settled,
        `verification` how the SDK's verification send settled,
        `profileWrite` how the profile `setDoc` settled; `calls` lists the
        calls made, in order. A failed verification send returns early: the
        account stays created, with no profile. */
    method HandleSubmit(store: Store, credential: Outcome<User>, verification: Outcome<()>,
                        profileWrite: Outcome<()>, now: Instant) returns (calls: seq<Call>)
      modifies this`error, this`showVerification, store`profiles
      ensures credential.Rejected? ==>
        && calls == [CreateCredential]
        && store.profiles == old(store.profiles) && !showVerification
        && error == RegistrationErrorMessage(credential.failure.code)
      ensures credential.Resolved? && verification.Rejected? ==>
        && calls == [CreateCredential, SendVerification]
        && store.profiles == old(store.profiles) && !showVerification
        && SendEmailVerification(verification) == Some(error)
      ensures credential.Resolved? && verification.Resolved? ==>
        calls == [CreateCredential, SendVerification, WriteProfile(credential.value.uid)]
      ensures credential.Resolved? && verification.Resolved? && profileWrite.Rejected? ==>
        && store.profiles == old(store.profiles) && !showVerification
        && error == RegistrationErrorMessage(profileWrite.failure.code)
      ensures credential.Resolved? && verification.Resolved? && profileWrite.Resolved? ==>
        && store.profiles == old(store.profiles)[credential.value.uid :=
             Profile(credential.value.email, StartingTokens, now, map[])]
        && showVerification && error == ""
      // the verification notice is shown only once the profile is written
      ensures showVerification <==>
        credential.Resolved? && WriteProfile(credential.value.uid) in calls && profileWrite.Resolved?
      ensures error == "" <==> showVerification
    {
      error := "";
      showVerification := false;
      calls := [CreateCredential];
      if credential.Rejected? {
        error := RegistrationErrorMessage(credential.failure.code);
        return;
      }
      var user := credential.value;
      calls := calls + [SendVerification];
      var verificationError := SendEmailVerification(verification);
      if verificationError.Some? {
        error := verificationError.value;
        return;
      }
      calls := calls + [WriteProfile(user.uid)];
      if profileWrite.Rejected? {
        error := RegistrationErrorMessage(profileWrite.failure.code);
        return;
      }
      store.SetProfile(user.uid, Profile(user.email, StartingTokens, now, map[]));
      showVerification := true;
    }
  }
}
