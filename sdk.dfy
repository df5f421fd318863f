/** The shapes of the answers the Firebase SDK gives the core. The SDK itself is
    not modelled: every awaited SDK call becomes a parameter holding how that
    call settled, and the handlers report which calls they made, in order. */
module Sdk {
  import opened Wrappers

  /** A thrown error. Firebase errors carry a `code`; a plain `new Error(text)`
      has none, so reading its `code` gives `undefined` (here `None`). */
  datatype Failure = Failure(code: Option<string>, message: string)

  /** How an awaited call settled: resolved with a value, or rejected with an error. */
  datatype Outcome<T> = Resolved(value: T) | Rejected(failure: Failure)

  /** The fields of `userCredential.user` / `result.user` that the core reads. */
  datatype User = User(uid: string, email: string)

  /** A `new Date()` value; the model never looks inside it. */
  datatype Instant = Instant(millis: int)

  /** A collaborator call, or a navigation, made by an event handler. */
  datatype Call =
    | SignInWithPassword          // signInWithEmailAndPassword
    | CreateCredential            // createUserWithEmailAndPassword
    | SendVerification            // sendEmailVerification
    | SignInWithPopup             // signInWithPopup with the Google provider
    | WriteProfile(uid: string)   // setDoc(doc(db, 'profiles', uid), …)
    | MergeProfile(uid: string)   // setDoc(doc(db, 'profiles', uid), …, { merge: true })
    | Navigate(route: string)     // navigate(route)
}
