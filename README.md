# Account lifecycle and token ledger of the course portal

This project models the Firebase-backed core of the course portal in Dafny.
It covers three pieces of the TypeScript source:

- The persistence helpers in `src/lib/firebase.ts`:
  - `deductTokens`, a transactional debit of a profile's `tokens`.
  - `markLessonComplete` and `getLessonStatus`, over `completed_lessons` documents keyed by `${userId}_${lessonId}`.
  - The error mapping of `sendEmailVerification`.
- The sign-in / registration page (`src/pages/Auth.tsx`): its form handler, its Google sign-in handler, and their error texts.
- The registration modal (`src/components/AuthModal.tsx`): its form handler, its error-code table, and its choice of what to render.

Firestore is a `Store` class with two map fields:
- `profiles`, from uid to `{email, tokens, createdAt, other fields}`;
- `completedLessons`, from document id to `{userId, lessonId, completedAt}`.

Each awaited call into the Firebase SDK is a parameter of the handler: the `Outcome` it settled with (resolved, or rejected with an error that may carry a `code`). These calls are sign-in, account creation, the verification send, a `setDoc` and a transaction. Every handler returns `calls`, the list of collaborator calls and navigations it made, in order. That is how the contracts state which steps happen, which do not, and in what order.

`new Date()` is an opaque `Instant` parameter. A component's state (`error`, `showGiftModal`, `showVerification`, the login/registration mode) lives in fields of a class per component.

Files:
- `wrappers.dfy`: `Option`.
- `sdk.dfy`: the shapes of SDK answers and the `Call` trace.
- `messages.dfy`: the error codes tested and the texts shown.
- `firebase.dfy`: the store and the helpers.
- `auth_page.dfy`: the page.
- `auth_modal.dfy`: the modal.

The model states what the code does, including where one might expect otherwise:
- The Google sign-in merge write names `tokens: 100`, so it resets an existing balance to 100. It also overwrites `createdAt`.
- `markLessonComplete` is a plain `setDoc`: marking again replaces the record and its `completedAt`.
- `deductTokens` accepts any `amount`; a negative amount raises the balance (`NegativeAmountCredits`).
- The completion key is the concatenated string, not the pair. Distinct pairs get distinct keys while user ids contain no `_` (`LessonKeyInjective`). A user id `x_y` shares keys with the user id `x` (`LessonKeysCollide`).
- On the page, a failed verification send becomes the generic registration text. The rethrown `Error` has no `code`, so the verification text is lost.
- The modal shows the verification text itself. Both leave a created account without a profile.

## Model

| member | source | states |
|---|---|---|
| Firebase.SendEmailVerification | src/lib/firebase.ts:12-24 | no error exactly when the send succeeds; the rate-limit text exactly when the code is `auth/too-many-requests`; the generic send-failure text for every other failure; never an empty text |
| Firebase.DebitTransaction | src/lib/firebase.ts:30-39 | returns true iff the profile exists and its balance is at least `amount`; a false leaves every profile unchanged; a true sets that balance to old − amount, never negative, and changes no other field and no other profile |
| Firebase.Store.DeductTokens | src/lib/firebase.ts:26-46 | a thrown transaction gives false with the store unchanged; otherwise result and new profiles are those of `DebitTransaction`; completion records are untouched |
| Firebase.NegativeAmountCredits | src/lib/firebase.ts:34-37 | with no guard on the sign of `amount`, a negative amount on an existing non-negative balance is accepted and raises the balance |
| Firebase.DebitSequenceBalance | src/lib/firebase.ts:30-39 | after any sequence of debits on an existing profile, the balance is the start less the sum of accepted amounts, stays non-negative if it started so, and nothing else changes |
| Firebase.DebitSequenceWithoutProfile | src/lib/firebase.ts:31-32 | with no profile, every debit in a sequence returns false and the profiles are unchanged |
| Firebase.DebitScenario | src/lib/firebase.ts:34-38 | from a 100-token profile, debits of 30, 80, 70, 1 answer true, false, true, false and leave 0 |
| Firebase.LessonKey | src/lib/firebase.ts:49 | the key is the user id, one `_`, then the lesson id, each recoverable by position |
| Firebase.LessonKeyInjective | src/lib/firebase.ts:48-61 | when user ids contain no `_`, equal keys mean equal user ids and equal lesson ids |
| Firebase.LessonKeysCollide | src/lib/firebase.ts:49 | for all `x`, `y`, `l`: the user id `x_y` with lesson `l` and the user id `x` with lesson `y_l` are different pairs with the same key |
| Firebase.Store.MarkLessonComplete | src/lib/firebase.ts:48-56 | a committed write replaces the record under the key with the given user, lesson and time, and changes no other record and no profile; a rejected write changes nothing |
| Firebase.Store.GetLessonStatus | src/lib/firebase.ts:58-62 | true exactly when a record exists under the same key that marking writes |
| Firebase.MarkThenStatus | src/lib/firebase.ts:48-61 | after marking, the status is true; after marking again it is still true and `completedAt` is the second time |
| Firebase.MergedProfile | src/pages/Auth.tsx:75-79 | a merge write sets email, tokens and createdAt to the written values and keeps every other field of an existing document |
| Firebase.MergeTwice | src/pages/Auth.tsx:75-79 | after two merge writes at times t1 and t2, with any debit in between, the balance is 100, `createdAt` is t2, and the fields the document had before are kept |
| Firebase.Store.SetProfile | src/pages/Auth.tsx:48-52 | a plain `setDoc` replaces the whole profile document and changes nothing else |
| Firebase.Store.MergeProfile | src/pages/Auth.tsx:75-79 | a merge `setDoc` stores the merged document under the uid and changes nothing else |
| AuthPage.LoginErrorMessage | src/pages/Auth.tsx:28-34 | the wrong-credentials text exactly for `auth/invalid-login-credentials`, the generic login text otherwise; it depends on the code alone |
| AuthPage.RegisterErrorMessage | src/pages/Auth.tsx:55-61 | the email-in-use text exactly for `auth/email-already-in-use`, the generic registration text otherwise |
| AuthPage.ShownError | src/pages/Auth.tsx:64-66 | the shown text is the thrown message when that is non-empty, and the fixed fallback text otherwise |
| AuthPage.Auth.constructor | src/pages/Auth.tsx:10-15 | the page starts in login mode with empty fields, no error and the gift modal closed |
| AuthPage.Auth.HandleSubmit | src/pages/Auth.tsx:18-67 | clears the error; login navigates to `/program` on success and otherwise shows the classified text; registration calls create, send and write in that order, and stops at the first failure: no send after a failed create, no profile after a failed send; a failed send gives the generic registration text; only a full success writes the profile with 100 tokens and then opens the gift modal; the error is empty exactly on success, and only a successful login navigates |
| AuthPage.Auth.HandleGoogleSignIn | src/pages/Auth.tsx:69-85 | a failed popup or write shows the fixed Google text, writes nothing and does not navigate; on success the merged profile has exactly 100 tokens whatever the balance was, other fields are kept, and it navigates to `/program` |
| AuthModal.RegistrationErrorMessage | src/components/AuthModal.tsx:48-56 | email-in-use, invalid-email and weak-password codes each give their own text; every other code, or none, gives the default registration text |
| AuthModal.SelectView | src/components/AuthModal.tsx:62-98 | closed shows nothing; when open, the verification notice takes precedence over the gift notice, and the form shows only when neither flag is set |
| AuthModal.PageModalShowsGift | src/pages/Auth.tsx:192-196 | an instance of `SelectView`: with the gift flag on and no verification notice, the page's modal shows the gift notice exactly when the page's gift flag is set |
| AuthModal.Modal.constructor | src/components/AuthModal.tsx:15-19 | the modal starts with empty fields, no error and no verification notice |
| AuthModal.Modal.HandleSubmit | src/components/AuthModal.tsx:22-60 | resets error and the verification flag; calls create, send and write in order and stops at the first failure; a failed create gives the table's text and no send; a failed send leaves the exact verification text, no profile, and the account created; only a written profile with 100 tokens turns the verification notice on; the error is empty exactly then |

## Left out

- The init-once Firebase app, auth and Firestore handles are not modelled (`src/lib/firebase.ts:7-9`); they are library plumbing.
- How `runTransaction` retries under contention, and concurrent debits from several tabs, are not modelled. A transaction is one atomic step that either commits or throws, and sequences of debits are modelled one after another.
- The SDK calls themselves are not modelled: `createUserWithEmailAndPassword`, `signInWithEmailAndPassword`, `signInWithPopup`, the verification send, `setDoc`, `getDoc` and the transaction. Each is a parameter that says how it settled. `getLessonStatus` models a successful read only; a rejected `getDoc` would propagate to its caller.
- Firestore field types are not modelled. `tokens` and `amount` are integers, not JavaScript floating-point numbers. A profile always has a `tokens` field. In the source, a profile without one would pass the balance test (`undefined < amount` is false), have `NaN` written as its balance, and the debit would return true; the model does not capture this. `user.email` is a string, never `null`. Fields besides email, tokens and createdAt are one opaque map.
- Logging (`console.*`), `e.preventDefault()`, JSX markup, styling, icons and the password-visibility toggle are left out. Navigation is recorded only as a `Navigate` entry with its route.
- The form inputs (`setEmail`, `setPassword`, the mode toggle) are left out: they only copy text into fields. The SDK outcomes already stand for what those values produce.
- `src/pages/Program.tsx` (static course data and render-time gating) and `src/pages/Profile.tsx` (password change and verification resend, thin SDK calls with fixed texts) are not part of this model.
- The code does not implement these, so the model does not state them: keeping the first `completedAt`, rejecting non-positive debit amounts, a resend cool-down window, keeping the balance on Google sign-in.
