/** The token and lesson persistence helpers over the Firestore collections
    `profiles` (keyed by user id) and `completed_lessons` (keyed by a string
    built from the user id and the lesson id), and the error mapping of
    `sendEmailVerification`. */
module Firebase {
  import opened Wrappers
  import opened Sdk
  import opened Messages

  /** A `profiles/{uid}` document. `otherFields` stands for whatever fields the
      document holds besides the three the core writes: a plain `setDoc`
      drops them, a merge `setDoc` and `transaction.update` keep them. */
  datatype Profile = Profile(email: string, tokens: int, createdAt: Instant, otherFields: map<string, string>)

  /** A `completed_lessons/{key}` document. */
  datatype CompletionRecord = CompletionRecord(userId: string, lessonId: string, completedAt: Instant)

  // ---------------------------------------------------------------------------
  // sendEmailVerification

  /** The `{ error }` that `sendEmailVerification` resolves with, given how the
      SDK's send settled. It never rejects itself. */
  function SendEmailVerification(sent: Outcome<()>): (error: Option<string>)
    ensures error.None? <==> sent.Resolved?
    ensures error == Some(TooManyRequestsMessage) <==> sent.Rejected? && sent.failure.code == Some(TooManyRequestsCode)
    ensures sent.Rejected? && sent.failure.code != Some(TooManyRequestsCode) ==> error == Some(SendFailedMessage)
    ensures error != Some("")
  {
    match sent
    case Resolved(_) => None
    case Rejected(f) =>
      if f.code == Some(TooManyRequestsCode) then Some(TooManyRequestsMessage) else Some(SendFailedMessage)
  }

  // ---------------------------------------------------------------------------
  // deductTokens

  /** What one run of the `runTransaction` callback returns, and the profiles
      the committed transaction leaves. */
  datatype Debit = Debit(ok: bool, profiles: map<string, Profile>)

  /** The transaction body of `deductTokens` as one atomic step: read the
      profile, refuse when it is missing or its balance is below `amount`,
      otherwise update `tokens` alone. Nothing checks the sign of `amount`. */
  function DebitTransaction(profiles: map<string, Profile>, userId: string, amount: int): (r: Debit)
    ensures r.ok <==> userId in profiles && profiles[userId].tokens >= amount
    ensures !r.ok ==> r.profiles == profiles
    ensures r.profiles.Keys == profiles.Keys
    ensures forall u :: u in profiles && u != userId ==> r.profiles[u] == profiles[u]
    ensures r.ok ==> r.profiles[userId].tokens == profiles[userId].tokens - amount
    ensures r.ok ==> r.profiles[userId].tokens >= 0
    ensures r.ok ==> r.profiles[userId] == profiles[userId].(tokens := r.profiles[userId].tokens)
  {
    if userId !in profiles then Debit(false, profiles)
    else
      var currentTokens := profiles[userId].tokens;
      if currentTokens < amount then Debit(false, profiles)
      else Debit(true, profiles[userId := profiles[userId].(tokens := currentTokens - amount)])
  }

  /** A negative amount is accepted whenever the profile exists with a
      non-negative balance, and it raises the balance. */
  lemma NegativeAmountCredits(profiles: map<string, Profile>, userId: string, amount: int)
    requires userId in profiles && profiles[userId].tokens >= 0 && amount < 0
    ensures DebitTransaction(profiles, userId, amount).ok
    ensures DebitTransaction(profiles, userId, amount).profiles[userId].tokens > profiles[userId].tokens
  {
  }

  /** The outcomes of debits run one after another, each an atomic transaction,
      and the profiles they leave. */
  datatype DebitRun = DebitRun(outcomes: seq<bool>, profiles: map<string, Profile>)

  function DebitSequence(profiles: map<string, Profile>, userId: string, amounts: seq<int>): DebitRun
    decreases |amounts|
  {
    if amounts == [] then DebitRun([], profiles)
    else
      var first := DebitTransaction(profiles, userId, amounts[0]);
      var rest := DebitSequence(first.profiles, userId, amounts[1..]);
      DebitRun([first.ok] + rest.outcomes, rest.profiles)
  }

  /** The sum of the amounts whose debit returned true. */
  function AcceptedTotal(amounts: seq<int>, outcomes: seq<bool>): int
    requires |amounts| == |outcomes|
  {
    if amounts == [] then 0
    else (if outcomes[0] then amounts[0] else 0) + AcceptedTotal(amounts[1..], outcomes[1..])
  }

  /** Conservation of the ledger: after any sequence of debits the balance is
      the starting balance less the amounts of the debits that returned true,
      it is never negative if it did not start negative, and no other profile
      and no other field changes. */
  lemma {:induction false} DebitSequenceBalance(profiles: map<string, Profile>, userId: string, amounts: seq<int>)
    requires userId in profiles
    ensures var r := DebitSequence(profiles, userId, amounts);
      && |r.outcomes| == |amounts|
      && r.profiles.Keys == profiles.Keys
      && r.profiles[userId].tokens == profiles[userId].tokens - AcceptedTotal(amounts, r.outcomes)
      && (profiles[userId].tokens >= 0 ==> r.profiles[userId].tokens >= 0)
      && r.profiles[userId] == profiles[userId].(tokens := r.profiles[userId].tokens)
      && (forall u :: u in profiles && u != userId ==> r.profiles[u] == profiles[u])
    decreases |amounts|
  {
    if amounts != [] {
      var first := DebitTransaction(profiles, userId, amounts[0]);
      DebitSequenceBalance(first.profiles, userId, amounts[1..]);
    }
  }

  /** Without a profile every debit returns false and nothing changes. */
  lemma {:induction false} DebitSequenceWithoutProfile(profiles: map<string, Profile>, userId: string, amounts: seq<int>)
    requires userId !in profiles
    ensures var r := DebitSequence(profiles, userId, amounts);
      && |r.outcomes| == |amounts|
      && (forall i :: 0 <= i < |r.outcomes| ==> !r.outcomes[i])
      && r.profiles == profiles
    decreases |amounts|
  {
    if amounts != [] {
      DebitSequenceWithoutProfile(profiles, userId, amounts[1..]);
    }
  }

  /** A fresh account with the starting balance: 30 is debited (70 left), 80
      is refused, 70 is debited (0 left), 1 is refused. */
  lemma DebitScenario(userId: string, email: string, createdAt: Instant)
    ensures var start := map[userId := Profile(email, StartingTokens, createdAt, map[])];
      var r := DebitSequence(start, userId, [30, 80, 70, 1]);
      r.outcomes == [true, false, true, false] && r.profiles[userId].tokens == 0
  {
  }

  // ---------------------------------------------------------------------------
  // markLessonComplete / getLessonStatus

  /** The document id `${userId}_${lessonId}` both helpers use. */
  function LessonKey(userId: string, lessonId: string): (key: string)
    ensures |key| == |userId| + 1 + |lessonId|
    ensures key[..|userId|] == userId && key[|userId|] == '_' && key[|userId| + 1..] == lessonId
  {
    userId + "_" + lessonId
  }

  /** When user ids contain no `_` (Firebase uids are alphanumeric), distinct
      (user, lesson) pairs get distinct keys: the first `_` ends the user id. */
  lemma LessonKeyInjective(u1: string, l1: string, u2: string, l2: string)
    requires '_' !in u1 && '_' !in u2
    requires LessonKey(u1, l1) == LessonKey(u2, l2)
    ensures u1 == u2 && l1 == l2
  {
  }

  /** The key is not injective in general: a user id `x_y` shares every key
      of the form `x_y_l` with the user id `x` and the lesson `y_l`. */
  lemma LessonKeysCollide(x: string, y: string, l: string)
    ensures x + "_" + y != x
    ensures LessonKey(x + "_" + y, l) == LessonKey(x, y + "_" + l)
  {
    assert |x + "_" + y| > |x|;
  }

  // ---------------------------------------------------------------------------
  // Profile writes

  /** The document a merge `setDoc` of `{ email, tokens, createdAt }` leaves:
      the three named fields take the written values, all others are kept. */
  function MergedProfile(existing: Option<Profile>, email: string, tokens: int, createdAt: Instant): (p: Profile)
    ensures p.email == email && p.tokens == tokens && p.createdAt == createdAt
    ensures p.otherFields == if existing.Some? then existing.value.otherFields else map[]
  {
    match existing
    case None => Profile(email, tokens, createdAt, map[])
    case Some(prior) => prior.(email := email, tokens := tokens, createdAt := createdAt)
  }

  /** Two Google sign-ins, each writing its own `new Date()`: the second
      leaves the starting balance whatever the first or any debit in between
      left, takes the second time as `createdAt`, and keeps the fields the
      document had before the first. */
  lemma MergeTwice(existing: Option<Profile>, email: string, first: Instant, second: Instant, spent: int)
    ensures var once := MergedProfile(existing, email, StartingTokens, first);
      var twice := MergedProfile(Some(once.(tokens := once.tokens - spent)), email, StartingTokens, second);
      && twice.tokens == StartingTokens
      && twice.createdAt == second
      && twice.email == email
      && twice.otherFields == (if existing.Some? then existing.value.otherFields else map[])
  {
  }

  // ---------------------------------------------------------------------------
  // The document store

  /** The two Firestore collections the core touches. */
  class Store {
    var profiles: map<string, Profile>
    var completedLessons: map<string, CompletionRecord>

    constructor (profiles: map<string, Profile>, completedLessons: map<string, CompletionRecord>)
      ensures this.profiles == profiles && this.completedLessons == completedLessons
    {
      this.profiles := profiles;
      this.completedLessons := completedLessons;
    }

    /** `deductTokens(userId, amount)`. `transaction` says whether the
        transaction as a whole went through or threw (a failed read, a
        contention abort, a rejected commit); a throw is caught and reported
        as false, with nothing written. */
    method DeductTokens(userId: string, amount: int, transaction: Outcome<()>) returns (ok: bool)
      modifies this`profiles
      ensures transaction.Rejected? ==> !ok && profiles == old(profiles)
      ensures transaction.Resolved? ==> Debit(ok, profiles) == DebitTransaction(old(profiles), userId, amount)
    {
      if transaction.Rejected? {
        return false;
      }
      var committed := DebitTransaction(profiles, userId, amount);
      profiles := committed.profiles;
      ok := committed.ok;
    }

    /** `markLessonComplete(userId, lessonId)`: a plain `setDoc` that replaces
        the record under the key, so marking again replaces `completedAt`.
        `write` is how the `setDoc` settled; the returned promise settles the
        same way. */
    method MarkLessonComplete(userId: string, lessonId: string, now: Instant, write: Outcome<()>)
      modifies this`completedLessons
      ensures write.Rejected? ==> completedLessons == old(completedLessons)
      ensures write.Resolved? ==>
        completedLessons == old(completedLessons)[LessonKey(userId, lessonId) := CompletionRecord(userId, lessonId, now)]
      ensures write.Resolved? ==> LessonKey(userId, lessonId) in completedLessons
    {
      if write.Resolved? {
        var key := userId + "_" + lessonId;
        completedLessons := completedLessons[key := CompletionRecord(userId, lessonId, now)];
      }
    }

    /** `getLessonStatus(userId, lessonId)`: whether a record exists under the key. */
    method GetLessonStatus(userId: string, lessonId: string) returns (completed: bool)
      ensures completed <==> LessonKey(userId, lessonId) in completedLessons
    {
      var key := userId + "_" + lessonId;
      completed := key in completedLessons;
    }

    /** A committed plain `setDoc` on `profiles/uid`: the document becomes `p`. */
    method SetProfile(uid: string, p: Profile)
      modifies this`profiles
      ensures profiles == old(profiles)[uid := p]
    {
      profiles := profiles[uid := p];
    }

    /** A committed merge `setDoc` of `{ email, tokens, createdAt }` on `profiles/uid`. */
    method MergeProfile(uid: string, email: string, tokens: int, createdAt: Instant)
      modifies this`profiles
      ensures var existing := if uid in old(profiles) then Some(old(profiles)[uid]) else None;
        profiles == old(profiles)[uid := MergedProfile(existing, email, tokens, createdAt)]
    {
      var existing := if uid in profiles then Some(profiles[uid]) else None;
      profiles := profiles[uid := MergedProfile(existing, email, tokens, createdAt)];
    }
  }

  /** Marking a lesson and then asking for its status answers true, and
      marking it again keeps the answer true while replacing `completedAt`. */
  method MarkThenStatus(store: Store, userId: string, lessonId: string, first: Instant, second: Instant)
    returns (before: bool, after: bool)
    modifies store`completedLessons
    ensures before && after
    ensures LessonKey(userId, lessonId) in store.completedLessons
    ensures store.completedLessons[LessonKey(userId, lessonId)].completedAt == second
  {
    store.MarkLessonComplete(userId, lessonId, first, Resolved(()));
    before := store.GetLessonStatus(userId, lessonId);
    store.MarkLessonComplete(userId, lessonId, second, Resolved(()));
    after := store.GetLessonStatus(userId, lessonId);
  }
}
