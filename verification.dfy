/** `verifyCode` and `resendVerificationCode`: confirming an account's e-mail
    with the 4-digit code, and issuing a new code at most once a minute. */
module Verification {
  import opened Common
  import opened Store
  import opened Credentials

  /** The schema's message for a code that is not 4 characters long. */
  const CodeLengthMessage: string := "Invalid input: code: Verification code must be 4 digits"

  /** A new code may be requested once the previous one is this old (ms). */
  const ResendInterval: int := 60000

  /** The stored code and expiry, when both are present (`!code || !expires`
      is the missing case). */
  predicate HasCode(u: User) {
    Truthy(u.verificationCode) && u.verificationExpires.Some?
  }

  /** The row after a successful verification. */
  function MarkVerified(u: User): (v: User)
    ensures v.isVerified && Cleared(v)
  {
    u.(isVerified := true, verificationCode := None, verificationExpires := None, verificationAttempts := 0)
  }

  /** What `verifyCode` answers for the row found under the lowercased e-mail,
      and the row it writes back (`None` when it writes nothing). */
  function VerifyOutcome(found: Option<User>, code: string, now: int): (out: (Reply<string>, Option<User>))
    ensures out.1.Some? ==> found.Some? && Cleared(out.1.value)
    ensures out.1.Some? ==> out.1.value.id == found.value.id && out.1.value.email == found.value.email
    ensures out.0.Ok? <==> out.1.Some? && out.1.value.isVerified
  {
    match found
    case None => (Err(404, "User not found"), None)
    case Some(u) =>
      if u.isVerified then (Err(400, "Account is already verified"), None)
      else if !HasCode(u) then (Err(400, "No verification code found. Please request a new one."), None)
      else if !ValidateVerificationCode(code, u.verificationCode.value, u.verificationExpires.value, now) then
        (Err(400, "Invalid or expired verification code"), Some(u.(verificationAttempts := u.verificationAttempts + 1)))
      else (Ok(200, "Account verified successfully! You can now login."), Some(MarkVerified(u)))
  }

  /** The rejections that write nothing, in order. */
  lemma VerifyRejections(found: Option<User>, code: string, now: int)
    ensures found.None? ==> VerifyOutcome(found, code, now) == (Err(404, "User not found"), None)
    ensures found.Some? && found.value.isVerified ==>
      VerifyOutcome(found, code, now) == (Err(400, "Account is already verified"), None)
    ensures found.Some? && !found.value.isVerified && !HasCode(found.value) ==>
      VerifyOutcome(found, code, now) == (Err(400, "No verification code found. Please request a new one."), None)
  {
  }

  /** Verification succeeds exactly for an unverified row whose code equals
      the input and has not expired; the attempt counter plays no part. */
  lemma VerifySucceedsIff(u: User, code: string, now: int)
    ensures VerifyOutcome(Some(u), code, now).0.Ok? <==>
      && !u.isVerified && HasCode(u)
      && code == u.verificationCode.value && now <= u.verificationExpires.value
  {
  }

  /** A wrong or expired code only increments the counter. */
  lemma FailedAttemptCounts(u: User, code: string, now: int)
    requires !u.isVerified && HasCode(u)
    requires code != u.verificationCode.value || now > u.verificationExpires.value
    ensures VerifyOutcome(Some(u), code, now) ==
      (Err(400, "Invalid or expired verification code"), Some(u.(verificationAttempts := u.verificationAttempts + 1)))
  {
  }

  /** However many attempts have failed, the reply does not change. */
  lemma AttemptsNeverBlock(u: User, n: nat, code: string, now: int)
    ensures VerifyOutcome(Some(u.(verificationAttempts := n)), code, now).0 == VerifyOutcome(Some(u), code, now).0
  {
  }

  method VerifyCode(db: Db, email: string, code: string, now: int) returns (r: Reply<string>)
    requires db.Valid()
    modifies db
    ensures db.Valid()
    ensures db.customers == old(db.customers) && db.licenses == old(db.licenses) && db.invitations == old(db.invitations)
    ensures db.nextUserId == old(db.nextUserId)
    ensures |code| != 4 ==> r == Err(400, CodeLengthMessage) && db.users == old(db.users)
    ensures |code| == 4 ==>
      var k := UserWithEmail(old(db.users), Lower(email));
      var out := VerifyOutcome(At(old(db.users), k), code, now);
      && r == out.0
      && db.users == (if out.1.Some? then old(db.users)[k.value := out.1.value] else old(db.users))
  {
    if |code| != 4 {
      return Err(400, CodeLengthMessage);
    }
    var normalized := Lower(email);
    var k := UserWithEmail(db.users, normalized);
    if k.None? {
      return Err(404, "User not found");
    }
    var u := db.users[k.value];
    if u.isVerified {
      return Err(400, "Account is already verified");
    }
    if !Truthy(u.verificationCode) || u.verificationExpires.None? {
      return Err(400, "No verification code found. Please request a new one.");
    }
    var valid := ValidateVerificationCode(code, u.verificationCode.value, u.verificationExpires.value, now);
    if !valid {
      var failed := u.(verificationAttempts := u.verificationAttempts + 1);
      ReplaceUserOk(db.users, db.nextUserId, k.value, failed);
      db.users := db.users[k.value := failed];
      return Err(400, "Invalid or expired verification code");
    }
    ReplaceUserOk(db.users, db.nextUserId, k.value, MarkVerified(u));
    db.users := db.users[k.value := MarkVerified(u)];
    r := Ok(200, "Account verified successfully! You can now login.");
  }

  // -------------------------------------------------------------------
  // Resend

  /** A previous code was sent less than a minute before `now`. */
  predicate RateLimited(lastSent: Option<int>, now: int) {
    lastSent.Some? && now - lastSent.value < ResendInterval
  }

  /** The row after a new code is issued at `now`. */
  function Reissued(u: User, code: string, now: int): User {
    u.(verificationCode := Some(code), verificationExpires := Some(now + CodeLifetime),
       lastVerificationSent := Some(now), verificationAttempts := 0)
  }

  /** What `resendVerificationCode` answers for the row found, with `code`
      the freshly generated code, and the row it writes back. */
  function ResendOutcome(found: Option<User>, code: string, now: int): (out: (Reply<string>, Option<User>))
    ensures found.None? ==> out == (Err(404, "User not found"), None)
    ensures found.Some? && found.value.isVerified ==> out == (Err(400, "Account is already verified"), None)
    ensures out.1.Some? ==> found.Some? && !found.value.isVerified && out.1.value == Reissued(found.value, code, now)
    ensures out.0.Ok? <==> out.1.Some?
    ensures out.1.Some? ==> !RateLimited(found.value.lastVerificationSent, now)
  {
    match found
    case None => (Err(404, "User not found"), None)
    case Some(u) =>
      if u.isVerified then (Err(400, "Account is already verified"), None)
      else if RateLimited(u.lastVerificationSent, now) then
        (Err(429, "Please wait 1 minute before requesting a new code"), None)
      else (Ok(200, "Verification code sent successfully!"), Some(Reissued(u, code, now)))
  }

  /** The rate limit: less than 60000 ms since the last code is refused with
      429, exactly 60000 ms is allowed. */
  lemma ResendRateLimit(u: User, code: string, sent: int, now: int)
    requires !u.isVerified && u.lastVerificationSent == Some(sent)
    ensures now - sent < 60000 ==>
      ResendOutcome(Some(u), code, now) == (Err(429, "Please wait 1 minute before requesting a new code"), None)
    ensures now - sent >= 60000 ==> ResendOutcome(Some(u), code, now).0.Ok?
  {
  }

  /** A reissued code verifies the account until it expires 15 minutes later,
      and after that no input does. */
  lemma {:induction false} ResendThenVerify(u: User, code: string, input: string, t1: int, t2: int)
    requires !u.isVerified && !RateLimited(u.lastVerificationSent, t1) && code != ""
    ensures var w := ResendOutcome(Some(u), code, t1).1;
      && w.Some?
      && (t2 <= t1 + CodeLifetime ==> VerifyOutcome(w, code, t2).0 == Ok(200, "Account verified successfully! You can now login."))
      && (t2 > t1 + CodeLifetime ==> VerifyOutcome(w, input, t2).0 == Err(400, "Invalid or expired verification code"))
  {
    var w := Reissued(u, code, t1);
    assert HasCode(w);
    if t2 > t1 + CodeLifetime {
      ExpiredCodeRejected(input, code, t1 + CodeLifetime, t2);
    }
  }

  /** `resendVerificationCode`, with the draw `r` of `Math.random` and the
      outcome of the mail transport (whose failure is swallowed). */
  method ResendCode(db: Db, email: string, now: int, r: real, transportFails: bool) returns (reply: Reply<string>)
    requires db.Valid()
    requires 0.0 <= r < 1.0
    modifies db
    ensures db.Valid()
    ensures db.customers == old(db.customers) && db.licenses == old(db.licenses) && db.invitations == old(db.invitations)
    ensures db.nextUserId == old(db.nextUserId)
    ensures
      var k := UserWithEmail(old(db.users), Lower(email));
      var out := ResendOutcome(At(old(db.users), k), GenerateVerificationCode(r), now);
      && reply == out.0
      && db.users == (if out.1.Some? then old(db.users)[k.value := out.1.value] else old(db.users))
  {
    var normalized := Lower(email);
    var k := UserWithEmail(db.users, normalized);
    if k.None? {
      return Err(404, "User not found");
    }
    var u := db.users[k.value];
    if u.isVerified {
      return Err(400, "Account is already verified");
    }
    var lastSent := u.lastVerificationSent;
    if lastSent.Some? && now - lastSent.value < ResendInterval {
      return Err(429, "Please wait 1 minute before requesting a new code");
    }
    var code := GenerateVerificationCode(r);
    var updated := Reissued(u, code, now);
    ReplaceUserOk(db.users, db.nextUserId, k.value, updated);
    db.users := db.users[k.value := updated];
    var sent := SendVerificationCode(normalized, code, transportFails);
    reply := Ok(200, "Verification code sent successfully!");
  }
}
