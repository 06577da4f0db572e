/** The credential helpers: password hashing and session tokens (foreign
    libraries, taken as function values) and the verification-code
    utilities of `backend/src/utils/verification.ts`. */
module Credentials {
  import opened Common

  /** The payload of a session token. */
  datatype Claims = Claims(sub: nat, role: string, email: string, customerId: nat)

  /** bcrypt (`hash`, `compare`) and jsonwebtoken (`sign`, `verify`) seen from
      the outside. `verify` answers `None` for every token it refuses
      (malformed, bad signature, expired). The salt bcrypt draws is folded
      into `hash`. */
  datatype Crypto = Crypto(
    hash: string -> string,
    matches: (string, string) -> bool,
    sign: Claims -> string,
    verify: string -> Option<Claims>)

  /** What the libraries promise: a password matches its own hash, and a
      signed token is a non-empty string that verifies to the claims it was
      signed with. */
  ghost predicate Sound(c: Crypto) {
    && (forall p: string {:trigger c.hash(p)} :: c.matches(p, c.hash(p)))
    && (forall cl: Claims {:trigger c.sign(cl)} :: c.sign(cl) != "" && c.verify(c.sign(cl)) == Some(cl))
  }

  /** A verification code is valid for 15 minutes. */
  const CodeLifetime: int := 15 * 60 * 1000

  // -------------------------------------------------------------------
  // Decimal notation (`Number.prototype.toString` on naturals)

  function DigitChar(d: nat): (c: char)
    requires d < 10
    ensures IsDigit(c) && c as int - '0' as int == d
  {
    ('0' as int + d) as char
  }

  function DecimalString(n: nat): (s: string)
    ensures |s| >= 1
    ensures forall i :: 0 <= i < |s| ==> IsDigit(s[i])
  {
    if n < 10 then [DigitChar(n)] else DecimalString(n / 10) + [DigitChar(n % 10)]
  }

  function DigitValue(c: char): nat
    requires IsDigit(c)
  {
    c as int - '0' as int
  }

  /** `parseInt(s, 10)` on a string of digits. */
  function DecimalValue(s: string): nat
    requires forall i :: 0 <= i < |s| ==> IsDigit(s[i])
  {
    if s == [] then 0
    else DecimalValue(s[..|s| - 1]) * 10 + DigitValue(s[|s| - 1])
  }

  lemma {:induction false} DecimalRoundTrip(n: nat)
    ensures DecimalValue(DecimalString(n)) == n
  {
    if n >= 10 {
      DecimalRoundTrip(n / 10);
      var s := DecimalString(n);
      assert s[..|s| - 1] == DecimalString(n / 10);
    }
  }

  lemma {:induction false} FourDigitLength(n: nat)
    requires 1000 <= n <= 9999
    ensures |DecimalString(n)| == 4
  {
    assert n / 10 / 10 == n / 100 && n / 100 / 10 == n / 1000;
    assert 1 <= n / 1000 <= 9;
    assert |DecimalString(n / 1000)| == 1;
    assert |DecimalString(n / 100)| == 2;
    assert |DecimalString(n / 10)| == 3;
  }

  /** `Math.floor(1000 + Math.random() * 9000).toString()` for the draw `r`. */
  function GenerateVerificationCode(r: real): (code: string)
    requires 0.0 <= r < 1.0
    ensures |code| == 4
    ensures forall i :: 0 <= i < 4 ==> IsDigit(code[i])
    ensures 1000 <= DecimalValue(code) <= 9999
  {
    var n := (1000.0 + r * 9000.0).Floor;
    assert 1000 <= n <= 9999;
    FourDigitLength(n);
    DecimalRoundTrip(n);
    DecimalString(n)
  }

  // -------------------------------------------------------------------
  // Expiry and validation

  /** `new Date() > expiresAt`. */
  predicate IsVerificationCodeExpired(expiresAt: int, now: int) {
    now > expiresAt
  }

  function ValidateVerificationCode(input: string, stored: string, expiresAt: int, now: int): (ok: bool)
    ensures ok <==> input == stored && now <= expiresAt
  {
    input == stored && !IsVerificationCodeExpired(expiresAt, now)
  }

  /** Once the expiry has passed, no input is accepted. */
  lemma ExpiredCodeRejected(input: string, stored: string, expiresAt: int, now: int)
    requires now > expiresAt
    ensures !ValidateVerificationCode(input, stored, expiresAt, now)
  {
  }

  // -------------------------------------------------------------------
  // Delivery

  /** Whether an awaited call returned or threw. */
  datatype SendResult = Returned | Threw

  /** `sendVerificationCode`: the mail transport may fail (`transportFails`),
      but the failure is caught and logged inside, so the call returns. */
  function SendVerificationCode(email: string, code: string, transportFails: bool): (r: SendResult)
    ensures r == Returned
  {
    Returned
  }
}
