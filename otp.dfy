/** The one-time codes of utils/otp.ts: how a code is drawn, stored,
    checked, timed out and rationed. The random draw, the SHA-256 digest
    and the clock are parameters; NODE_ENV is a parameter too, because the
    development build stores and compares codes in the clear. */
module Otp {
  import opened Common

  /** The value of NODE_ENV the process runs under. */
  datatype NodeEnv = Development | Production | OtherEnv(name: string)

  /** A digest function over strings (SHA-256 rendered in hex). */
  type Digest = string -> string

  const OtpLength := 6
  const OtpExpiryMinutes := 10
  const MaxOtpAttempts := 5
  /** The code every development build hands out. */
  const DevOtp := "123456"

  /** The lowest code, and one past the highest, randomInt draws from:
      randomInt's upper bound is exclusive. */
  const OtpLow := 100000
  const OtpHigh := 999999

  /** generateOTP, for the draw `OtpLow + draw` of crypto.randomInt. */
  function GenerateOtp(draw: nat): (code: string)
    requires draw < OtpHigh - OtpLow
    ensures |code| == OtpLength
    ensures forall i :: 0 <= i < |code| ==> '0' <= code[i] <= '9'
    ensures OtpLow <= DigitsValue(code) < OtpHigh
  {
    assert Pow10(5) == 100000 && Pow10(6) == 1000000;
    DecimalLength(OtpLow + draw, 6);
    DecimalRoundTrip(OtpLow + draw);
    Decimal(OtpLow + draw)
  }

  /** generateDevOTP: the fixed code in development, a random one elsewhere. */
  function GenerateDevOtp(env: NodeEnv, draw: nat): (code: string)
    requires draw < OtpHigh - OtpLow
    ensures |code| == OtpLength && forall i :: 0 <= i < |code| ==> '0' <= code[i] <= '9'
    ensures env == Development ==> code == DevOtp
    ensures env != Development ==> OtpLow <= DigitsValue(code) < OtpHigh
  {
    if env == Development then DevOtp else GenerateOtp(draw)
  }

  /** hashOTP: the code itself in development, its digest elsewhere. */
  function HashOtp(env: NodeEnv, otp: string, sha: Digest): string {
    if env == Development then otp else sha(otp)
  }

  /** verifyOTP: compare in the clear in development, by digest elsewhere. */
  function VerifyOtp(env: NodeEnv, input: string, stored: string, sha: Digest): (ok: bool)
    ensures env == Development ==> (ok <==> input == stored)
    ensures env != Development ==> (ok <==> sha(input) == stored)
  {
    if env == Development then input == stored else sha(input) == stored
  }

  /** A stored code accepts the code it was made from, in every mode, and
      in development (or under a collision-free digest) only that code. */
  lemma OtpRoundTrip(env: NodeEnv, otp: string, input: string, sha: Digest)
    ensures VerifyOtp(env, otp, HashOtp(env, otp, sha), sha)
    ensures env == Development && VerifyOtp(env, input, HashOtp(env, otp, sha), sha) ==> input == otp
    ensures (forall a, b :: sha(a) == sha(b) ==> a == b) && VerifyOtp(env, input, HashOtp(env, otp, sha), sha) ==>
      input == otp
  {
  }

  /** The milliseconds a code stays valid. */
  const OtpLifetime := OtpExpiryMinutes * 60 * 1000

  /** getOTPExpiration: ten minutes from now, in milliseconds. */
  function OtpExpiration(now: nat): (expiresAt: nat)
    ensures expiresAt - now == 600000
  {
    now + OtpLifetime
  }

  /** isOTPExpired: strictly after the expiry instant. */
  predicate IsOtpExpired(now: int, expiresAt: int) {
    now > expiresAt
  }

  /** A code made at `issued` is accepted up to and including ten minutes
      later, and refused from the next millisecond on. */
  lemma ExpiryWindow(issued: nat, now: nat)
    ensures !IsOtpExpired(now, OtpExpiration(issued)) <==> now <= issued + 600000
  {
  }

  /** isMaxAttemptsExceeded: five failed attempts use a code up. */
  predicate IsMaxAttemptsExceeded(attempts: int) {
    attempts >= MaxOtpAttempts
  }

  /** A code is checked while fewer than five attempts have been counted
      against it: five guesses are checked, a sixth is refused. */
  lemma AttemptsBudget(attempts: nat)
    ensures !IsMaxAttemptsExceeded(attempts) <==> attempts < 5
  {
  }

  /** The two delivery channels. */
  datatype Channel = Email | Sms

  /** sendOTPEmail / sendOTPSMS: the message is only logged; a production
      build throws because no provider is configured. */
  function DeliveryError(env: NodeEnv, channel: Channel): (e: Option<string>)
    ensures e.Some? <==> env == Production
  {
    if env != Production then None
    else if channel == Email then Some("Email service not configured")
    else Some("SMS service not configured")
  }
}
