/**
 * The one-time-code store of app/mail.py: a process-wide dictionary from
 * email to the last code sent there. Drawing the code and delivering the mail
 * are outside the model: the code arrives as a parameter.
 */
module Mail {

  /** `random.randint(100000, 999999)` draws from this closed range. */
  const OtpMin := 100000
  const OtpMax := 999999

  predicate IsOtp(code: int) {
    OtpMin <= code <= OtpMax
  }

  class OtpStore {
    /** `otp_store`: email to the last code sent to it. */
    var codes: map<string, int>

    ghost predicate Valid()
      reads this
    {
      forall e :: e in codes ==> IsOtp(codes[e])
    }

    constructor ()
      ensures Valid() && codes == map[]
    {
      codes := map[];
    }

    /** The store half of `send_otp`: remember `code` as the code of `email`. */
    method SendOtp(email: string, code: int)
      requires Valid() && IsOtp(code)
      modifies this
      ensures Valid()
      ensures codes == old(codes)[email := code]
    {
      codes := codes[email := code];
    }
  }

  /** `verify_otp`: a lookup and a comparison; the store is left as it is. */
  function VerifyOtp(codes: map<string, int>, email: string, otp: int): bool {
    email in codes && codes[email] == otp
  }

  /** After storing c for e, c verifies for e, and no other code does. */
  lemma SentCodeVerifies(codes: map<string, int>, e: string, c: int, other: int)
    requires other != c
    ensures VerifyOtp(codes[e := c], e, c)
    ensures !VerifyOtp(codes[e := c], e, other)
  {
  }

  /** Sending to e leaves every other email's verdicts as they were. */
  lemma SendOnlyTouchesItsEmail(codes: map<string, int>, e: string, c: int, e': string, x: int)
    requires e' != e
    ensures VerifyOtp(codes[e := c], e', x) == VerifyOtp(codes, e', x)
  {
  }

  /** No code verifies for an email nothing was sent to. */
  lemma NothingSentNothingVerifies(codes: map<string, int>, e: string, x: int)
    requires e !in codes
    ensures !VerifyOtp(codes, e, x)
  {
  }

  /** A valid store only ever holds six-digit codes, so only those can verify. */
  lemma OnlySixDigitCodesVerify(store: OtpStore, e: string, x: int)
    requires store.Valid() && VerifyOtp(store.codes, e, x)
    ensures IsOtp(x)
  {
  }
}
