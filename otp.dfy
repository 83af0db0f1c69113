/**
 * One-time passwords (OtpUtils): six decimal digits drawn one at a time.
 * The random source is an input: the sequence of values `nextInt(10)` returns.
 */
module Otp {
  import opened Domain

  /** The number of digits in a one-time password. */
  const OtpLength: nat := 6

  /**
   * `generateOTP`: appends the character of each of the first six draws in
   * draw order.  The result is a string, so a leading zero is kept.
   */
  method GenerateOtp(draws: seq<nat>) returns (otp: string)
    requires |draws| >= OtpLength
    requires forall i :: 0 <= i < |draws| ==> draws[i] < 10
    ensures |otp| == OtpLength && IsDecimal(otp)
    ensures forall i :: 0 <= i < OtpLength ==> DigitValue(otp[i]) == draws[i]
  {
    otp := [];
    var i := 0;
    while i < OtpLength
      invariant 0 <= i <= OtpLength
      invariant |otp| == i && IsDecimal(otp)
      invariant forall j :: 0 <= j < i ==> otp[j] == DigitChar(draws[j])
    {
      otp := otp + [DigitChar(draws[i])];
      i := i + 1;
    }
  }
}
