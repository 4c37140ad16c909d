/** The OTP generator of pkg/utils/security.go.

    crypto/rand is replaced by an oracle: `draw(i)` is the outcome of the
    i-th call of rand.Int(rand.Reader, big.NewInt(62)) made by one
    invocation, either an index in [0, 62) or an error. */
module Security {
  import opened Common

  /** The alphabet of security.go:11, written in five pieces so that the
      verifier can check its symbols piece by piece. */
  const UpperAM: string := "ABCDEFGHIJKLM"
  const UpperNZ: string := "NOPQRSTUVWXYZ"
  const LowerAM: string := "abcdefghijklm"
  const LowerNZ: string := "nopqrstuvwxyz"
  const Digits: string := "0123456789"
  const Charset: string := UpperAM + UpperNZ + LowerAM + LowerNZ + Digits

  type CharIndex = k: int | 0 <= k < 62

  datatype Draw = Drawn(k: CharIndex) | DrawError(reason: string)

  predicate IsAlphaNumeric(c: char) {
    'A' <= c <= 'Z' || 'a' <= c <= 'z' || '0' <= c <= '9'
  }

  predicate AllAlphaNumeric(s: string) {
    forall i :: 0 <= i < |s| ==> IsAlphaNumeric(s[i])
  }

  lemma UpperAlphaNumeric()
    ensures AllAlphaNumeric(UpperAM) && AllAlphaNumeric(UpperNZ)
  {
  }

  lemma LowerAlphaNumeric()
    ensures AllAlphaNumeric(LowerAM) && AllAlphaNumeric(LowerNZ)
  {
  }

  lemma DigitsAlphaNumeric()
    ensures AllAlphaNumeric(Digits)
  {
  }

  lemma ConcatAlphaNumeric(a: string, b: string)
    requires AllAlphaNumeric(a) && AllAlphaNumeric(b)
    ensures AllAlphaNumeric(a + b)
  {
    forall i | 0 <= i < |a + b|
      ensures IsAlphaNumeric((a + b)[i])
    {
      if i >= |a| {
        assert (a + b)[i] == b[i - |a|];
      }
    }
  }

  /** Every symbol of the 62-symbol alphabet is an ASCII letter or digit. */
  lemma CharsetIsAlphaNumeric(k: CharIndex)
    ensures |Charset| == 62 && IsAlphaNumeric(Charset[k])
  {
    UpperAlphaNumeric();
    LowerAlphaNumeric();
    DigitsAlphaNumeric();
    ConcatAlphaNumeric(UpperAM, UpperNZ);
    ConcatAlphaNumeric(UpperAM + UpperNZ, LowerAM);
    ConcatAlphaNumeric(UpperAM + UpperNZ + LowerAM, LowerNZ);
    ConcatAlphaNumeric(UpperAM + UpperNZ + LowerAM + LowerNZ, Digits);
  }

  /** The first `n` draws all succeed. */
  predicate DrawsSucceed(draw: nat -> Draw, n: nat) {
    forall i: nat :: i < n ==> draw(i).Drawn?
  }

  /** The code a fully successful run produces from its draws. */
  function CodeFromDraws(draw: nat -> Draw, n: nat): (code: string)
    requires DrawsSucceed(draw, n)
    ensures |code| == n
  {
    seq(n, i requires 0 <= i < n => Charset[draw(i).k])
  }

  /** GenerateAlNumOTP (security.go:10-21). `make([]byte, length)` panics on
      a negative length, hence the requires. On success the code holds one
      alphabet symbol per draw, in draw order; on the first failed draw the
      result is ("", that error) and no partial code escapes. */
  method GenerateAlNumOTP(length: int, draw: nat -> Draw) returns (otp: string, err: Option<string>)
    requires length >= 0
    ensures err.None? <==> DrawsSucceed(draw, length)
    ensures err.None? ==> |otp| == length && otp == CodeFromDraws(draw, length)
    ensures err.None? ==> forall i: nat :: i < length ==> draw(i).Drawn? && otp[i] == Charset[draw(i).k]
    ensures err.None? ==> forall i :: 0 <= i < |otp| ==> IsAlphaNumeric(otp[i])
    ensures err.Some? ==> otp == ""
    ensures err.Some? ==> exists j: nat :: j < length && DrawsSucceed(draw, j)
                                           && draw(j) == DrawError(err.value)
  {
    var buf := new char[length];
    for i := 0 to length
      invariant DrawsSucceed(draw, i)
      invariant forall m: nat :: m < i ==> buf[m] == Charset[draw(m).k]
    {
      var d := draw(i);
      if d.DrawError? {
        return "", Some(d.reason);
      }
      buf[i] := Charset[d.k];
    }
    otp, err := buf[..], None;
    forall i | 0 <= i < |otp|
      ensures IsAlphaNumeric(otp[i])
    {
      CharsetIsAlphaNumeric(draw(i).k);
    }
  }
}
