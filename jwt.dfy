/**
 * The jsonwebtoken library as the login and profile handlers use it:
 * `jwt.sign({ userId }, secret, { expiresIn: "1d" })` and
 * `jwt.verify(token, secret)`.
 *
 * A token is the compact serialisation of section 7.1 of RFC 7515: three
 * segments joined by '.', the protected header, the payload and the
 * signature. The header segment is the real one for HS256. The payload
 * segment stands in for base64url(JSON) with the decimal form
 * "userId,iat[,exp]", and the signature segment for base64url(HMAC-SHA256)
 * with a decimal fingerprint keyed by the secret.
 */
module Jwt {
  import opened Wrappers
  import opened Text

  /** `expiresIn: "1d"`, in seconds: the `exp` claim of section 4.1.4 of RFC 7519 is `iat + Lifetime`. */
  const Lifetime: nat := 86400

  /** base64url of {"alg":"HS256","typ":"JWT"}. */
  const HeaderSegment: string := "eyJhbGciOiJIUzI1NiIsInR5cCI6IkpXVCJ9"

  /** The registered claims the tokens carry; `exp` may be absent in a decoded payload. */
  datatype Claims = Claims(userId: nat, iat: nat, exp: Option<nat>)

  function EncodeClaims(c: Claims): (segment: string)
    ensures '.' !in segment
  {
    var fields := [Decimal(c.userId), Decimal(c.iat)] + (if c.exp.Some? then [Decimal(c.exp.value)] else []);
    JoinNoDot(fields);
    Join(fields, ',')
  }

  /** Decode a payload segment; `None` is the exception `atob`/`JSON.parse` would throw. */
  function DecodeClaims(segment: string): Option<Claims> {
    var fields := Split(segment, ',');
    var userId := ParseNat(fields[0]);
    if |fields| < 2 || |fields| > 3 || userId.None? then None
    else
      var iat := ParseNat(fields[1]);
      if iat.None? then None
      else if |fields| == 2 then Some(Claims(userId.value, iat.value, None))
      else
        var exp := ParseNat(fields[2]);
        if exp.None? then None
        else Some(Claims(userId.value, iat.value, Some(exp.value)))
  }

  lemma DecodeEncode(c: Claims)
    ensures DecodeClaims(EncodeClaims(c)) == Some(c)
  {
    var fields := [Decimal(c.userId), Decimal(c.iat)] + (if c.exp.Some? then [Decimal(c.exp.value)] else []);
    forall i | 0 <= i < |fields| ensures ',' !in fields[i] {
      DigitsExclude(fields[i], ',');
    }
    SplitJoin(fields, ',');
    ParseDecimal(c.userId);
    ParseDecimal(c.iat);
    if c.exp.Some? {
      ParseDecimal(c.exp.value);
    }
  }

  lemma DigitsExclude(s: string, c: char)
    requires AllDigits(s) && !IsDigit(c)
    ensures c !in s
  {
  }

  lemma JoinNoDot(fields: seq<string>)
    requires |fields| >= 1
    requires forall i :: 0 <= i < |fields| ==> AllDigits(fields[i])
    ensures '.' !in Join(fields, ',')
  {
    if |fields| > 1 {
      JoinNoDot(fields[1..]);
      forall k | 0 <= k < |fields[0]| ensures fields[0][k] != '.' {
        assert IsDigit(fields[0][k]);
      }
    } else {
      forall k | 0 <= k < |fields[0]| ensures fields[0][k] != '.' {
        assert IsDigit(fields[0][k]);
      }
    }
  }

  /** The signature segment: a keyed digest of the signing input "header.payload". */
  function Mac(secret: string, signingInput: string): (signature: string)
    ensures |signature| >= 1 && '.' !in signature
  {
    var d := Decimal(Fingerprint(secret + "." + signingInput));
    DigitsExclude(d, '.');
    d
  }

  function SigningInput(header: string, payload: string): string {
    Join([header, payload], '.')
  }

  /** Under one secret, different signing inputs get different signatures. */
  lemma MacInjective(secret: string, m1: string, m2: string)
    requires Mac(secret, m1) == Mac(secret, m2)
    ensures m1 == m2
  {
    DecimalInjective(Fingerprint(secret + "." + m1), Fingerprint(secret + "." + m2));
    FingerprintInjective(secret + "." + m1, secret + "." + m2);
    PrefixCancel(secret + ".", m1, m2);
  }

  /** Different payloads under one header are different signing inputs. */
  lemma SigningInputInjective(header: string, p1: string, p2: string)
    requires SigningInput(header, p1) == SigningInput(header, p2)
    ensures p1 == p2
  {
    assert [header, p1][1..] == [p1] && Join([p1], '.') == p1;
    assert [header, p2][1..] == [p2] && Join([p2], '.') == p2;
    assert SigningInput(header, p1) == header + "." + p1;
    assert SigningInput(header, p2) == header + "." + p2;
    PrefixCancel(header + ".", p1, p2);
  }

  /** `jwt.sign({ userId }, secret, { expiresIn: "1d" })` at `iat` seconds. */
  function Sign(secret: string, userId: nat, iat: nat): string {
    var payload := EncodeClaims(Claims(userId, iat, Some(iat + Lifetime)));
    Join([HeaderSegment, payload, Mac(secret, SigningInput(HeaderSegment, payload))], '.')
  }

  /**
   * `jwt.verify(token, secret)` at `now` seconds: the user id when the token
   * has three segments, the HS256 header and a signature that matches, its
   * payload decodes, and `now` is before `exp` (when present); otherwise
   * `None`, the single "Invalid Token" outcome.
   */
  function Verify(secret: string, token: string, now: nat): (r: Option<nat>)
  {
    var parts := Split(token, '.');
    if |parts| != 3 then None
    else if parts[0] != HeaderSegment || parts[2] != Mac(secret, SigningInput(parts[0], parts[1])) then None
    else
      var claims := DecodeClaims(parts[1]);
      if claims.None? then None
      else if claims.value.exp.Some? && now >= claims.value.exp.value then None
      else Some(claims.value.userId)
  }

  lemma JoinThree(a: string, b: string, c: string, sep: char)
    ensures Join([a, b, c], sep) == a + [sep] + b + [sep] + c
  {
    assert [a, b, c][1..] == [b, c];
    assert [b, c][1..] == [c];
    assert Join([b, c], sep) == b + [sep] + c;
    assert Join([a, b, c], sep) == a + [sep] + (b + [sep] + c);
  }

  lemma HeaderHasNoDot()
    ensures '.' !in HeaderSegment
  {
  }

  /** The three segments of a signed token. */
  lemma {:induction false} SignedSegments(secret: string, userId: nat, iat: nat)
    ensures var payload := EncodeClaims(Claims(userId, iat, Some(iat + Lifetime)));
            Split(Sign(secret, userId, iat), '.')
              == [HeaderSegment, payload, Mac(secret, SigningInput(HeaderSegment, payload))]
  {
    var payload := EncodeClaims(Claims(userId, iat, Some(iat + Lifetime)));
    HeaderHasNoDot();
    SplitJoin([HeaderSegment, payload, Mac(secret, SigningInput(HeaderSegment, payload))], '.');
  }

  /** A freshly signed token verifies to its user exactly until `iat + Lifetime`. */
  lemma {:induction false} VerifySign(secret: string, userId: nat, iat: nat, now: nat)
    ensures Verify(secret, Sign(secret, userId, iat), now)
              == if now < iat + Lifetime then Some(userId) else None
  {
    SignedSegments(secret, userId, iat);
    DecodeEncode(Claims(userId, iat, Some(iat + Lifetime)));
  }

  /** A signed token with its last character cut off never verifies. */
  lemma {:induction false} TruncatedTokenRejected(secret: string, userId: nat, iat: nat, now: nat)
    ensures var token := Sign(secret, userId, iat);
            |token| >= 1 && Verify(secret, token[..|token| - 1], now).None?
  {
    var payload := EncodeClaims(Claims(userId, iat, Some(iat + Lifetime)));
    var signature := Mac(secret, SigningInput(HeaderSegment, payload));
    var cut := signature[..|signature| - 1];
    var token := Sign(secret, userId, iat);
    JoinThree(HeaderSegment, payload, signature, '.');
    JoinThree(HeaderSegment, payload, cut, '.');
    assert signature == cut + [signature[|signature| - 1]];
    assert token == (HeaderSegment + "." + payload + "." + cut) + [signature[|signature| - 1]];
    assert token[..|token| - 1] == Join([HeaderSegment, payload, cut], '.');
    HeaderHasNoDot();
    SplitJoin([HeaderSegment, payload, cut], '.');
    assert |cut| != |signature|;
  }

  /**
   * Replacing the payload segment of a signed token with any other segment,
   * while keeping its signature, makes the token fail verification.
   */
  lemma {:induction false} TamperedPayloadRejected(secret: string, userId: nat, iat: nat, forged: string, now: nat)
    requires '.' !in forged
    requires forged != EncodeClaims(Claims(userId, iat, Some(iat + Lifetime)))
    ensures var payload := EncodeClaims(Claims(userId, iat, Some(iat + Lifetime)));
            Verify(secret, Join([HeaderSegment, forged, Mac(secret, SigningInput(HeaderSegment, payload))], '.'), now).None?
  {
    var payload := EncodeClaims(Claims(userId, iat, Some(iat + Lifetime)));
    HeaderHasNoDot();
    SplitJoin([HeaderSegment, forged, Mac(secret, SigningInput(HeaderSegment, payload))], '.');
    if Mac(secret, SigningInput(HeaderSegment, forged)) == Mac(secret, SigningInput(HeaderSegment, payload)) {
      MacInjective(secret, SigningInput(HeaderSegment, forged), SigningInput(HeaderSegment, payload));
      SigningInputInjective(HeaderSegment, forged, payload);
    }
  }
}
