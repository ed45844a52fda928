/**
 * `is_token_expired`: the freshness test for a JWT (RFC 7519) in compact serialisation
 * (section 7.1 of RFC 7515: header, payload and signature joined by '.').
 */
module TokenExpiry {
  import opened Wrappers
  import opened Text

  /** What the decoded payload says about the `exp` claim (section 4.1.4 of RFC 7519). */
  datatype ExpClaim =
    | ExpMissing               // no `exp` key, or `exp` is null
    | ExpNumber(seconds: int)  // a numeric `exp`, in seconds since the epoch
    | ExpNotNumber             // any other JSON value

  /**
   * Base64 decoding followed by JSON parsing of the padded payload, kept abstract.
   * None stands for every failure: bad base64, bad JSON, or a JSON value that is not an object.
   */
  type ClaimsDecoder = string -> Option<ExpClaim>

  /** A token that expires within this many seconds is already treated as expired. */
  const ExpiryBufferSeconds: int := 300

  /** `payload + '=' * (4 - len(payload) % 4)`: one to four '=' characters, four when none were needed. */
  function Padded(payload: string): (p: string)
    ensures |p| % 4 == 0
    ensures 1 <= |p| - |payload| <= 4
    ensures |p| - |payload| == 4 <==> |payload| % 4 == 0
    ensures p[..|payload|] == payload
    ensures forall i :: |payload| <= i < |p| ==> p[i] == '='
  {
    payload + seq(4 - |payload| % 4, _ => '=')
  }

  /** The middle part of `token.split('.')` when there are exactly three parts. */
  function PayloadSegment(token: string): string
    requires Count(token, '.') == 2
  {
    Split(token, '.')[1]
  }

  /** A three-part token is its header, payload and signature joined by dots, none of which holds a dot. */
  lemma PayloadBetweenDots(token: string)
    requires Count(token, '.') == 2
    ensures var parts := Split(token, '.');
      && token == parts[0] + "." + PayloadSegment(token) + "." + parts[2]
      && '.' !in PayloadSegment(token)
  {
    var parts := Split(token, '.');
    JoinSplit(token, '.');
    assert parts[1..][1..] == [parts[2]];
    assert Join(parts[1..][1..], '.') == parts[2];
    assert Join(parts[1..], '.') == parts[1] + "." + parts[2];
    assert Join(parts, '.') == parts[0] + "." + (parts[1] + "." + parts[2]);
  }

  /** `is_token_expired(token)` at epoch second `now`. */
  function IsTokenExpired(token: string, now: int, decode: ClaimsDecoder): (expired: bool)
    ensures Count(token, '.') != 2 ==> expired
    ensures !expired <==>
      && Count(token, '.') == 2
      && var claims := decode(Padded(PayloadSegment(token)));
      && claims.Some? && claims.value.ExpNumber? && claims.value.seconds != 0
      && now < claims.value.seconds - ExpiryBufferSeconds
  {
    var parts := Split(token, '.');
    if |parts| != 3 then true
    else
      match decode(Padded(parts[1]))
      case None => true
      case Some(ExpMissing) => true
      case Some(ExpNotNumber) => true
      case Some(ExpNumber(exp)) => exp == 0 || now >= exp - ExpiryBufferSeconds
  }

  /** Once a token is judged expired it stays expired as time goes on. */
  lemma ExpiredStaysExpired(token: string, now: int, later: int, decode: ClaimsDecoder)
    requires IsTokenExpired(token, now, decode) && now <= later
    ensures IsTokenExpired(token, later, decode)
  {
  }
}
