/**
 * Hash generation for the credential flow (src/lib/auth/utils.js and
 * src/lib/auth/api.js). The digest function, SHA-256 rendered as hex, is
 * passed in as `sha`: nothing here depends on what it computes, only on which
 * string it is applied to. `now` stands for `Date.now()`.
 */
module AuthHash {
  import opened Wrappers
  import opened JsText

  /** utils.js `generateHash`, as written: email and phone run together with no separator. */
  function UtilsPreimage(email: string, phone: string, now: nat): (p: string)
    ensures |p| == |email| + |phone| + 1 + |NatDecimal(now)|
    ensures p[..|email| + |phone|] == email + phone
    ensures p[|email| + |phone|] == ':'
    ensures p[|email| + |phone| + 1..] == NatDecimal(now)
  {
    email + phone + ":" + NatDecimal(now)
  }

  /**
   * The utils.js hash depends on email and phone only through their
   * concatenation: it is the hash of the run-together pair with an empty phone.
   */
  function GenerateHash(sha: string -> string, email: string, phone: string, now: nat): (h: string)
    ensures h == sha(UtilsPreimage(email + phone, "", now))
  {
    assert email + phone + "" == email + phone;
    sha(UtilsPreimage(email, phone, now))
  }

  /**
   * The missing separator lets two different (email, phone) pairs share a
   * preimage, and so a hash, at the same instant.
   */
  lemma UtilsPreimageCollides(sha: string -> string, now: nat)
    ensures ("ab", "c") != ("a", "bc")
    ensures UtilsPreimage("ab", "c", now) == UtilsPreimage("a", "bc", now)
    ensures GenerateHash(sha, "ab", "c", now) == GenerateHash(sha, "a", "bc", now)
  {
  }

  /** api.js `generateAndSendHash`: email, phone and time separated by colons. */
  function ApiPreimage(email: string, phone: string, now: nat): (p: string)
    ensures |p| == |email| + |phone| + 2 + |NatDecimal(now)|
    ensures p[..|email|] == email && p[|email|] == ':'
    ensures p[|email| + 1..|email| + 1 + |phone|] == phone && p[|email| + 1 + |phone|] == ':'
    ensures p[|email| + |phone| + 2..] == NatDecimal(now)
  {
    email + ":" + phone + ":" + NatDecimal(now)
  }

  /**
   * The hash returned by `generateAndSendHash`; the two console lines that
   * follow it are output only. It is the utils.js hash with a colon appended
   * to the email, which is what keeps the two fields apart.
   */
  function GenerateAndSendHash(sha: string -> string, email: string, phone: string, now: nat): (h: string)
    ensures h == GenerateHash(sha, email + ":", phone, now)
  {
    sha(ApiPreimage(email, phone, now))
  }

  /** Takes a preimage of the api.js form apart again. */
  function ParseApiPreimage(s: string): Option<(string, string, nat)> {
    match SplitAtFirst(s, ':')
    case None => None
    case Some((email, rest)) =>
      match SplitAtFirst(rest, ':')
      case None => None
      case Some((phone, digits)) =>
        if AllDigits(digits) then Some((email, phone, ParseNat(digits))) else None
  }

  /**
   * When neither email nor phone contains ':', the api.js preimage
   * determines email, phone and timestamp.
   */
  lemma ApiPreimageRoundTrip(email: string, phone: string, now: nat)
    requires ':' !in email && ':' !in phone
    ensures ParseApiPreimage(ApiPreimage(email, phone, now)) == Some((email, phone, now))
  {
    var digits := NatDecimal(now);
    var rest := phone + ":" + digits;
    assert ApiPreimage(email, phone, now) == email + [':'] + rest;
    SplitAtFirstJoin(email, rest, ':');
    assert rest == phone + [':'] + digits;
    SplitAtFirstJoin(phone, digits, ':');
    ParseNatDecimal(now);
  }

  /** Hence two registrations with colon-free fields share a preimage only if all three inputs agree. */
  lemma ApiPreimageInjective(e1: string, p1: string, t1: nat, e2: string, p2: string, t2: nat)
    requires ':' !in e1 && ':' !in p1 && ':' !in e2 && ':' !in p2
    requires ApiPreimage(e1, p1, t1) == ApiPreimage(e2, p2, t2)
    ensures e1 == e2 && p1 == p2 && t1 == t2
  {
    ApiPreimageRoundTrip(e1, p1, t1);
    ApiPreimageRoundTrip(e2, p2, t2);
  }

  /** Unlike the utils.js form, the api.js form keeps the pair that collides there apart. */
  lemma ApiPreimageSeparates(now: nat)
    ensures ApiPreimage("ab", "c", now) != ApiPreimage("a", "bc", now)
  {
    if ApiPreimage("ab", "c", now) == ApiPreimage("a", "bc", now) {
      ApiPreimageInjective("ab", "c", now, "a", "bc", now);
    }
  }

  /** `${VITE_GATEWAY_URL}/ipfs/${cid}` */
  function GatewayUrl(gatewayBase: string, cid: string): (url: string)
    ensures |url| == |gatewayBase| + 6 + |cid|
    ensures url[..|gatewayBase|] == gatewayBase
    ensures url[|gatewayBase|..|gatewayBase| + 6] == "/ipfs/"
    ensures url[|url| - |cid|..] == cid
  {
    gatewayBase + "/ipfs/" + cid
  }

  /** The locator `uploadUserData` returns for a pin with content id `cid`. */
  datatype Locator = Locator(cid: string, gatewayUrl: string)

  /**
   * `uploadUserData` around the upload's outcome: on success the content id
   * comes back unchanged beside its gateway URL; a failure is rethrown as is.
   */
  function UploadUserData<E>(gatewayBase: string, pinned: Result<string, E>): (r: Result<Locator, E>)
    ensures pinned.Failure? ==> r == Failure(pinned.error)
    ensures pinned.Success? ==> r.Success? && r.value.cid == pinned.value
    ensures pinned.Success? ==> r.value.gatewayUrl == GatewayUrl(gatewayBase, pinned.value)
  {
    match pinned
    case Success(cid) => Success(Locator(cid, GatewayUrl(gatewayBase, cid)))
    case Failure(e) => Failure(e)
  }
}
