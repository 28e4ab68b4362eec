/** Bearer tokens: how a handler pulls the token out of the Authorization header, and the
    claims a JSON Web Token carries once its signature and expiry check out. Signing and
    verification themselves belong to the jsonwebtoken library and are parameters here. */
module Tokens {
  import opened Common

  /** The payload of a token. Staff tokens carry `userId`, customer tokens `customerId`;
      both carry `email` and `role`. */
  datatype Claims = Claims(userId: Option<int>, customerId: Option<int>, email: Option<string>, role: Option<string>)

  /** What `jwt.verify` makes of a token: its claims, or a thrown error. */
  datatype Verification = Verified(claims: Claims) | Invalid

  /** The outcome of an authentication middleware: admit the request with a principal,
      or answer it with a status code. */
  datatype Auth<+P> = Admit(principal: P) | Reject(status: int)

  /** Position of the first `c` in `s`, or |s| when there is none. */
  function IndexOf(s: string, c: char): (k: nat)
    ensures k <= |s|
    ensures k < |s| ==> s[k] == c
    ensures forall i :: 0 <= i < k ==> s[i] != c
  {
    if s == [] || s[0] == c then 0 else 1 + IndexOf(s[1..], c)
  }

  /** `authHeader && authHeader.split(" ")[1]`, with every falsy result (a missing
      header, no space, an empty piece) as `None`: the text between the first space
      and the next one. */
  function BearerToken(header: Option<string>): (t: Option<string>)
    ensures t.Some? ==> t.value != "" && ' ' !in t.value
  {
    if header.None? then None
    else
      var h := header.value;
      var i := IndexOf(h, ' ');
      if i == |h| then None
      else
        var rest := h[i + 1..];
        var piece := rest[..IndexOf(rest, ' ')];
        if piece == "" then None else Some(piece)
  }

  /** The header the client builds, `Bearer <token>`, gives the same token back to the
      server, for any token without spaces (a JSON Web Token has none). */
  lemma {:induction false} BearerRoundTrip(scheme: string, token: string)
    requires ' ' !in scheme
    requires token != "" && ' ' !in token
    ensures BearerToken(Some(scheme + " " + token)) == Some(token)
  {
    var h := scheme + " " + token;
    assert h[|scheme|] == ' ';
    assert forall i :: 0 <= i < |scheme| ==> h[i] == scheme[i];
    assert IndexOf(h, ' ') == |scheme|;
    assert h[|scheme| + 1..] == token;
    assert token[..IndexOf(token, ' ')] == token;
  }
}
