/** The request and response interceptors of frontend/src/api/config.js: which stored
    token the browser client sends with a request, and how a failed request is turned
    into the error the pages see. The stored tokens are parameters (`None` for a missing
    localStorage entry). */
module ClientConfig {
  import opened Common
  import opened Text
  import opened Tokens

  const CustomersPrefix := "/customers/"

  predicate IsDigit(c: char) { '0' <= c <= '9' }

  /** `/\/customers\/\d+\/(vehicles|orders)/` matches at position `i` of `url`, with the
      digits ending at `j`. */
  predicate CustomerRouteAt(url: string, i: int, j: int) {
    0 <= i && i + |CustomersPrefix| < j <= |url| &&
    url[i..i + |CustomersPrefix|] == CustomersPrefix &&
    (forall k :: i + |CustomersPrefix| <= k < j ==> IsDigit(url[k])) &&
    (StartsWith(url[j..], "/vehicles") || StartsWith(url[j..], "/orders"))
  }

  /** The pattern occurs anywhere in the url (`RegExp.prototype.test`). */
  predicate IsCustomerSpecificRoute(url: string) {
    exists i, j :: 0 <= i < j <= |url| && CustomerRouteAt(url, i, j)
  }

  /** `needsCustomerToken`: customer-specific routes, creating an order, the
      recommendation and chatbot routes. `verb` (the request method) is compared lower-cased. */
  predicate NeedsCustomerToken(url: string, verb: string) {
    IsCustomerSpecificRoute(url) ||
    (url == "/orders" && ToLower(verb) == "post") ||
    Contains(url, "/recommendations") ||
    Contains(url, "/chatbot")
  }

  /** A stored token is used only when it is truthy: present and not empty. */
  predicate Present(t: Option<string>) {
    t.Some? && t.value != ""
  }

  /** The Authorization header the request interceptor sets, if any. */
  function AuthorizationHeader(url: Option<string>, verb: Option<string>,
                               token: Option<string>, customerToken: Option<string>): (h: Option<string>)
    ensures h.Some? ==> (Present(token) && h.value == "Bearer " + token.value) ||
                        (Present(customerToken) && h.value == "Bearer " + customerToken.value)
    ensures Present(customerToken) ==> h.Some?
  {
    var u := url.GetOr("");
    var m := verb.GetOr("");
    if NeedsCustomerToken(u, m) then
      if Present(customerToken) then Some("Bearer " + customerToken.value) else None
    else if Present(token) then Some("Bearer " + token.value)
    else if Present(customerToken) then Some("Bearer " + customerToken.value)
    else None
  }

  /** The token the header carries: the customer token when the route needs it (none if
      it is missing, even with a staff token stored); otherwise the staff token, falling
      back to the customer token. */
  lemma HeaderChoice(url: Option<string>, verb: Option<string>, token: Option<string>, customerToken: Option<string>)
    ensures var h := AuthorizationHeader(url, verb, token, customerToken);
            var needs := NeedsCustomerToken(url.GetOr(""), verb.GetOr(""));
            (needs && Present(customerToken) ==> h == Some("Bearer " + customerToken.value)) &&
            (needs && !Present(customerToken) ==> h == None) &&
            (!needs && Present(token) ==> h == Some("Bearer " + token.value)) &&
            (!needs && !Present(token) && Present(customerToken) ==> h == Some("Bearer " + customerToken.value)) &&
            (h == None <==> (needs && !Present(customerToken)) || (!Present(token) && !Present(customerToken)))
  {
  }

  /** The method comparison ignores case. */
  lemma {:induction false} MethodCaseInsensitive(url: Option<string>, verb: string, token: Option<string>,
                                                 customerToken: Option<string>)
    ensures AuthorizationHeader(url, Some(verb), token, customerToken) ==
            AuthorizationHeader(url, Some(ToLower(verb)), token, customerToken)
  {
    ToLowerIdempotent(verb);
  }

  /** A creation of an order from the customer pages always carries the customer token,
      whatever the case of the method name. */
  lemma {:induction false} OrderCreateUsesCustomerToken(verb: string, token: Option<string>, customerToken: string)
    requires ToLower(verb) == "post" && customerToken != ""
    ensures AuthorizationHeader(Some("/orders"), Some(verb), token, Some(customerToken)) == Some("Bearer " + customerToken)
  {
  }

  /** A customer-specific path such as `/customers/7/vehicles` needs the customer token. */
  lemma {:induction false} CustomerVehiclesRoute(digits: string, rest: string)
    requires digits != [] && forall k :: 0 <= k < |digits| ==> IsDigit(digits[k])
    ensures IsCustomerSpecificRoute(CustomersPrefix + digits + "/vehicles" + rest)
  {
    var url := CustomersPrefix + digits + "/vehicles" + rest;
    var j := |CustomersPrefix| + |digits|;
    assert url[0..|CustomersPrefix|] == CustomersPrefix;
    assert forall k :: |CustomersPrefix| <= k < j ==> url[k] == digits[k - |CustomersPrefix|];
    assert url[j..][..|"/vehicles"|] == "/vehicles";
    assert CustomerRouteAt(url, 0, j);
  }

  /** Whatever token the client chose, the server's bearer extraction recovers it. */
  lemma {:induction false} HeaderReachesServer(url: Option<string>, verb: Option<string>,
                                               token: Option<string>, customerToken: Option<string>)
    requires token.Some? ==> ' ' !in token.value
    requires customerToken.Some? ==> ' ' !in customerToken.value
    ensures var h := AuthorizationHeader(url, verb, token, customerToken);
            h.Some? ==> BearerToken(h).Some? && (BearerToken(h) == token || BearerToken(h) == customerToken)
  {
    if Present(token) {
      BearerRoundTrip("Bearer", token.value);
      assert "Bearer" + " " + token.value == "Bearer " + token.value;
    }
    if Present(customerToken) {
      BearerRoundTrip("Bearer", customerToken.value);
      assert "Bearer" + " " + customerToken.value == "Bearer " + customerToken.value;
    }
  }

  // ---------------------------------------------------------------- response errors

  /** A failed request as axios reports it. `dataMessage` is `data?.message`. */
  datatype RequestError =
    | WithResponse(status: int, dataMessage: Option<string>, message: Option<string>)
    | NoResponse
    | Failed(message: Option<string>)

  /** What the page receives: a message and the response status, `None` for `null`. */
  datatype MappedError = MappedError(message: string, status: Option<int>)

  /** `a || b` over strings, `None` and "" being falsy. */
  function Or(a: Option<string>, b: string): (r: string)
    ensures a.Some? && a.value != "" ==> r == a.value
    ensures a.None? || a.value == "" ==> r == b
  {
    if a.Some? && a.value != "" then a.value else b
  }

  /** The response interceptor's error branch. */
  function MapError(e: RequestError): (r: MappedError)
    ensures r.message != ""
    ensures e.WithResponse? ==> r.status == Some(e.status)
    ensures !e.WithResponse? ==> r.status == None
    ensures e.NoResponse? ==> r.message == "Network error. Please check your connection."
    ensures e.WithResponse? && e.dataMessage.Some? && e.dataMessage.value != "" ==> r.message == e.dataMessage.value
    ensures e.WithResponse? ==> r.message == Or(e.dataMessage, Or(e.message, "An error occurred"))
    ensures e.Failed? ==> r.message == Or(e.message, "An unexpected error occurred")
  {
    match e
    case WithResponse(status, dataMessage, message) =>
      MappedError(Or(dataMessage, Or(message, "An error occurred")), Some(status))
    case NoResponse => MappedError("Network error. Please check your connection.", None)
    case Failed(message) => MappedError(Or(message, "An unexpected error occurred"), None)
  }
}
