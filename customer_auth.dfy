/** backend/middleware/customerAuth.js: admits a request only with a verified token whose
    role is exactly "customer", and records the customer principal taken from it. */
module CustomerAuth {
  import opened Common
  import opened Tokens

  /** What the middleware writes to `req.customer`. */
  datatype CustomerPrincipal = CustomerPrincipal(id: Option<int>, email: Option<string>)

  const CustomerRole := "customer"

  /** `authenticateCustomer`, given the request's Authorization header and the verifier. */
  function AuthenticateCustomer(header: Option<string>, verify: string -> Verification): (r: Auth<CustomerPrincipal>)
    ensures r.Reject? ==> r.status == 401 || r.status == 403
    ensures r == Reject(401) <==> BearerToken(header).None?
    ensures r.Admit? <==>
              BearerToken(header).Some? &&
              verify(BearerToken(header).value).Verified? &&
              verify(BearerToken(header).value).claims.role == Some(CustomerRole)
    ensures r.Admit? ==>
              var c := verify(BearerToken(header).value).claims;
              r.principal == CustomerPrincipal(c.customerId, c.email)
  {
    var token := BearerToken(header);
    if token.None? then Reject(401)
    else
      match verify(token.value)
      case Invalid => Reject(403)
      case Verified(c) =>
        if c.role != Some(CustomerRole) then Reject(403)
        else Admit(CustomerPrincipal(c.customerId, c.email))
  }
}
