/** The role gate of backend/middleware/authorizeRoles.js: a staff request passes when the
    role in its token, trimmed and lower-cased, is one of the allowed roles, trimmed and
    lower-cased. */
module Roles {
  import opened Common
  import opened Text

  /** What a middleware does with a request: hand it to the next handler, or answer it. */
  datatype Gate = Next | Respond(status: int)

  /** The comparison key of a role name. */
  function RoleKey(role: string): string {
    ToLower(Trim(role))
  }

  function AllowedKeys(allowed: seq<string>): (keys: seq<string>)
    ensures |keys| == |allowed|
    ensures forall i :: 0 <= i < |allowed| ==> keys[i] == RoleKey(allowed[i])
  {
    if allowed == [] then [] else [RoleKey(allowed[0])] + AllowedKeys(allowed[1..])
  }

  /** `authorizeRoles(...allowed)` applied to a request whose token carries `role`
      (`None` when the token has no role). */
  function AuthorizeRoles(role: Option<string>, allowed: seq<string>): (g: Gate)
    ensures g.Respond? ==> g.status == 403
    ensures role.None? || role.value == "" || allowed == [] ==> g == Respond(403)
  {
    if role.None? || role.value == "" then Respond(403)
    else if RoleKey(role.value) in AllowedKeys(allowed) then Next
    else Respond(403)
  }

  /** Two role names the gate cannot tell apart. */
  predicate SameRole(a: string, b: string) {
    RoleKey(a) == RoleKey(b)
  }

  // ---------------------------------------------------------------- lemmas

  /** A request passes exactly when its role is present, non-empty and names the same
      role as some allowed entry; every other request is answered with 403 and never
      reaches the next handler. */
  lemma {:induction false} AuthorizeRolesIff(role: Option<string>, allowed: seq<string>)
    ensures AuthorizeRoles(role, allowed) == Next <==>
              role.Some? && role.value != "" && exists a :: a in allowed && SameRole(role.value, a)
    ensures AuthorizeRoles(role, allowed) != Next ==> AuthorizeRoles(role, allowed) == Respond(403)
  {
    if role.Some? && role.value != "" {
      var keys := AllowedKeys(allowed);
      if RoleKey(role.value) in keys {
        var i :| 0 <= i < |keys| && keys[i] == RoleKey(role.value);
        assert allowed[i] in allowed && SameRole(role.value, allowed[i]);
      }
      if exists a :: a in allowed && SameRole(role.value, a) {
        var a :| a in allowed && SameRole(role.value, a);
        var i :| 0 <= i < |allowed| && allowed[i] == a;
        assert keys[i] == RoleKey(role.value);
      }
    }
  }

  lemma {:induction false} RoleKeyPadded(r: string, variant: string, p1: string, p2: string)
    requires Trimmed(r) && AllSpace(p1) && AllSpace(p2)
    requires ToLower(variant) == ToLower(r) && Trimmed(variant)
    ensures RoleKey(p1 + variant + p2) == RoleKey(r)
  {
    TrimPadded(p1, variant, p2);
    TrimPadded([], r, []);
    assert [] + r + [] == r;
  }

  /** Whitespace around the role and the case of its letters never change the decision:
      " manager " passes wherever "Manager" does. */
  lemma {:induction false} AuthorizeIgnoresPaddingAndCase(r: string, variant: string, p1: string, p2: string, allowed: seq<string>)
    requires r != "" && Trimmed(r) && AllSpace(p1) && AllSpace(p2)
    requires ToLower(variant) == ToLower(r) && Trimmed(variant)
    ensures AuthorizeRoles(Some(p1 + variant + p2), allowed) == AuthorizeRoles(Some(r), allowed)
  {
    RoleKeyPadded(r, variant, p1, p2);
    assert |variant| == |ToLower(variant)| == |r|;
    assert p1 + variant + p2 != "";
  }

  /** Allowing more roles never turns an allowed request into a denied one. */
  lemma {:induction false} AuthorizeMonotone(role: Option<string>, allowed: seq<string>, more: seq<string>)
    requires AuthorizeRoles(role, allowed) == Next
    ensures AuthorizeRoles(role, allowed + more) == Next
  {
    AuthorizeRolesIff(role, allowed);
    var a :| a in allowed && SameRole(role.value, a);
    assert a in allowed + more;
    AuthorizeRolesIff(role, allowed + more);
  }
}
