/**
 * `RoleBasedPermission.has_permission`: a request is let through when the
 * user's `role` attribute is among the view's `allowed_roles`.
 */
module Permissions {
  import opened Wrappers
  import opened Choices
  import opened Models
  import Webhook

  /**
   * `getattr(request.user, "role", None) in getattr(view, "allowed_roles", [])`.
   * A user without a role is `None`; a view without the attribute allows nobody.
   */
  function HasPermission(userRole: Option<string>, allowedRoles: Option<seq<Option<string>>>): (granted: bool)
    ensures granted <==> allowedRoles.Some? && userRole in allowedRoles.value
  {
    var allowed := if allowedRoles.Some? then allowedRoles.value else [];
    userRole in allowed
  }

  /** The `allowed_roles` list naming the given roles. */
  function Roles(rs: seq<Role>): (allowed: seq<Option<string>>)
    ensures |allowed| == |rs|
    ensures forall i :: 0 <= i < |rs| ==> allowed[i] == Some(RoleValue(rs[i]))
  {
    if rs == [] then [] else [Some(RoleValue(rs[0]))] + Roles(rs[1..])
  }

  /** A user holding role `r` is let through a view listing `rs` exactly when `r` is listed. */
  lemma RoleListed(r: Role, rs: seq<Role>)
    ensures HasPermission(Some(RoleValue(r)), Some(Roles(rs))) <==> r in rs
  {
    if r in rs {
      var i :| 0 <= i < |rs| && rs[i] == r;
      assert Roles(rs)[i] == Some(RoleValue(r));
    }
    if Some(RoleValue(r)) in Roles(rs) {
      var i :| 0 <= i < |rs| && Roles(rs)[i] == Some(RoleValue(r));
      RoleValueInjective(rs[i], r);
    }
  }

  lemma RoleValueInjective(a: Role, b: Role)
    requires RoleValue(a) == RoleValue(b)
    ensures a == b
  {
  }

  /** `CreateRazorpayOrderView.allowed_roles`: guests only. */
  const BookingRoles: seq<Role> := [Guest]

  /** The property views: administrators, and guests where listing, retrieving or searching nearby. */
  const BrowsingRoles: seq<Role> := [Admin, Guest]
  const AdminRoles: seq<Role> := [Admin]

  /** A user without a role attribute is refused unless `None` is listed. */
  lemma NoRoleRefused(allowed: seq<Option<string>>)
    requires None !in allowed
    ensures !HasPermission(None, Some(allowed))
  {
  }

  /** No role at all passes a view that has no `allowed_roles`. */
  lemma NoAllowedRoles(userRole: Option<string>)
    ensures !HasPermission(userRole, None)
  {
  }

  /**
   * A customer is refused by every role-checked view, and only a guest may
   * create a booking.
   */
  lemma {:induction false} CustomerLockedOut(r: Role)
    ensures HasPermission(Some(RoleValue(r)), Some(Roles(BookingRoles))) <==> r == Guest
    ensures !HasPermission(Some(RoleValue(Customer)), Some(Roles(BookingRoles)))
    ensures !HasPermission(Some(RoleValue(Customer)), Some(Roles(BrowsingRoles)))
    ensures !HasPermission(Some(RoleValue(Customer)), Some(Roles(AdminRoles)))
  {
    RoleListed(r, BookingRoles);
    RoleListed(Customer, BookingRoles);
    RoleListed(Customer, BrowsingRoles);
    RoleListed(Customer, AdminRoles);
  }

  /**
   * The webhook makes the paying user a customer, so that user is refused
   * the next booking request.
   */
  lemma {:induction false} PaidUserCannotBookAgain(t: Tables, u: Id)
    requires u in t.users
    ensures u in Webhook.MadeCustomer(t, u).users
    ensures !HasPermission(Some(RoleValue(Webhook.MadeCustomer(t, u).users[u].role)), Some(Roles(BookingRoles)))
  {
    CustomerLockedOut(Customer);
  }
}
