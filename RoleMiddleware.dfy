/** The role gates of backend/internal/middleware/role_middleware.go. Each gate
    reads the role string put on the request earlier and either lets the request
    through or answers 403 and aborts. */
module RoleMiddleware {

  datatype Decision = Next | Forbidden(status: int, error: string)

  const StatusForbidden := 403

  function UserOnly(role: string): (d: Decision)
    ensures d.Next? <==> role == "user"
    ensures d.Forbidden? ==> d == Forbidden(StatusForbidden, "User access required")
  {
    if role != "user" then Forbidden(StatusForbidden, "User access required") else Next
  }

  function BrandOnly(role: string): (d: Decision)
    ensures d.Next? <==> role == "brand" || role == "admin"
    ensures d.Forbidden? ==> d == Forbidden(StatusForbidden, "Brand access required")
  {
    if role != "brand" && role != "admin" then Forbidden(StatusForbidden, "Brand access required") else Next
  }

  function UserOrBrand(role: string): (d: Decision)
    ensures d.Next? <==> role == "user" || role == "brand"
    ensures d.Forbidden? ==> d == Forbidden(StatusForbidden, "Authentication required")
  {
    if role != "user" && role != "brand" then Forbidden(StatusForbidden, "Authentication required") else Next
  }

  /** Every role UserOnly admits, UserOrBrand admits too; an admin passes only BrandOnly;
      no role passes both UserOnly and BrandOnly; a missing role ("") passes none. */
  lemma GatesCompared(role: string)
    ensures UserOnly(role).Next? ==> UserOrBrand(role).Next?
    ensures role == "admin" ==> BrandOnly(role).Next? && UserOrBrand(role).Forbidden? && UserOnly(role).Forbidden?
    ensures !(UserOnly(role).Next? && BrandOnly(role).Next?)
    ensures role == "" ==> UserOnly(role).Forbidden? && BrandOnly(role).Forbidden? && UserOrBrand(role).Forbidden?
  {
  }
}
