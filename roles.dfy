/**
 * The role constants of the frontend: which menu each role may see, and
 * how a role is shown to the user.
 */
module Roles {

  const Admin: string := "admin"
  const UserRole: string := "user"

  const RoleDisplayNames: map<string, string> := map[Admin := "Administrator", UserRole := "User"]

  /** Menu key to the roles that may see it. */
  const MenuRoleAccess: map<string, seq<string>> := map["dashboard" := [Admin, UserRole], "users" := [Admin]]

  /** `canAccessMenu(menuKey, userRole)`: a menu absent from the table is hidden from everyone. */
  function CanAccessMenu(menuKey: string, role: string): (r: bool)
    ensures r <==>
      || (menuKey == "dashboard" && (role == Admin || role == UserRole))
      || (menuKey == "users" && role == Admin)
  {
    if menuKey in MenuRoleAccess then role in MenuRoleAccess[menuKey] else false
  }

  /** `getRoleDisplayName(role)`: the display name of a known role, any other role unchanged. */
  function GetRoleDisplayName(role: string): (r: string)
    ensures role == Admin ==> r == "Administrator"
    ensures role == UserRole ==> r == "User"
    ensures role != Admin && role != UserRole ==> r == role
  {
    if role in RoleDisplayNames then RoleDisplayNames[role] else role
  }

  /** Every menu a plain user can see, an administrator can see too. */
  lemma AdminSeesUserMenus(menuKey: string)
    ensures CanAccessMenu(menuKey, UserRole) ==> CanAccessMenu(menuKey, Admin)
  {
  }

  /** A role other than 'admin' and 'user' sees no menu at all. */
  lemma UnknownRoleSeesNothing(menuKey: string, role: string)
    requires role != Admin && role != UserRole
    ensures !CanAccessMenu(menuKey, role)
  {
  }
}
