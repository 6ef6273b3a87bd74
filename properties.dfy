/** What the two built-in profiles grant, and how they differ. Each lemma
    about a checker speaks of one whose table is the one a factory builds
    (NewStandardPermissions or NewHangoutPermissions ensure exactly that). */
module PermissionProperties {
  import opened Permissions

  /** In the standard mode a user may sign in and a web proxy may not: the
      web role is known, so it is refused for lack of that permission. A
      user is likewise refused what is not in its list. */
  lemma StandardSignIn(sp: StandardPermissions)
    requires sp.permissions == StandardProfile()
    ensures sp.HasPermission(User, ActionSignIn) == Ok
    ensures sp.HasPermission(Web, ActionSignIn) == Denied(NoPermissionForAction(Web, ActionSignIn))
    ensures sp.HasPermission(User, ActionUpsertCertAuthority)
            == Denied(NoPermissionForAction(User, ActionUpsertCertAuthority))
  {
  }

  /** In the hangout mode a user keeps the certificate actions and loses
      sign-in and the listing of sessions and events. */
  lemma HangoutUserRestricted(sp: StandardPermissions)
    requires sp.permissions == HangoutProfile()
    ensures sp.HasPermission(User, ActionGenerateUserCert) == Ok
    ensures sp.HasPermission(User, ActionGetCertAuthorities) == Ok
    ensures sp.HasPermission(User, ActionSignIn) == Denied(NoPermissionForAction(User, ActionSignIn))
    ensures sp.HasPermission(User, ActionGetSessions) == Denied(NoPermissionForAction(User, ActionGetSessions))
    ensures sp.HasPermission(User, ActionGetEvents) == Denied(NoPermissionForAction(User, ActionGetEvents))
  {
  }

  /** A node gains three authority-management actions in the hangout mode,
      refused to it in the standard mode, and loses nothing. */
  lemma NodeElevatedInHangout(std: StandardPermissions, hang: StandardPermissions, action: string)
    requires std.permissions == StandardProfile()
    requires hang.permissions == HangoutProfile()
    requires action in {ActionUpsertCertAuthority, ActionUpsertSession, ActionGetAuthServers}
    ensures hang.HasPermission(Node, action) == Ok
    ensures std.HasPermission(Node, action) == Denied(NoPermissionForAction(Node, action))
  {
  }

  /** Everything a node may do in the standard mode it may do in the hangout mode. */
  lemma NodeLosesNothingInHangout(std: StandardPermissions, hang: StandardPermissions, action: string)
    requires std.permissions == StandardProfile()
    requires hang.permissions == HangoutProfile()
    requires std.HasPermission(Node, action) == Ok
    ensures hang.HasPermission(Node, action) == Ok
  {
  }

  /** The ephemeral remote peer has an entry only in the hangout table,
      where its one grant is GenerateUserCert; the standard mode does not
      know it at all. */
  lemma HangoutRemoteUserOnlyInHangout(std: StandardPermissions, hang: StandardPermissions, action: string)
    requires std.permissions == StandardProfile()
    requires hang.permissions == HangoutProfile()
    ensures std.HasPermission(HangoutRemoteUser, action) == Denied(RoleNotAllowed(HangoutRemoteUser))
    ensures hang.HasPermission(HangoutRemoteUser, action) == Ok <==> action == ActionGenerateUserCert
  {
  }

  /** The auth role is listed among the standard roles, yet the standard
      table has no entry for it, so it is refused every action as a role
      that is not allowed. */
  lemma AuthListedButUnknown(sp: StandardPermissions, action: string)
    requires sp.permissions == StandardProfile()
    ensures Auth in StandardRoles
    ensures sp.HasPermission(Auth, action) == Denied(RoleNotAllowed(Auth))
  {
  }

  /** Neither table holds an entry for the administrator, who passes anyway. */
  lemma AdminNeedsNoEntry(sp: StandardPermissions, action: string)
    requires sp.permissions == StandardProfile() || sp.permissions == HangoutProfile()
    ensures Admin !in sp.permissions
    ensures sp.HasPermission(Admin, action) == Ok
  {
  }

  /** Every listed hangout role other than the administrator has an entry
      in the hangout table; among the listed standard roles only the
      administrator and the auth role lack one in the standard table. */
  lemma ListedRolesHaveEntries()
    ensures forall i :: 0 <= i < |HangoutRoles| ==> HangoutRoles[i] == Admin || HangoutRoles[i] in HangoutProfile()
    ensures forall i :: 0 <= i < |StandardRoles| ==>
              (StandardRoles[i] in StandardProfile() <==> StandardRoles[i] !in {Admin, Auth})
  {
  }

  /** Role by role, how the hangout table differs from the standard one. */
  lemma ProfileDifferences()
    ensures HangoutProfile().Keys == StandardProfile().Keys + {HangoutRemoteUser}
    ensures HangoutProfile()[User] < StandardProfile()[User]
    ensures StandardProfile()[User] - HangoutProfile()[User]
            == {ActionSignIn, ActionCreateWebSession, ActionGetSession, ActionGetSessions, ActionGetEvents}
    ensures HangoutProfile()[Web] < StandardProfile()[Web]
    ensures StandardProfile()[Web] - HangoutProfile()[Web]
            == {ActionCreateWebSession, ActionGetSession, ActionGetSessions, ActionGetEvents}
    ensures StandardProfile()[Node] < HangoutProfile()[Node]
    ensures HangoutProfile()[Node] - StandardProfile()[Node]
            == {ActionUpsertCertAuthority, ActionUpsertSession, ActionGetAuthServers}
    ensures StandardProfile()[ProvisionToken] < HangoutProfile()[ProvisionToken]
    ensures HangoutProfile()[ProvisionToken] - StandardProfile()[ProvisionToken] == {ActionGenerateUserCert}
    ensures HangoutProfile()[Signup] == StandardProfile()[Signup]
  {
  }

  /** Neither mode is a restriction of the other: each grants some request
      the other refuses. */
  lemma ProfilesIncomparable(std: StandardPermissions, hang: StandardPermissions)
    requires std.permissions == StandardProfile()
    requires hang.permissions == HangoutProfile()
    ensures exists role, action :: std.HasPermission(role, action) == Ok && hang.HasPermission(role, action) != Ok
    ensures exists role, action :: hang.HasPermission(role, action) == Ok && std.HasPermission(role, action) != Ok
  {
    HangoutUserRestricted(hang);
    NodeElevatedInHangout(std, hang, ActionUpsertCertAuthority);
  }
}
