/** A model of the role-based permission checker of the auth server:
    a table from role to the actions it may perform, the decision that
    consults it (administrator bypass, deny-by-default), the two fixed
    profiles the server starts with, and the allow-all checker. */
module Permissions {

  /** The roles a caller of the auth server can hold. Their string values
      are defined elsewhere; here they are distinct constructors. */
  datatype Role = Auth | User | Web | Node | Admin | ProvisionToken | Signup | HangoutRemoteUser

  /** The two causes of an access-denied error. */
  datatype Denial =
    | RoleNotAllowed(role: Role)
    | NoPermissionForAction(role: Role, action: string)

  /** The result of a permission check: nil error, or access denied. */
  datatype Outcome = Ok | Denied(cause: Denial)

  /** Roles listed as the standard and the hangout ones. */
  const StandardRoles: seq<Role> := [Auth, User, Web, Node, Admin, ProvisionToken, Signup]
  const HangoutRoles: seq<Role> := [Admin, ProvisionToken, HangoutRemoteUser]

  // The action vocabulary, spelled as the server spells it.
  const ActionGetSessions: string := "GetSessions"
  const ActionGetSession: string := "GetSession"
  const ActionDeleteSession: string := "DeleteSession"
  const ActionUpsertSession: string := "UpsertSession"
  const ActionUpsertParty: string := "UpsertParty"
  const ActionUpsertCertAuthority: string := "UpsertCertAuthority"
  const ActionGetCertAuthorities: string := "GetCertAuthorities"
  const ActionGetLocalDomain: string := "GetLocalDomain"
  const ActionDeleteCertAuthority: string := "DeleteCertAuthority"
  const ActionGenerateToken: string := "GenerateToken"
  const ActionRegisterUsingToken: string := "RegisterUsingToken"
  const ActionRegisterNewAuthServer: string := "RegisterNewAuthServer"
  const ActionLog: string := "Log"
  const ActionLogEntry: string := "LogEntry"
  const ActionGetEvents: string := "GetEvents"
  const ActionGetChunkWriter: string := "GetChunkWriter"
  const ActionGetChunkReader: string := "GetChunkReader"
  const ActionUpsertServer: string := "UpsertServer"
  const ActionGetServers: string := "GetServers"
  const ActionGetAuthServers: string := "GetAuthServers"
  const ActionUpsertPassword: string := "UpsertPassword"
  const ActionCheckPassword: string := "CheckPassword"
  const ActionSignIn: string := "SignIn"
  const ActionCreateWebSession: string := "CreateWebSession"
  const ActionGetWebSession: string := "GetWebSession"
  const ActionGetWebSessionsKeys: string := "GetWebSessionsKeys"
  const ActionDeleteWebSession: string := "DeleteWebSession"
  const ActionGetUsers: string := "GetUsers"
  const ActionDeleteUser: string := "DeleteUser"
  const ActionUpsertUserKey: string := "UpsertUserKey"
  const ActionGetUserKeys: string := "GetUserKeys"
  const ActionDeleteUserKey: string := "DeleteUserKey"
  const ActionGenerateKeyPair: string := "GenerateKeyPair"
  const ActionGenerateHostCert: string := "GenerateHostCert"
  const ActionGenerateUserCert: string := "GenerateUserCert"
  const ActionResetHostCertificateAuthority: string := "ResetHostCertificateAuthority"
  const ActionResetUserCertificateAuthority: string := "ResetUserCertificateAuthority"
  const ActionGenerateSealKey: string := "GenerateSealKey"
  const ActionGetSealKeys: string := "GetSeakKeys"  // sic: the server's own spelling
  const ActionGetSealKey: string := "GetSealKey"
  const ActionDeleteSealKey: string := "DeleteSealKey"
  const ActionAddSealKey: string := "AddSealKey"
  const ActionCreateSignupToken: string := "CreateSignupToken"
  const ActionGetSignupTokenData: string := "GetSignupTokenData"
  const ActionCreateUserWithToken: string := "CreateUserWithToken"
  const ActionUpsertUser: string := "UpsertUser"

  /** A permission table: for each role it knows, the actions granted to it.
      The server keeps each role's actions as a map from action to bool and
      grants an action when its lookup yields true; a false entry and a
      missing one read the same, so the set of true keys is all that matters. */
  type Table = map<Role, set<string>>

  /** The table of the standard mode. The web role does not get SignIn. */
  function StandardProfile(): Table
  {
    map[
      User := {ActionSignIn, ActionCreateWebSession, ActionGenerateUserCert, ActionGetCertAuthorities,
               ActionGetSession, ActionGetSessions, ActionGetEvents},
      ProvisionToken := {ActionRegisterUsingToken, ActionRegisterNewAuthServer},
      Node := {ActionUpsertServer, ActionGetCertAuthorities, ActionGetLocalDomain, ActionGetUserKeys,
               ActionGetServers, ActionUpsertParty, ActionLogEntry, ActionGetChunkWriter},
      Web := {ActionCreateWebSession, ActionGetWebSession, ActionDeleteWebSession,
              ActionGetSession, ActionGetSessions, ActionGetEvents},
      Signup := {ActionGetSignupTokenData, ActionCreateUserWithToken}
    ]
  }

  /** The table of the hangout mode, run on a user's own computer. */
  function HangoutProfile(): Table
  {
    map[
      User := {ActionGenerateUserCert, ActionGetCertAuthorities},
      ProvisionToken := {ActionRegisterUsingToken, ActionRegisterNewAuthServer, ActionGenerateUserCert},
      HangoutRemoteUser := {ActionGenerateUserCert},
      Node := {ActionUpsertServer, ActionGetCertAuthorities, ActionGetLocalDomain, ActionGetUserKeys,
               ActionGetServers, ActionUpsertParty, ActionLogEntry, ActionGetChunkWriter,
               ActionUpsertCertAuthority, ActionUpsertSession, ActionGetAuthServers},
      Web := {ActionGetWebSession, ActionDeleteWebSession},
      Signup := {ActionGetSignupTokenData, ActionCreateUserWithToken}
    ]
  }

  /** The table-driven checker. Its table is filled by the factories below
      and only read by HasPermission. */
  class StandardPermissions {
    var permissions: Table

    constructor ()
      ensures permissions == map[]
    {
      permissions := map[];
    }

    /** Admin passes whatever the table holds; a role with no entry is not
        allowed anything; a role with an entry passes exactly for the
        actions in it, and is refused the others for lack of permission. */
    function HasPermission(role: Role, action: string): (r: Outcome)
      reads this
      ensures role == Admin ==> r == Ok
      ensures role != Admin && role !in permissions ==> r == Denied(RoleNotAllowed(role))
      ensures role != Admin && role in permissions ==>
                (r == Ok <==> action in permissions[role]) &&
                (r != Ok <==> r == Denied(NoPermissionForAction(role, action)))
    {
      if role == Admin then Ok
      else if role in permissions then
        if action in permissions[role] then Ok
        else Denied(NoPermissionForAction(role, action))
      else Denied(RoleNotAllowed(role))
    }
  }

  /** The checker that approves every request. */
  class AllowAllPermissions {
    constructor ()
    {
    }

    /** Every role, known or not, may perform every action, listed or not. */
    function HasPermission(role: Role, action: string): (r: Outcome)
      ensures r == Ok
    {
      Ok
    }
  }

  /** The PermissionChecker interface, as the choice between its two implementations. */
  datatype PermissionChecker = Standard(sp: StandardPermissions) | AllowAll(aap: AllowAllPermissions)
  {
    /** Dispatches to the implementation; only a table-driven checker ever denies. */
    function HasPermission(role: Role, action: string): (r: Outcome)
      reads if Standard? then {sp} else {}
      ensures AllowAll? ==> r == Ok
      ensures Standard? ==> r == sp.HasPermission(role, action)
    {
      match this
      case Standard(sp) => sp.HasPermission(role, action)
      case AllowAll(aap) => aap.HasPermission(role, action)
    }
  }

  /** Builds the checker of the standard mode, role by role. */
  method NewStandardPermissions() returns (c: PermissionChecker)
    ensures c.Standard? && fresh(c.sp)
    ensures c.sp.permissions == StandardProfile()
  {
    var sp := new StandardPermissions();
    sp.permissions := sp.permissions[User := {
      ActionSignIn,
      ActionCreateWebSession,
      ActionGenerateUserCert,
      ActionGetCertAuthorities,
      ActionGetSession,
      ActionGetSessions,
      ActionGetEvents
    }];
    sp.permissions := sp.permissions[ProvisionToken := {
      ActionRegisterUsingToken,
      ActionRegisterNewAuthServer
    }];
    sp.permissions := sp.permissions[Node := {
      ActionUpsertServer,
      ActionGetCertAuthorities,
      ActionGetLocalDomain,
      ActionGetUserKeys,
      ActionGetServers,
      ActionUpsertParty,
      ActionLogEntry,
      ActionGetChunkWriter
    }];
    // SignIn is left out for the web role.
    sp.permissions := sp.permissions[Web := {
      ActionCreateWebSession,
      ActionGetWebSession,
      ActionDeleteWebSession,
      ActionGetSession,
      ActionGetSessions,
      ActionGetEvents
    }];
    sp.permissions := sp.permissions[Signup := {
      ActionGetSignupTokenData,
      ActionCreateUserWithToken
    }];
    c := Standard(sp);
  }

  /** Builds the checker of the hangout mode, role by role. */
  method NewHangoutPermissions() returns (c: PermissionChecker)
    ensures c.Standard? && fresh(c.sp)
    ensures c.sp.permissions == HangoutProfile()
  {
    var sp := new StandardPermissions();
    sp.permissions := sp.permissions[User := {
      ActionGenerateUserCert,
      ActionGetCertAuthorities
    }];
    sp.permissions := sp.permissions[ProvisionToken := {
      ActionRegisterUsingToken,
      ActionRegisterNewAuthServer,
      ActionGenerateUserCert
    }];
    sp.permissions := sp.permissions[HangoutRemoteUser := {
      ActionGenerateUserCert
    }];
    sp.permissions := sp.permissions[Node := {
      ActionUpsertServer,
      ActionGetCertAuthorities,
      ActionGetLocalDomain,
      ActionGetUserKeys,
      ActionGetServers,
      ActionUpsertParty,
      ActionLogEntry,
      ActionGetChunkWriter,
      ActionUpsertCertAuthority,
      ActionUpsertSession,
      ActionGetAuthServers
    }];
    sp.permissions := sp.permissions[Web := {
      ActionGetWebSession,
      ActionDeleteWebSession
    }];
    sp.permissions := sp.permissions[Signup := {
      ActionGetSignupTokenData,
      ActionCreateUserWithToken
    }];
    c := Standard(sp);
  }

  /** Builds the checker that approves everything. */
  method NewAllowAllPermissions() returns (c: PermissionChecker)
    ensures c.AllowAll? && fresh(c.aap)
    ensures forall role, action :: c.HasPermission(role, action) == Ok
  {
    var aap := new AllowAllPermissions();
    c := AllowAll(aap);
  }
}
