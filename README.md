# Role-based permission checker of the auth server

This project models the authorization gate of the Teleport auth server (`lib/auth/permissions.go`) in Dafny.
Given a caller's role and an action name, the gate either lets the request through or denies it.
The model covers:

- **The administrator bypass.** The admin role passes every action without consulting any table.
- **Deny by default.** A role with no entry in the table is "not allowed" anything.
- **Per-action grants.** A role with an entry passes exactly for the actions granted to it. For any other action it is denied "for action".
- **The two built-in tables.** The standard mode and the hangout mode (the auth server run on a user's own computer) each have one.
- **The allow-all checker.** It approves everything.

Files:

- `permissions.dfy`, module `Permissions`, holds everything in the Go file:
  - the roles and the two denial causes;
  - the action vocabulary, spelled as the server spells it. This keeps `ActionGetSealKeys = "GetSeakKeys"`.
  - the `StandardRoles` and `HangoutRoles` lists;
  - the class `StandardPermissions`, whose `permissions` field is the table;
  - its `HasPermission` decision;
  - the class `AllowAllPermissions`;
  - the `PermissionChecker` interface;
  - the three factories. `NewStandardPermissions` and `NewHangoutPermissions` allocate a checker and fill its table role by role, as the Go code does. Each ensures the finished table equals the declarative `StandardProfile()` or `HangoutProfile()`.
- `properties.dfy`, module `PermissionProperties`, holds what the two profiles grant and how they differ. Its lemmas are stated about any checker whose table is the one a factory builds.

Design points:

- **Roles** are the constructors of a datatype. Their string values are defined in a package that is not part of this model.
- **Denials.** `HasPermission` returns `Ok` or `Denied(cause)`. The cause is `RoleNotAllowed(role)` or `NoPermissionForAction(role, action)`, in place of the access-denied errors the Go code builds.
- **Grants as sets.** The Go code keeps each role's grants as a `map[string]bool` and grants an action when the lookup yields `true`. A missing key and a `false` entry look the same to that lookup. So the model keeps, for each role, the set of actions mapped to `true`. Every literal in the source maps its actions to `true`, so each set is exactly the keys of the Go literal.

## Model

| member | source | states |
|---|---|---|
| `Permissions.StandardPermissions.HasPermission` | lib/auth/permissions.go:137-154 | Admin passes whatever the table holds. A non-admin role with no entry is denied with `RoleNotAllowed(role)`. A role with an entry passes exactly when the action is granted to it, and otherwise is denied with `NoPermissionForAction(role, action)`. |
| `Permissions.AllowAllPermissions.HasPermission` | lib/auth/permissions.go:164-166 | Every role, including unknown ones, passes every action, including unlisted ones. |
| `Permissions.PermissionChecker.HasPermission` | lib/auth/permissions.go:27-33 | The interface call dispatches to the implementation. An allow-all checker never denies. A table-driven checker decides as `StandardPermissions.HasPermission`. |
| `Permissions.StandardPermissions.constructor` | lib/auth/permissions.go:38-39 | A new checker starts with an empty table. |
| `Permissions.NewStandardPermissions` | lib/auth/permissions.go:37-83 | Returns a fresh table-driven checker whose table, filled role by role, is exactly the standard profile. |
| `Permissions.NewHangoutPermissions` | lib/auth/permissions.go:87-131 | Returns a fresh table-driven checker whose table, filled role by role, is exactly the hangout profile. |
| `Permissions.NewAllowAllPermissions` | lib/auth/permissions.go:159-162 | Returns a fresh allow-all checker that approves every role and action. |
| `PermissionProperties.StandardSignIn` | lib/auth/permissions.go:41-75 | In the standard mode a user may sign in. The web role may not, because its SignIn line is commented out, so it is denied with the "for action" cause. A user is denied UpsertCertAuthority with the same cause. |
| `PermissionProperties.HangoutUserRestricted` | lib/auth/permissions.go:91-94 | In the hangout mode a user may GenerateUserCert and GetCertAuthorities. It is denied SignIn, GetSessions and GetEvents with the "for action" cause. |
| `PermissionProperties.NodeElevatedInHangout` | lib/auth/permissions.go:106-118 | A node may UpsertCertAuthority, UpsertSession and GetAuthServers in the hangout mode. In the standard mode it is denied each of them with the "for action" cause. |
| `PermissionProperties.NodeLosesNothingInHangout` | lib/auth/permissions.go:106-118 | Every action a node may perform in the standard mode, it may also perform in the hangout mode. |
| `PermissionProperties.HangoutRemoteUserOnlyInHangout` | lib/auth/permissions.go:102-104 | The ephemeral remote peer is a role that is not allowed in the standard mode. In the hangout mode it passes exactly for GenerateUserCert. |
| `PermissionProperties.AuthListedButUnknown` | lib/auth/permissions.go:168-176 | The auth role is listed in `StandardRoles`. Yet the standard table has no entry for it, so every action is denied with `RoleNotAllowed(Auth)`. |
| `PermissionProperties.AdminNeedsNoEntry` | lib/auth/permissions.go:137-140 | Neither built-in table has an entry for the admin role, and admin still passes every action under both. |
| `PermissionProperties.ListedRolesHaveEntries` | lib/auth/permissions.go:168-182 | Every role in `HangoutRoles` except admin has an entry in the hangout table. Of the roles in `StandardRoles`, exactly those other than admin and auth have an entry in the standard table. |
| `PermissionProperties.ProfileDifferences` | lib/auth/permissions.go:87-131 | Role by role, the hangout table against the standard one. It adds the remote peer. It takes five actions from the user and four from the web role. It gives three authority actions to the node and GenerateUserCert to the token bearer. It leaves signup unchanged. |
| `PermissionProperties.ProfilesIncomparable` | lib/auth/permissions.go:87-131 | Neither mode is a restriction of the other. Each grants some (role, action) request that the other denies. |

## Left out

- The error values. `trace.Wrap`, `teleport.AccessDenied` and the `fmt.Sprintf` message text are calls into other packages, so a denial is modelled as one of two causes that carry the role and, for the second cause, the action.
- The string values of the `teleport.Role` constants are defined outside this file. Roles are distinct datatype constructors, and role names outside that list are not modelled.
- A `false` entry in an action map is not represented. Go's lookup reads it as a missing entry, and no table in the source holds one.
- Go interface dispatch through pointers is modelled as a datatype with one variant per implementation.
- Concurrent read-only use after construction is left out, because the code does nothing concurrent.
- Determinism of `HasPermission` holds by construction, since it is a Dafny function of the table and its arguments.
