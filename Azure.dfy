/** Node kinds of the Azure domain: the `AzureNodeKind` enum (graphSchema.ts lines 299-320) and
    `AzureNodeKindToDisplay` (lines 321-366). */
module AzureNodeKind {
  import opened Wrappers

  /** One constructor per enum member, in declaration order. */
  datatype Kind =
      Entity
    | VMScaleSet
    | App
    | Role
    | Device
    | FunctionApp
    | Group
    | KeyVault
    | ManagementGroup
    | ResourceGroup
    | ServicePrincipal
    | Subscription
    | Tenant
    | User
    | VM
    | ManagedCluster
    | ContainerRegistry
    | WebApp
    | LogicApp
    | AutomationAccount

  /** The number of members. */
  const Count := 20

  // The string value of each member: the identifier data producers emit.
  const EntityId: string := "AZBase"
  const VMScaleSetId: string := "AZVMScaleSet"
  const AppId: string := "AZApp"
  const RoleId: string := "AZRole"
  const DeviceId: string := "AZDevice"
  const FunctionAppId: string := "AZFunctionApp"
  const GroupId: string := "AZGroup"
  const KeyVaultId: string := "AZKeyVault"
  const ManagementGroupId: string := "AZManagementGroup"
  const ResourceGroupId: string := "AZResourceGroup"
  const ServicePrincipalId: string := "AZServicePrincipal"
  const SubscriptionId: string := "AZSubscription"
  const TenantId: string := "AZTenant"
  const UserId: string := "AZUser"
  const VMId: string := "AZVM"
  const ManagedClusterId: string := "AZManagedCluster"
  const ContainerRegistryId: string := "AZContainerRegistry"
  const WebAppId: string := "AZWebApp"
  const LogicAppId: string := "AZLogicApp"
  const AutomationAccountId: string := "AZAutomationAccount"

  /** The identifier (string value) of a member. */
  function Id(k: Kind): string {
    match k
    case Entity => EntityId
    case VMScaleSet => VMScaleSetId
    case App => AppId
    case Role => RoleId
    case Device => DeviceId
    case FunctionApp => FunctionAppId
    case Group => GroupId
    case KeyVault => KeyVaultId
    case ManagementGroup => ManagementGroupId
    case ResourceGroup => ResourceGroupId
    case ServicePrincipal => ServicePrincipalId
    case Subscription => SubscriptionId
    case Tenant => TenantId
    case User => UserId
    case VM => VMId
    case ManagedCluster => ManagedClusterId
    case ContainerRegistry => ContainerRegistryId
    case WebApp => WebAppId
    case LogicApp => LogicAppId
    case AutomationAccount => AutomationAccountId
  }

  /** The position of a member in the declaration. */
  function Ordinal(k: Kind): (r: nat)
    ensures r < Count
  {
    match k
    case Entity => 0
    case VMScaleSet => 1
    case App => 2
    case Role => 3
    case Device => 4
    case FunctionApp => 5
    case Group => 6
    case KeyVault => 7
    case ManagementGroup => 8
    case ResourceGroup => 9
    case ServicePrincipal => 10
    case Subscription => 11
    case Tenant => 12
    case User => 13
    case VM => 14
    case ManagedCluster => 15
    case ContainerRegistry => 16
    case WebApp => 17
    case LogicApp => 18
    case AutomationAccount => 19
  }

  /** The member at a declaration position. */
  function FromOrdinal(i: nat): Kind
    requires i < Count
  {
    if i < 10 then
      (
        if i < 5 then
          (
            if i < 2 then
              (
                if i == 0 then Entity else VMScaleSet
              )
            else
              if i == 2 then App else if i == 3 then Role else Device
          )
        else
          if i < 7 then
            (
              if i == 5 then FunctionApp else Group
            )
          else
            if i == 7 then KeyVault else if i == 8 then ManagementGroup else ResourceGroup
      )
    else
      if i < 15 then
        (
          if i < 12 then
            (
              if i == 10 then ServicePrincipal else Subscription
            )
          else
            if i == 12 then Tenant else if i == 13 then User else VM
        )
      else
        if i < 17 then
          (
            if i == 15 then ManagedCluster else ContainerRegistry
          )
        else
          if i == 17 then WebApp else if i == 18 then LogicApp else AutomationAccount
  }

  /** Every member, in declaration order. */
  const All: seq<Kind> := seq(Count, i requires 0 <= i < Count => FromOrdinal(i))

  /** The label the display switch returns for a member. */
  function Label(k: Kind): string {
    match k
    case Entity => "Entity"
    case VMScaleSet => "VMScaleSet"
    case App => "App"
    case Role => "Role"
    case Device => "Device"
    case FunctionApp => "FunctionApp"
    case Group => "Group"
    case KeyVault => "KeyVault"
    case ManagementGroup => "ManagementGroup"
    case ResourceGroup => "ResourceGroup"
    case ServicePrincipal => "ServicePrincipal"
    case Subscription => "Subscription"
    case Tenant => "Tenant"
    case User => "User"
    case VM => "VM"
    case ManagedCluster => "ManagedCluster"
    case ContainerRegistry => "ContainerRegistry"
    case WebApp => "WebApp"
    case LogicApp => "LogicApp"
    case AutomationAccount => "AutomationAccount"
  }

  /** Parse, for the one member whose identifier has 4 characters. */
  function ParseLength4(s: string): (r: Option<Kind>)
    requires |s| == 4
    ensures r.Some? ==> Id(r.value) == s
  {
    if s == Id(VM) then Some(VM) else None
  }

  /** Parse, for the one member whose identifier has 5 characters. */
  function ParseLength5(s: string): (r: Option<Kind>)
    requires |s| == 5
    ensures r.Some? ==> Id(r.value) == s
  {
    if s == Id(App) then Some(App) else None
  }

  /** Parse, among the members whose identifier has 6 characters: single characters
      of `s` narrow the candidates to one, which is then compared in full. */
  function ParseLength6(s: string): (r: Option<Kind>)
    requires |s| == 6
    ensures r.Some? ==> Id(r.value) == s
  {
    if s[4] == 's' then
      if s == Id(Entity) then Some(Entity) else None
    else if s[4] == 'l' then
      if s == Id(Role) then Some(Role) else None
    else if s[4] == 'e' then
      if s == Id(User) then Some(User) else None
    else None
  }

  /** Parse, for the one member whose identifier has 7 characters. */
  function ParseLength7(s: string): (r: Option<Kind>)
    requires |s| == 7
    ensures r.Some? ==> Id(r.value) == s
  {
    if s == Id(Group) then Some(Group) else None
  }

  /** Parse, among the members whose identifier has 8 characters: single characters
      of `s` narrow the candidates to one, which is then compared in full. */
  function ParseLength8(s: string): (r: Option<Kind>)
    requires |s| == 8
    ensures r.Some? ==> Id(r.value) == s
  {
    if s[7] == 'e' then
      if s == Id(Device) then Some(Device) else None
    else if s[7] == 't' then
      if s == Id(Tenant) then Some(Tenant) else None
    else if s[7] == 'p' then
      if s == Id(WebApp) then Some(WebApp) else None
    else None
  }

  /** Parse, among the members whose identifier has 10 characters: single characters
      of `s` narrow the candidates to one, which is then compared in full. */
  function ParseLength10(s: string): (r: Option<Kind>)
    requires |s| == 10
    ensures r.Some? ==> Id(r.value) == s
  {
    if s[9] == 't' then
      if s == Id(KeyVault) then Some(KeyVault) else None
    else if s[9] == 'p' then
      if s == Id(LogicApp) then Some(LogicApp) else None
    else None
  }

  /** Parse, for the one member whose identifier has 12 characters. */
  function ParseLength12(s: string): (r: Option<Kind>)
    requires |s| == 12
    ensures r.Some? ==> Id(r.value) == s
  {
    if s == Id(VMScaleSet) then Some(VMScaleSet) else None
  }

  /** Parse, for the one member whose identifier has 13 characters. */
  function ParseLength13(s: string): (r: Option<Kind>)
    requires |s| == 13
    ensures r.Some? ==> Id(r.value) == s
  {
    if s == Id(FunctionApp) then Some(FunctionApp) else None
  }

  /** Parse, for the one member whose identifier has 14 characters. */
  function ParseLength14(s: string): (r: Option<Kind>)
    requires |s| == 14
    ensures r.Some? ==> Id(r.value) == s
  {
    if s == Id(Subscription) then Some(Subscription) else None
  }

  /** Parse, for the one member whose identifier has 15 characters. */
  function ParseLength15(s: string): (r: Option<Kind>)
    requires |s| == 15
    ensures r.Some? ==> Id(r.value) == s
  {
    if s == Id(ResourceGroup) then Some(ResourceGroup) else None
  }

  /** Parse, for the one member whose identifier has 16 characters. */
  function ParseLength16(s: string): (r: Option<Kind>)
    requires |s| == 16
    ensures r.Some? ==> Id(r.value) == s
  {
    if s == Id(ManagedCluster) then Some(ManagedCluster) else None
  }

  /** Parse, for the one member whose identifier has 17 characters. */
  function ParseLength17(s: string): (r: Option<Kind>)
    requires |s| == 17
    ensures r.Some? ==> Id(r.value) == s
  {
    if s == Id(ManagementGroup) then Some(ManagementGroup) else None
  }

  /** Parse, for the one member whose identifier has 18 characters. */
  function ParseLength18(s: string): (r: Option<Kind>)
    requires |s| == 18
    ensures r.Some? ==> Id(r.value) == s
  {
    if s == Id(ServicePrincipal) then Some(ServicePrincipal) else None
  }

  /** Parse, among the members whose identifier has 19 characters: single characters
      of `s` narrow the candidates to one, which is then compared in full. */
  function ParseLength19(s: string): (r: Option<Kind>)
    requires |s| == 19
    ensures r.Some? ==> Id(r.value) == s
  {
    if s[18] == 'y' then
      if s == Id(ContainerRegistry) then Some(ContainerRegistry) else None
    else if s[18] == 't' then
      if s == Id(AutomationAccount) then Some(AutomationAccount) else None
    else None
  }

  /** The member whose identifier is exactly `s` (case-sensitive), if any. */
  function Parse(s: string): (r: Option<Kind>)
    ensures r.Some? ==> Id(r.value) == s
  {
    match |s|
    case 4 => ParseLength4(s)
    case 5 => ParseLength5(s)
    case 6 => ParseLength6(s)
    case 7 => ParseLength7(s)
    case 8 => ParseLength8(s)
    case 10 => ParseLength10(s)
    case 12 => ParseLength12(s)
    case 13 => ParseLength13(s)
    case 14 => ParseLength14(s)
    case 15 => ParseLength15(s)
    case 16 => ParseLength16(s)
    case 17 => ParseLength17(s)
    case 18 => ParseLength18(s)
    case 19 => ParseLength19(s)
    case _ => None
  }

  /** `AzureNodeKindToDisplay`: the label of the member whose identifier is `value`;
      None (the `default: return undefined` branch) for any other string. */
  function ToDisplay(value: string): (r: Option<string>)
    ensures r.Some? ==> exists k :: Id(k) == value && r.value == Label(k)
  {
    match Parse(value)
    case Some(k) => Some(Label(k))
    case None => None
  }

  /** Looking up a member's identifier gives back that member. */
  lemma ParseId(k: Kind)
    ensures Parse(Id(k)) == Some(k)
  {
    if Ordinal(k) < 8 {
      ParseIdFrom0(k);
    } else if Ordinal(k) < 16 {
      ParseIdFrom8(k);
    } else {
      ParseIdFrom16(k);
    }
  }

  /** ParseId for the members declared at positions 0 to 7. */
  lemma ParseIdFrom0(k: Kind)
    requires 0 <= Ordinal(k) < 8
    ensures Parse(Id(k)) == Some(k)
  {
    match k
    case Entity =>
    case VMScaleSet =>
    case App =>
    case Role =>
    case Device =>
    case FunctionApp =>
    case Group =>
    case KeyVault =>
  }

  /** ParseId for the members declared at positions 8 to 15. */
  lemma ParseIdFrom8(k: Kind)
    requires 8 <= Ordinal(k) < 16
    ensures Parse(Id(k)) == Some(k)
  {
    match k
    case ManagementGroup =>
    case ResourceGroup =>
    case ServicePrincipal =>
    case Subscription =>
    case Tenant =>
    case User =>
    case VM =>
    case ManagedCluster =>
  }

  /** ParseId for the members declared at positions 16 to 19. */
  lemma ParseIdFrom16(k: Kind)
    requires 16 <= Ordinal(k)
    ensures Parse(Id(k)) == Some(k)
  {
    match k
    case ContainerRegistry =>
    case WebApp =>
    case LogicApp =>
    case AutomationAccount =>
  }

  /** Identifiers are pairwise distinct. */
  lemma IdInjective(a: Kind, b: Kind)
    ensures Id(a) == Id(b) ==> a == b
  {
    ParseId(a);
    ParseId(b);
  }

  /** Parse is exactly the inverse of Id: it finds a member precisely when the
      string is that member's identifier. */
  lemma ParseIff(s: string, k: Kind)
    ensures Parse(s) == Some(k) <==> Id(k) == s
  {
    ParseId(k);
  }

  /** Every member has a defined label: the switch has a case for each of them. */
  lemma ToDisplayTotal(k: Kind)
    ensures ToDisplay(Id(k)) == Some(Label(k))
  {
    ParseId(k);
  }

  /** The switch falls through to `undefined` exactly for strings that are no
      member's identifier. */
  lemma ToDisplayUndefined(s: string)
    ensures ToDisplay(s) == None <==> forall k :: Id(k) != s
  {
    forall k: Kind | Id(k) == s
      ensures ToDisplay(s) != None
    {
      ParseId(k);
    }
  }

  /** Ordinal and FromOrdinal are mutually inverse. */
  lemma FromOrdinalOrdinal(k: Kind)
    ensures FromOrdinal(Ordinal(k)) == k
  {
    match k
    case Entity =>
    case VMScaleSet =>
    case App =>
    case Role =>
    case Device =>
    case FunctionApp =>
    case Group =>
    case KeyVault =>
    case ManagementGroup =>
    case ResourceGroup =>
    case ServicePrincipal =>
    case Subscription =>
    case Tenant =>
    case User =>
    case VM =>
    case ManagedCluster =>
    case ContainerRegistry =>
    case WebApp =>
    case LogicApp =>
    case AutomationAccount =>
  }

  lemma OrdinalFromOrdinal(i: nat)
    requires i < Count
    ensures Ordinal(FromOrdinal(i)) == i
  {
    match FromOrdinal(i)
    case Entity =>
    case VMScaleSet =>
    case App =>
    case Role =>
    case Device =>
    case FunctionApp =>
    case Group =>
    case KeyVault =>
    case ManagementGroup =>
    case ResourceGroup =>
    case ServicePrincipal =>
    case Subscription =>
    case Tenant =>
    case User =>
    case VM =>
    case ManagedCluster =>
    case ContainerRegistry =>
    case WebApp =>
    case LogicApp =>
    case AutomationAccount =>
  }

  /** `All` lists every member exactly once, at its declaration position. */
  lemma AllAt(k: Kind)
    ensures |All| == Count && All[Ordinal(k)] == k
  {
    FromOrdinalOrdinal(k);
  }

  lemma OrdinalAt(i: nat)
    requires i < |All|
    ensures Ordinal(All[i]) == i
  {
    OrdinalFromOrdinal(i);
  }
}

/** Relationship kinds of the Azure domain: the `AzureRelationshipKind` enum (graphSchema.ts lines 367-414) and
    `AzureRelationshipKindToDisplay` (lines 415-512). */
module AzureRelationshipKind {
  import opened Wrappers

  /** One constructor per enum member, in declaration order. */
  datatype Kind =
      AvereContributor
    | Contains
    | Contributor
    | GetCertificates
    | GetKeys
    | GetSecrets
    | HasRole
    | MemberOf
    | Owner
    | RunsAs
    | VMContributor
    | AutomationContributor
    | KeyVaultContributor
    | VMAdminLogin
    | AddMembers
    | AddSecret
    | ExecuteCommand
    | GlobalAdmin
    | PrivilegedAuthAdmin
    | Grant
    | GrantSelf
    | PrivilegedRoleAdmin
    | ResetPassword
    | UserAccessAdministrator
    | Owns
    | ScopedTo
    | CloudAppAdmin
    | AppAdmin
    | AddOwner
    | ManagedIdentity
    | ApplicationReadWriteAll
    | AppRoleAssignmentReadWriteAll
    | DirectoryReadWriteAll
    | GroupReadWriteAll
    | GroupMemberReadWriteAll
    | RoleManagementReadWriteDirectory
    | ServicePrincipalEndpointReadWriteAll
    | AKSContributor
    | NodeResourceGroup
    | WebsiteContributor
    | LogicAppContributor
    | AZMGAddMember
    | AZMGAddOwner
    | AZMGAddSecret
    | AZMGGrantAppRoles
    | AZMGGrantRole

  /** The number of members. */
  const Count := 46

  // The string value of each member: the identifier data producers emit.
  const AvereContributorId: string := "AZAvereContributor"
  const ContainsId: string := "AZContains"
  const ContributorId: string := "AZContributor"
  const GetCertificatesId: string := "AZGetCertificates"
  const GetKeysId: string := "AZGetKeys"
  const GetSecretsId: string := "AZGetSecrets"
  const HasRoleId: string := "AZHasRole"
  const MemberOfId: string := "AZMemberOf"
  const OwnerId: string := "AZOwner"
  const RunsAsId: string := "AZRunsAs"
  const VMContributorId: string := "AZVMContributor"
  const AutomationContributorId: string := "AZAutomationContributor"
  const KeyVaultContributorId: string := "AZKeyVaultContributor"
  const VMAdminLoginId: string := "AZVMAdminLogin"
  const AddMembersId: string := "AZAddMembers"
  const AddSecretId: string := "AZAddSecret"
  const ExecuteCommandId: string := "AZExecuteCommand"
  const GlobalAdminId: string := "AZGlobalAdmin"
  const PrivilegedAuthAdminId: string := "AZPrivilegedAuthAdmin"
  const GrantId: string := "AZGrant"
  const GrantSelfId: string := "AZGrantSelf"
  const PrivilegedRoleAdminId: string := "AZPrivilegedRoleAdmin"
  const ResetPasswordId: string := "AZResetPassword"
  const UserAccessAdministratorId: string := "AZUserAccessAdministrator"
  const OwnsId: string := "AZOwns"
  const ScopedToId: string := "AZScopedTo"
  const CloudAppAdminId: string := "AZCloudAppAdmin"
  const AppAdminId: string := "AZAppAdmin"
  const AddOwnerId: string := "AZAddOwner"
  const ManagedIdentityId: string := "AZManagedIdentity"
  const ApplicationReadWriteAllId: string := "AZMGApplication_ReadWrite_All"
  const AppRoleAssignmentReadWriteAllId: string := "AZMGAppRoleAssignment_ReadWrite_All"
  const DirectoryReadWriteAllId: string := "AZMGDirectory_ReadWrite_All"
  const GroupReadWriteAllId: string := "AZMGGroup_ReadWrite_All"
  const GroupMemberReadWriteAllId: string := "AZMGGroupMember_ReadWrite_All"
  const RoleManagementReadWriteDirectoryId: string := "AZMGRoleManagement_ReadWrite_Directory"
  const ServicePrincipalEndpointReadWriteAllId: string := "AZMGServicePrincipalEndpoint_ReadWrite_All"
  const AKSContributorId: string := "AZAKSContributor"
  const NodeResourceGroupId: string := "AZNodeResourceGroup"
  const WebsiteContributorId: string := "AZWebsiteContributor"
  const LogicAppContributorId: string := "AZLogicAppContributor"
  const AZMGAddMemberId: string := "AZMGAddMember"
  const AZMGAddOwnerId: string := "AZMGAddOwner"
  const AZMGAddSecretId: string := "AZMGAddSecret"
  const AZMGGrantAppRolesId: string := "AZMGGrantAppRoles"
  const AZMGGrantRoleId: string := "AZMGGrantRole"

  /** The identifier (string value) of a member. */
  function Id(k: Kind): string {
    match k
    case AvereContributor => AvereContributorId
    case Contains => ContainsId
    case Contributor => ContributorId
    case GetCertificates => GetCertificatesId
    case GetKeys => GetKeysId
    case GetSecrets => GetSecretsId
    case HasRole => HasRoleId
    case MemberOf => MemberOfId
    case Owner => OwnerId
    case RunsAs => RunsAsId
    case VMContributor => VMContributorId
    case AutomationContributor => AutomationContributorId
    case KeyVaultContributor => KeyVaultContributorId
    case VMAdminLogin => VMAdminLoginId
    case AddMembers => AddMembersId
    case AddSecret => AddSecretId
    case ExecuteCommand => ExecuteCommandId
    case GlobalAdmin => GlobalAdminId
    case PrivilegedAuthAdmin => PrivilegedAuthAdminId
    case Grant => GrantId
    case GrantSelf => GrantSelfId
    case PrivilegedRoleAdmin => PrivilegedRoleAdminId
    case ResetPassword => ResetPasswordId
    case UserAccessAdministrator => UserAccessAdministratorId
    case Owns => OwnsId
    case ScopedTo => ScopedToId
    case CloudAppAdmin => CloudAppAdminId
    case AppAdmin => AppAdminId
    case AddOwner => AddOwnerId
    case ManagedIdentity => ManagedIdentityId
    case ApplicationReadWriteAll => ApplicationReadWriteAllId
    case AppRoleAssignmentReadWriteAll => AppRoleAssignmentReadWriteAllId
    case DirectoryReadWriteAll => DirectoryReadWriteAllId
    case GroupReadWriteAll => GroupReadWriteAllId
    case GroupMemberReadWriteAll => GroupMemberReadWriteAllId
    case RoleManagementReadWriteDirectory => RoleManagementReadWriteDirectoryId
    case ServicePrincipalEndpointReadWriteAll => ServicePrincipalEndpointReadWriteAllId
    case AKSContributor => AKSContributorId
    case NodeResourceGroup => NodeResourceGroupId
    case WebsiteContributor => WebsiteContributorId
    case LogicAppContributor => LogicAppContributorId
    case AZMGAddMember => AZMGAddMemberId
    case AZMGAddOwner => AZMGAddOwnerId
    case AZMGAddSecret => AZMGAddSecretId
    case AZMGGrantAppRoles => AZMGGrantAppRolesId
    case AZMGGrantRole => AZMGGrantRoleId
  }

  /** The position of a member in the declaration. */
  function Ordinal(k: Kind): (r: nat)
    ensures r < Count
  {
    match k
    case AvereContributor => 0
    case Contains => 1
    case Contributor => 2
    case GetCertificates => 3
    case GetKeys => 4
    case GetSecrets => 5
    case HasRole => 6
    case MemberOf => 7
    case Owner => 8
    case RunsAs => 9
    case VMContributor => 10
    case AutomationContributor => 11
    case KeyVaultContributor => 12
    case VMAdminLogin => 13
    case AddMembers => 14
    case AddSecret => 15
    case ExecuteCommand => 16
    case GlobalAdmin => 17
    case PrivilegedAuthAdmin => 18
    case Grant => 19
    case GrantSelf => 20
    case PrivilegedRoleAdmin => 21
    case ResetPassword => 22
    case UserAccessAdministrator => 23
    case Owns => 24
    case ScopedTo => 25
    case CloudAppAdmin => 26
    case AppAdmin => 27
    case AddOwner => 28
    case ManagedIdentity => 29
    case ApplicationReadWriteAll => 30
    case AppRoleAssignmentReadWriteAll => 31
    case DirectoryReadWriteAll => 32
    case GroupReadWriteAll => 33
    case GroupMemberReadWriteAll => 34
    case RoleManagementReadWriteDirectory => 35
    case ServicePrincipalEndpointReadWriteAll => 36
    case AKSContributor => 37
    case NodeResourceGroup => 38
    case WebsiteContributor => 39
    case LogicAppContributor => 40
    case AZMGAddMember => 41
    case AZMGAddOwner => 42
    case AZMGAddSecret => 43
    case AZMGGrantAppRoles => 44
    case AZMGGrantRole => 45
  }

  /** The member at a declaration position. */
  function FromOrdinal(i: nat): Kind
    requires i < Count
  {
    if i < 23 then
      (
        if i < 11 then
          (
            if i < 5 then
              (
                if i < 2 then
                  (
                    if i == 0 then AvereContributor else Contains
                  )
                else
                  if i == 2 then Contributor else if i == 3 then GetCertificates else GetKeys
              )
            else
              if i < 8 then
                (
                  if i == 5 then GetSecrets else if i == 6 then HasRole else MemberOf
                )
              else
                if i == 8 then Owner else if i == 9 then RunsAs else VMContributor
          )
        else
          if i < 17 then
            (
              if i < 14 then
                (
                  if i == 11 then AutomationContributor else if i == 12 then KeyVaultContributor else VMAdminLogin
                )
              else
                if i == 14 then AddMembers else if i == 15 then AddSecret else ExecuteCommand
            )
          else
            if i < 20 then
              (
                if i == 17 then GlobalAdmin else if i == 18 then PrivilegedAuthAdmin else Grant
              )
            else
              if i == 20 then GrantSelf else if i == 21 then PrivilegedRoleAdmin else ResetPassword
      )
    else
      if i < 34 then
        (
          if i < 28 then
            (
              if i < 25 then
                (
                  if i == 23 then UserAccessAdministrator else Owns
                )
              else
                if i == 25 then ScopedTo else if i == 26 then CloudAppAdmin else AppAdmin
            )
          else
            if i < 31 then
              (
                if i == 28 then AddOwner else if i == 29 then ManagedIdentity else ApplicationReadWriteAll
              )
            else
              if i == 31 then AppRoleAssignmentReadWriteAll else if i == 32 then DirectoryReadWriteAll else GroupReadWriteAll
        )
      else
        if i < 40 then
          (
            if i < 37 then
              (
                if i == 34 then GroupMemberReadWriteAll else if i == 35 then RoleManagementReadWriteDirectory else ServicePrincipalEndpointReadWriteAll
              )
            else
              if i == 37 then AKSContributor else if i == 38 then NodeResourceGroup else WebsiteContributor
          )
        else
          if i < 43 then
            (
              if i == 40 then LogicAppContributor else if i == 41 then AZMGAddMember else AZMGAddOwner
            )
          else
            if i == 43 then AZMGAddSecret else if i == 44 then AZMGGrantAppRoles else AZMGGrantRole
  }

  /** Every member, in declaration order. */
  const All: seq<Kind> := seq(Count, i requires 0 <= i < Count => FromOrdinal(i))

  /** The label the display switch returns for a member. */
  function Label(k: Kind): string {
    match k
    case AvereContributor => "AvereContributor"
    case Contains => "Contains"
    case Contributor => "Contributor"
    case GetCertificates => "GetCertificates"
    case GetKeys => "GetKeys"
    case GetSecrets => "GetSecrets"
    case HasRole => "HasRole"
    case MemberOf => "MemberOf"
    case Owner => "Owner"
    case RunsAs => "RunsAs"
    case VMContributor => "VMContributor"
    case AutomationContributor => "AutomationContributor"
    case KeyVaultContributor => "KeyVaultContributor"
    case VMAdminLogin => "VMAdminLogin"
    case AddMembers => "AddMembers"
    case AddSecret => "AddSecret"
    case ExecuteCommand => "ExecuteCommand"
    case GlobalAdmin => "GlobalAdmin"
    case PrivilegedAuthAdmin => "PrivilegedAuthAdmin"
    case Grant => "Grant"
    case GrantSelf => "GrantSelf"
    case PrivilegedRoleAdmin => "PrivilegedRoleAdmin"
    case ResetPassword => "ResetPassword"
    case UserAccessAdministrator => "UserAccessAdministrator"
    case Owns => "Owns"
    case ScopedTo => "ScopedTo"
    case CloudAppAdmin => "CloudAppAdmin"
    case AppAdmin => "AppAdmin"
    case AddOwner => "AddOwner"
    case ManagedIdentity => "ManagedIdentity"
    case ApplicationReadWriteAll => "ApplicationReadWriteAll"
    case AppRoleAssignmentReadWriteAll => "AppRoleAssignmentReadWriteAll"
    case DirectoryReadWriteAll => "DirectoryReadWriteAll"
    case GroupReadWriteAll => "GroupReadWriteAll"
    case GroupMemberReadWriteAll => "GroupMemberReadWriteAll"
    case RoleManagementReadWriteDirectory => "RoleManagementReadWriteDirectory"
    case ServicePrincipalEndpointReadWriteAll => "ServicePrincipalEndpointReadWriteAll"
    case AKSContributor => "AKSContributor"
    case NodeResourceGroup => "NodeResourceGroup"
    case WebsiteContributor => "WebsiteContributor"
    case LogicAppContributor => "LogicAppContributor"
    case AZMGAddMember => "AZMGAddMember"
    case AZMGAddOwner => "AZMGAddOwner"
    case AZMGAddSecret => "AZMGAddSecret"
    case AZMGGrantAppRoles => "AZMGGrantAppRoles"
    case AZMGGrantRole => "AZMGGrantRole"
  }

  /** Parse, for the one member whose identifier has 6 characters. */
  function ParseLength6(s: string): (r: Option<Kind>)
    requires |s| == 6
    ensures r.Some? ==> Id(r.value) == s
  {
    if s == Id(Owns) then Some(Owns) else None
  }

  /** Parse, among the members whose identifier has 7 characters: single characters
      of `s` narrow the candidates to one, which is then compared in full. */
  function ParseLength7(s: string): (r: Option<Kind>)
    requires |s| == 7
    ensures r.Some? ==> Id(r.value) == s
  {
    if s[6] == 'r' then
      if s == Id(Owner) then Some(Owner) else None
    else if s[6] == 't' then
      if s == Id(Grant) then Some(Grant) else None
    else None
  }

  /** Parse, for the one member whose identifier has 8 characters. */
  function ParseLength8(s: string): (r: Option<Kind>)
    requires |s| == 8
    ensures r.Some? ==> Id(r.value) == s
  {
    if s == Id(RunsAs) then Some(RunsAs) else None
  }

  /** Parse, among the members whose identifier has 9 characters: single characters
      of `s` narrow the candidates to one, which is then compared in full. */
  function ParseLength9(s: string): (r: Option<Kind>)
    requires |s| == 9
    ensures r.Some? ==> Id(r.value) == s
  {
    if s[8] == 's' then
      if s == Id(GetKeys) then Some(GetKeys) else None
    else if s[8] == 'e' then
      if s == Id(HasRole) then Some(HasRole) else None
    else None
  }

  /** Parse, among the members whose identifier has 10 characters: single characters
      of `s` narrow the candidates to one, which is then compared in full. */
  function ParseLength10(s: string): (r: Option<Kind>)
    requires |s| == 10
    ensures r.Some? ==> Id(r.value) == s
  {
    if s[9] == 's' then
      if s == Id(Contains) then Some(Contains) else None
    else if s[9] == 'f' then
      if s == Id(MemberOf) then Some(MemberOf) else None
    else if s[9] == 'o' then
      if s == Id(ScopedTo) then Some(ScopedTo) else None
    else if s[9] == 'n' then
      if s == Id(AppAdmin) then Some(AppAdmin) else None
    else if s[9] == 'r' then
      if s == Id(AddOwner) then Some(AddOwner) else None
    else None
  }

  /** Parse, among the members whose identifier has 11 characters: single characters
      of `s` narrow the candidates to one, which is then compared in full. */
  function ParseLength11(s: string): (r: Option<Kind>)
    requires |s| == 11
    ensures r.Some? ==> Id(r.value) == s
  {
    if s[10] == 't' then
      if s == Id(AddSecret) then Some(AddSecret) else None
    else if s[10] == 'f' then
      if s == Id(GrantSelf) then Some(GrantSelf) else None
    else None
  }

  /** Parse, among the members whose identifier has 12 characters: single characters
      of `s` narrow the candidates to one, which is then compared in full. */
  function ParseLength12(s: string): (r: Option<Kind>)
    requires |s| == 12
    ensures r.Some? ==> Id(r.value) == s
  {
    if s[10] == 't' then
      if s == Id(GetSecrets) then Some(GetSecrets) else None
    else if s[10] == 'r' then
      if s == Id(AddMembers) then Some(AddMembers) else None
    else if s[10] == 'e' then
      if s == Id(AZMGAddOwner) then Some(AZMGAddOwner) else None
    else None
  }

  /** Parse, among the members whose identifier has 13 characters: single characters
      of `s` narrow the candidates to one, which is then compared in full. */
  function ParseLength13(s: string): (r: Option<Kind>)
    requires |s| == 13
    ensures r.Some? ==> Id(r.value) == s
  {
    if s[10] == 't' then
      if s == Id(Contributor) then Some(Contributor) else None
    else if s[10] == 'm' then
      if s == Id(GlobalAdmin) then Some(GlobalAdmin) else None
    else if s[10] == 'b' then
      if s == Id(AZMGAddMember) then Some(AZMGAddMember) else None
    else if s[10] == 'r' then
      if s == Id(AZMGAddSecret) then Some(AZMGAddSecret) else None
    else if s[10] == 'o' then
      if s == Id(AZMGGrantRole) then Some(AZMGGrantRole) else None
    else None
  }

  /** Parse, for the one member whose identifier has 14 characters. */
  function ParseLength14(s: string): (r: Option<Kind>)
    requires |s| == 14
    ensures r.Some? ==> Id(r.value) == s
  {
    if s == Id(VMAdminLogin) then Some(VMAdminLogin) else None
  }

  /** Parse, among the members whose identifier has 15 characters: single characters
      of `s` narrow the candidates to one, which is then compared in full. */
  function ParseLength15(s: string): (r: Option<Kind>)
    requires |s| == 15
    ensures r.Some? ==> Id(r.value) == s
  {
    if s[14] == 'r' then
      if s == Id(VMContributor) then Some(VMContributor) else None
    else if s[14] == 'd' then
      if s == Id(ResetPassword) then Some(ResetPassword) else None
    else if s[14] == 'n' then
      if s == Id(CloudAppAdmin) then Some(CloudAppAdmin) else None
    else None
  }

  /** Parse, among the members whose identifier has 16 characters: single characters
      of `s` narrow the candidates to one, which is then compared in full. */
  function ParseLength16(s: string): (r: Option<Kind>)
    requires |s| == 16
    ensures r.Some? ==> Id(r.value) == s
  {
    if s[15] == 'd' then
      if s == Id(ExecuteCommand) then Some(ExecuteCommand) else None
    else if s[15] == 'r' then
      if s == Id(AKSContributor) then Some(AKSContributor) else None
    else None
  }

  /** Parse, among the members whose identifier has 17 characters: single characters
      of `s` narrow the candidates to one, which is then compared in full. */
  function ParseLength17(s: string): (r: Option<Kind>)
    requires |s| == 17
    ensures r.Some? ==> Id(r.value) == s
  {
    if s[14] == 't' then
      if s == Id(GetCertificates) then Some(GetCertificates) else None
    else if s[14] == 'i' then
      if s == Id(ManagedIdentity) then Some(ManagedIdentity) else None
    else if s[14] == 'l' then
      if s == Id(AZMGGrantAppRoles) then Some(AZMGGrantAppRoles) else None
    else None
  }

  /** Parse, for the one member whose identifier has 18 characters. */
  function ParseLength18(s: string): (r: Option<Kind>)
    requires |s| == 18
    ensures r.Some? ==> Id(r.value) == s
  {
    if s == Id(AvereContributor) then Some(AvereContributor) else None
  }

  /** Parse, for the one member whose identifier has 19 characters. */
  function ParseLength19(s: string): (r: Option<Kind>)
    requires |s| == 19
    ensures r.Some? ==> Id(r.value) == s
  {
    if s == Id(NodeResourceGroup) then Some(NodeResourceGroup) else None
  }

  /** Parse, for the one member whose identifier has 20 characters. */
  function ParseLength20(s: string): (r: Option<Kind>)
    requires |s| == 20
    ensures r.Some? ==> Id(r.value) == s
  {
    if s == Id(WebsiteContributor) then Some(WebsiteContributor) else None
  }

  /** Parse, among the members whose identifier has 21 characters: single characters
      of `s` narrow the candidates to one, which is then compared in full. */
  function ParseLength21(s: string): (r: Option<Kind>)
    requires |s| == 21
    ensures r.Some? ==> Id(r.value) == s
  {
    if s[15] == 'i' then
      (
        if s[9] == 't' then
          if s == Id(KeyVaultContributor) then Some(KeyVaultContributor) else None
        else if s[9] == 'p' then
          if s == Id(LogicAppContributor) then Some(LogicAppContributor) else None
        else None
      )
    else if s[15] == 'h' then
      if s == Id(PrivilegedAuthAdmin) then Some(PrivilegedAuthAdmin) else None
    else if s[15] == 'e' then
      if s == Id(PrivilegedRoleAdmin) then Some(PrivilegedRoleAdmin) else None
    else None
  }

  /** Parse, among the members whose identifier has 23 characters: single characters
      of `s` narrow the candidates to one, which is then compared in full. */
  function ParseLength23(s: string): (r: Option<Kind>)
    requires |s| == 23
    ensures r.Some? ==> Id(r.value) == s
  {
    if s[22] == 'r' then
      if s == Id(AutomationContributor) then Some(AutomationContributor) else None
    else if s[22] == 'l' then
      if s == Id(GroupReadWriteAll) then Some(GroupReadWriteAll) else None
    else None
  }

  /** Parse, for the one member whose identifier has 25 characters. */
  function ParseLength25(s: string): (r: Option<Kind>)
    requires |s| == 25
    ensures r.Some? ==> Id(r.value) == s
  {
    if s == Id(UserAccessAdministrator) then Some(UserAccessAdministrator) else None
  }

  /** Parse, for the one member whose identifier has 27 characters. */
  function ParseLength27(s: string): (r: Option<Kind>)
    requires |s| == 27
    ensures r.Some? ==> Id(r.value) == s
  {
    if s == Id(DirectoryReadWriteAll) then Some(DirectoryReadWriteAll) else None
  }

  /** Parse, among the members whose identifier has 29 characters: single characters
      of `s` narrow the candidates to one, which is then compared in full. */
  function ParseLength29(s: string): (r: Option<Kind>)
    requires |s| == 29
    ensures r.Some? ==> Id(r.value) == s
  {
    if s[14] == 'n' then
      if s == Id(ApplicationReadWriteAll) then Some(ApplicationReadWriteAll) else None
    else if s[14] == 'r' then
      if s == Id(GroupMemberReadWriteAll) then Some(GroupMemberReadWriteAll) else None
    else None
  }

  /** Parse, for the one member whose identifier has 35 characters. */
  function ParseLength35(s: string): (r: Option<Kind>)
    requires |s| == 35
    ensures r.Some? ==> Id(r.value) == s
  {
    if s == Id(AppRoleAssignmentReadWriteAll) then Some(AppRoleAssignmentReadWriteAll) else None
  }

  /** Parse, for the one member whose identifier has 38 characters. */
  function ParseLength38(s: string): (r: Option<Kind>)
    requires |s| == 38
    ensures r.Some? ==> Id(r.value) == s
  {
    if s == Id(RoleManagementReadWriteDirectory) then Some(RoleManagementReadWriteDirectory) else None
  }

  /** Parse, for the one member whose identifier has 42 characters. */
  function ParseLength42(s: string): (r: Option<Kind>)
    requires |s| == 42
    ensures r.Some? ==> Id(r.value) == s
  {
    if s == Id(ServicePrincipalEndpointReadWriteAll) then Some(ServicePrincipalEndpointReadWriteAll) else None
  }

  /** The member whose identifier is exactly `s` (case-sensitive), if any. */
  function Parse(s: string): (r: Option<Kind>)
    ensures r.Some? ==> Id(r.value) == s
  {
    match |s|
    case 6 => ParseLength6(s)
    case 7 => ParseLength7(s)
    case 8 => ParseLength8(s)
    case 9 => ParseLength9(s)
    case 10 => ParseLength10(s)
    case 11 => ParseLength11(s)
    case 12 => ParseLength12(s)
    case 13 => ParseLength13(s)
    case 14 => ParseLength14(s)
    case 15 => ParseLength15(s)
    case 16 => ParseLength16(s)
    case 17 => ParseLength17(s)
    case 18 => ParseLength18(s)
    case 19 => ParseLength19(s)
    case 20 => ParseLength20(s)
    case 21 => ParseLength21(s)
    case 23 => ParseLength23(s)
    case 25 => ParseLength25(s)
    case 27 => ParseLength27(s)
    case 29 => ParseLength29(s)
    case 35 => ParseLength35(s)
    case 38 => ParseLength38(s)
    case 42 => ParseLength42(s)
    case _ => None
  }

  /** `AzureRelationshipKindToDisplay`: the label of the member whose identifier is `value`;
      None (the `default: return undefined` branch) for any other string. */
  function ToDisplay(value: string): (r: Option<string>)
    ensures r.Some? ==> exists k :: Id(k) == value && r.value == Label(k)
  {
    match Parse(value)
    case Some(k) => Some(Label(k))
    case None => None
  }

  /** Looking up a member's identifier gives back that member. */
  lemma ParseId(k: Kind)
    ensures Parse(Id(k)) == Some(k)
  {
    if Ordinal(k) < 8 {
      ParseIdFrom0(k);
    } else if Ordinal(k) < 16 {
      ParseIdFrom8(k);
    } else if Ordinal(k) < 24 {
      ParseIdFrom16(k);
    } else if Ordinal(k) < 32 {
      ParseIdFrom24(k);
    } else if Ordinal(k) < 40 {
      ParseIdFrom32(k);
    } else {
      ParseIdFrom40(k);
    }
  }

  /** ParseId for the members declared at positions 0 to 7. */
  lemma ParseIdFrom0(k: Kind)
    requires 0 <= Ordinal(k) < 8
    ensures Parse(Id(k)) == Some(k)
  {
    match k
    case AvereContributor =>
    case Contains =>
    case Contributor =>
    case GetCertificates =>
    case GetKeys =>
    case GetSecrets =>
    case HasRole =>
    case MemberOf =>
  }

  /** ParseId for the members declared at positions 8 to 15. */
  lemma ParseIdFrom8(k: Kind)
    requires 8 <= Ordinal(k) < 16
    ensures Parse(Id(k)) == Some(k)
  {
    match k
    case Owner =>
    case RunsAs =>
    case VMContributor =>
    case AutomationContributor =>
    case KeyVaultContributor =>
    case VMAdminLogin =>
    case AddMembers =>
    case AddSecret =>
  }

  /** ParseId for the members declared at positions 16 to 23. */
  lemma ParseIdFrom16(k: Kind)
    requires 16 <= Ordinal(k) < 24
    ensures Parse(Id(k)) == Some(k)
  {
    match k
    case ExecuteCommand =>
    case GlobalAdmin =>
    case PrivilegedAuthAdmin =>
    case Grant =>
    case GrantSelf =>
    case PrivilegedRoleAdmin =>
    case ResetPassword =>
    case UserAccessAdministrator =>
  }

  /** ParseId for the members declared at positions 24 to 31. */
  lemma ParseIdFrom24(k: Kind)
    requires 24 <= Ordinal(k) < 32
    ensures Parse(Id(k)) == Some(k)
  {
    match k
    case Owns =>
    case ScopedTo =>
    case CloudAppAdmin =>
    case AppAdmin =>
    case AddOwner =>
    case ManagedIdentity =>
    case ApplicationReadWriteAll =>
    case AppRoleAssignmentReadWriteAll =>
  }

  /** ParseId for the members declared at positions 32 to 39. */
  lemma ParseIdFrom32(k: Kind)
    requires 32 <= Ordinal(k) < 40
    ensures Parse(Id(k)) == Some(k)
  {
    match k
    case DirectoryReadWriteAll =>
    case GroupReadWriteAll =>
    case GroupMemberReadWriteAll =>
    case RoleManagementReadWriteDirectory =>
    case ServicePrincipalEndpointReadWriteAll =>
    case AKSContributor =>
    case NodeResourceGroup =>
    case WebsiteContributor =>
  }

  /** ParseId for the members declared at positions 40 to 45. */
  lemma ParseIdFrom40(k: Kind)
    requires 40 <= Ordinal(k)
    ensures Parse(Id(k)) == Some(k)
  {
    match k
    case LogicAppContributor =>
    case AZMGAddMember =>
    case AZMGAddOwner =>
    case AZMGAddSecret =>
    case AZMGGrantAppRoles =>
    case AZMGGrantRole =>
  }

  /** Identifiers are pairwise distinct. */
  lemma IdInjective(a: Kind, b: Kind)
    ensures Id(a) == Id(b) ==> a == b
  {
    ParseId(a);
    ParseId(b);
  }

  /** Parse is exactly the inverse of Id: it finds a member precisely when the
      string is that member's identifier. */
  lemma ParseIff(s: string, k: Kind)
    ensures Parse(s) == Some(k) <==> Id(k) == s
  {
    ParseId(k);
  }

  /** Every member has a defined label: the switch has a case for each of them. */
  lemma ToDisplayTotal(k: Kind)
    ensures ToDisplay(Id(k)) == Some(Label(k))
  {
    ParseId(k);
  }

  /** The switch falls through to `undefined` exactly for strings that are no
      member's identifier. */
  lemma ToDisplayUndefined(s: string)
    ensures ToDisplay(s) == None <==> forall k :: Id(k) != s
  {
    forall k: Kind | Id(k) == s
      ensures ToDisplay(s) != None
    {
      ParseId(k);
    }
  }

  /** Ordinal and FromOrdinal are mutually inverse. */
  lemma FromOrdinalOrdinal(k: Kind)
    ensures FromOrdinal(Ordinal(k)) == k
  {
    match k
    case AvereContributor =>
    case Contains =>
    case Contributor =>
    case GetCertificates =>
    case GetKeys =>
    case GetSecrets =>
    case HasRole =>
    case MemberOf =>
    case Owner =>
    case RunsAs =>
    case VMContributor =>
    case AutomationContributor =>
    case KeyVaultContributor =>
    case VMAdminLogin =>
    case AddMembers =>
    case AddSecret =>
    case ExecuteCommand =>
    case GlobalAdmin =>
    case PrivilegedAuthAdmin =>
    case Grant =>
    case GrantSelf =>
    case PrivilegedRoleAdmin =>
    case ResetPassword =>
    case UserAccessAdministrator =>
    case Owns =>
    case ScopedTo =>
    case CloudAppAdmin =>
    case AppAdmin =>
    case AddOwner =>
    case ManagedIdentity =>
    case ApplicationReadWriteAll =>
    case AppRoleAssignmentReadWriteAll =>
    case DirectoryReadWriteAll =>
    case GroupReadWriteAll =>
    case GroupMemberReadWriteAll =>
    case RoleManagementReadWriteDirectory =>
    case ServicePrincipalEndpointReadWriteAll =>
    case AKSContributor =>
    case NodeResourceGroup =>
    case WebsiteContributor =>
    case LogicAppContributor =>
    case AZMGAddMember =>
    case AZMGAddOwner =>
    case AZMGAddSecret =>
    case AZMGGrantAppRoles =>
    case AZMGGrantRole =>
  }

  lemma OrdinalFromOrdinal(i: nat)
    requires i < Count
    ensures Ordinal(FromOrdinal(i)) == i
  {
    match FromOrdinal(i)
    case AvereContributor =>
    case Contains =>
    case Contributor =>
    case GetCertificates =>
    case GetKeys =>
    case GetSecrets =>
    case HasRole =>
    case MemberOf =>
    case Owner =>
    case RunsAs =>
    case VMContributor =>
    case AutomationContributor =>
    case KeyVaultContributor =>
    case VMAdminLogin =>
    case AddMembers =>
    case AddSecret =>
    case ExecuteCommand =>
    case GlobalAdmin =>
    case PrivilegedAuthAdmin =>
    case Grant =>
    case GrantSelf =>
    case PrivilegedRoleAdmin =>
    case ResetPassword =>
    case UserAccessAdministrator =>
    case Owns =>
    case ScopedTo =>
    case CloudAppAdmin =>
    case AppAdmin =>
    case AddOwner =>
    case ManagedIdentity =>
    case ApplicationReadWriteAll =>
    case AppRoleAssignmentReadWriteAll =>
    case DirectoryReadWriteAll =>
    case GroupReadWriteAll =>
    case GroupMemberReadWriteAll =>
    case RoleManagementReadWriteDirectory =>
    case ServicePrincipalEndpointReadWriteAll =>
    case AKSContributor =>
    case NodeResourceGroup =>
    case WebsiteContributor =>
    case LogicAppContributor =>
    case AZMGAddMember =>
    case AZMGAddOwner =>
    case AZMGAddSecret =>
    case AZMGGrantAppRoles =>
    case AZMGGrantRole =>
  }

  /** `All` lists every member exactly once, at its declaration position. */
  lemma AllAt(k: Kind)
    ensures |All| == Count && All[Ordinal(k)] == k
  {
    FromOrdinalOrdinal(k);
  }

  lemma OrdinalAt(i: nat)
    requires i < |All|
    ensures Ordinal(All[i]) == i
  {
    OrdinalFromOrdinal(i);
  }
}

/** Well-known property keys of the Azure domain: the `AzureKindProperties` enum (graphSchema.ts lines 514-546) and
    `AzureKindPropertiesToDisplay` (lines 547-614). */
module AzureKindProperties {
  import opened Wrappers

  /** One constructor per enum member, in declaration order. */
  datatype Property =
      AppOwnerOrganizationID
    | AppDescription
    | AppDisplayName
    | ServicePrincipalType
    | UserType
    | TenantID
    | ServicePrincipalID
    | ServicePrincipalNames
    | OperatingSystemVersion
    | TrustType
    | IsBuiltIn
    | AppID
    | AppRoleID
    | DeviceID
    | NodeResourceGroupID
    | OnPremID
    | OnPremSyncEnabled
    | SecurityEnabled
    | SecurityIdentifier
    | EnableRBACAuthorization
    | Scope
    | Offer
    | MFAEnabled
    | License
    | Licenses
    | MFAEnforced
    | UserPrincipalName
    | IsAssignableToRole
    | PublisherDomain
    | SignInAudience
    | RoleTemplateID

  /** The number of members. */
  const Count := 31

  // The string value of each member: the identifier data producers emit.
  const AppOwnerOrganizationIDId: string := "appownerorganizationid"
  const AppDescriptionId: string := "appdescription"
  const AppDisplayNameId: string := "appdisplayname"
  const ServicePrincipalTypeId: string := "serviceprincipaltype"
  const UserTypeId: string := "usertype"
  const TenantIDId: string := "tenantid"
  const ServicePrincipalIDId: string := "service_principal_id"
  const ServicePrincipalNamesId: string := "service_principal_names"
  const OperatingSystemVersionId: string := "operatingsystemversion"
  const TrustTypeId: string := "trustype"
  const IsBuiltInId: string := "isbuiltin"
  const AppIDId: string := "appid"
  const AppRoleIDId: string := "approleid"
  const DeviceIDId: string := "deviceid"
  const NodeResourceGroupIDId: string := "noderesourcegroupid"
  const OnPremIDId: string := "onpremid"
  const OnPremSyncEnabledId: string := "onpremsyncenabled"
  const SecurityEnabledId: string := "securityenabled"
  const SecurityIdentifierId: string := "securityidentifier"
  const EnableRBACAuthorizationId: string := "enablerbacauthorization"
  const ScopeId: string := "scope"
  const OfferId: string := "offer"
  const MFAEnabledId: string := "mfaenabled"
  const LicenseId: string := "license"
  const LicensesId: string := "licenses"
  const MFAEnforcedId: string := "mfaenforced"
  const UserPrincipalNameId: string := "userprincipalname"
  const IsAssignableToRoleId: string := "isassignabletorole"
  const PublisherDomainId: string := "publisherdomain"
  const SignInAudienceId: string := "signinaudience"
  const RoleTemplateIDId: string := "templateid"

  /** The identifier (string value) of a member. */
  function Id(k: Property): string {
    match k
    case AppOwnerOrganizationID => AppOwnerOrganizationIDId
    case AppDescription => AppDescriptionId
    case AppDisplayName => AppDisplayNameId
    case ServicePrincipalType => ServicePrincipalTypeId
    case UserType => UserTypeId
    case TenantID => TenantIDId
    case ServicePrincipalID => ServicePrincipalIDId
    case ServicePrincipalNames => ServicePrincipalNamesId
    case OperatingSystemVersion => OperatingSystemVersionId
    case TrustType => TrustTypeId
    case IsBuiltIn => IsBuiltInId
    case AppID => AppIDId
    case AppRoleID => AppRoleIDId
    case DeviceID => DeviceIDId
    case NodeResourceGroupID => NodeResourceGroupIDId
    case OnPremID => OnPremIDId
    case OnPremSyncEnabled => OnPremSyncEnabledId
    case SecurityEnabled => SecurityEnabledId
    case SecurityIdentifier => SecurityIdentifierId
    case EnableRBACAuthorization => EnableRBACAuthorizationId
    case Scope => ScopeId
    case Offer => OfferId
    case MFAEnabled => MFAEnabledId
    case License => LicenseId
    case Licenses => LicensesId
    case MFAEnforced => MFAEnforcedId
    case UserPrincipalName => UserPrincipalNameId
    case IsAssignableToRole => IsAssignableToRoleId
    case PublisherDomain => PublisherDomainId
    case SignInAudience => SignInAudienceId
    case RoleTemplateID => RoleTemplateIDId
  }

  /** The position of a member in the declaration. */
  function Ordinal(k: Property): (r: nat)
    ensures r < Count
  {
    match k
    case AppOwnerOrganizationID => 0
    case AppDescription => 1
    case AppDisplayName => 2
    case ServicePrincipalType => 3
    case UserType => 4
    case TenantID => 5
    case ServicePrincipalID => 6
    case ServicePrincipalNames => 7
    case OperatingSystemVersion => 8
    case TrustType => 9
    case IsBuiltIn => 10
    case AppID => 11
    case AppRoleID => 12
    case DeviceID => 13
    case NodeResourceGroupID => 14
    case OnPremID => 15
    case OnPremSyncEnabled => 16
    case SecurityEnabled => 17
    case SecurityIdentifier => 18
    case EnableRBACAuthorization => 19
    case Scope => 20
    case Offer => 21
    case MFAEnabled => 22
    case License => 23
    case Licenses => 24
    case MFAEnforced => 25
    case UserPrincipalName => 26
    case IsAssignableToRole => 27
    case PublisherDomain => 28
    case SignInAudience => 29
    case RoleTemplateID => 30
  }

  /** The member at a declaration position. */
  function FromOrdinal(i: nat): Property
    requires i < Count
  {
    if i < 15 then
      (
        if i < 7 then
          (
            if i < 3 then
              (
                if i == 0 then AppOwnerOrganizationID else if i == 1 then AppDescription else AppDisplayName
              )
            else
              if i < 5 then
                (
                  if i == 3 then ServicePrincipalType else UserType
                )
              else
                if i == 5 then TenantID else ServicePrincipalID
          )
        else
          if i < 11 then
            (
              if i < 9 then
                (
                  if i == 7 then ServicePrincipalNames else OperatingSystemVersion
                )
              else
                if i == 9 then TrustType else IsBuiltIn
            )
          else
            if i < 13 then
              (
                if i == 11 then AppID else AppRoleID
              )
            else
              if i == 13 then DeviceID else NodeResourceGroupID
      )
    else
      if i < 23 then
        (
          if i < 19 then
            (
              if i < 17 then
                (
                  if i == 15 then OnPremID else OnPremSyncEnabled
                )
              else
                if i == 17 then SecurityEnabled else SecurityIdentifier
            )
          else
            if i < 21 then
              (
                if i == 19 then EnableRBACAuthorization else Scope
              )
            else
              if i == 21 then Offer else MFAEnabled
        )
      else
        if i < 27 then
          (
            if i < 25 then
              (
                if i == 23 then License else Licenses
              )
            else
              if i == 25 then MFAEnforced else UserPrincipalName
          )
        else
          if i < 29 then
            (
              if i == 27 then IsAssignableToRole else PublisherDomain
            )
          else
            if i == 29 then SignInAudience else RoleTemplateID
  }

  /** Every member, in declaration order. */
  const All: seq<Property> := seq(Count, i requires 0 <= i < Count => FromOrdinal(i))

  /** The label the display switch returns for a member. */
  function Label(k: Property): string {
    match k
    case AppOwnerOrganizationID => "App Owner Organization ID"
    case AppDescription => "App Description"
    case AppDisplayName => "App Display Name"
    case ServicePrincipalType => "Service Principal Type"
    case UserType => "User Type"
    case TenantID => "Tenant ID"
    case ServicePrincipalID => "Service Principal ID"
    case ServicePrincipalNames => "Service Principal Names"
    case OperatingSystemVersion => "Operating System Version"
    case TrustType => "Trust Type"
    case IsBuiltIn => "Is Built In"
    case AppID => "App ID"
    case AppRoleID => "App Role ID"
    case DeviceID => "Device ID"
    case NodeResourceGroupID => "Node Resource Group ID"
    case OnPremID => "On Prem ID"
    case OnPremSyncEnabled => "On Prem Sync Enabled"
    case SecurityEnabled => "Security Enabled"
    case SecurityIdentifier => "Security Identifier"
    case EnableRBACAuthorization => "RBAC Authorization Enabled"
    case Scope => "Scope"
    case Offer => "Offer"
    case MFAEnabled => "MFA Enabled"
    case License => "License"
    case Licenses => "Licenses"
    case MFAEnforced => "MFA Enforced"
    case UserPrincipalName => "User Principal Name"
    case IsAssignableToRole => "Is Role Assignable"
    case PublisherDomain => "Publisher Domain"
    case SignInAudience => "Sign In Audience"
    case RoleTemplateID => "Role Template ID"
  }

  /** Parse, among the members whose identifier has 5 characters: single characters
      of `s` narrow the candidates to one, which is then compared in full. */
  function ParseLength5(s: string): (r: Option<Property>)
    requires |s| == 5
    ensures r.Some? ==> Id(r.value) == s
  {
    if s[4] == 'd' then
      if s == Id(AppID) then Some(AppID) else None
    else if s[4] == 'e' then
      if s == Id(Scope) then Some(Scope) else None
    else if s[4] == 'r' then
      if s == Id(Offer) then Some(Offer) else None
    else None
  }

  /** Parse, for the one member whose identifier has 7 characters. */
  function ParseLength7(s: string): (r: Option<Property>)
    requires |s| == 7
    ensures r.Some? ==> Id(r.value) == s
  {
    if s == Id(License) then Some(License) else None
  }

  /** Parse, among the members whose identifier has 8 characters: single characters
      of `s` narrow the candidates to one, which is then compared in full. */
  function ParseLength8(s: string): (r: Option<Property>)
    requires |s| == 8
    ensures r.Some? ==> Id(r.value) == s
  {
    if s[2] == 'e' then
      if s == Id(UserType) then Some(UserType) else None
    else if s[2] == 'n' then
      if s == Id(TenantID) then Some(TenantID) else None
    else if s[2] == 'u' then
      if s == Id(TrustType) then Some(TrustType) else None
    else if s[2] == 'v' then
      if s == Id(DeviceID) then Some(DeviceID) else None
    else if s[2] == 'p' then
      if s == Id(OnPremID) then Some(OnPremID) else None
    else if s[2] == 'c' then
      if s == Id(Licenses) then Some(Licenses) else None
    else None
  }

  /** Parse, among the members whose identifier has 9 characters: single characters
      of `s` narrow the candidates to one, which is then compared in full. */
  function ParseLength9(s: string): (r: Option<Property>)
    requires |s| == 9
    ensures r.Some? ==> Id(r.value) == s
  {
    if s[8] == 'n' then
      if s == Id(IsBuiltIn) then Some(IsBuiltIn) else None
    else if s[8] == 'd' then
      if s == Id(AppRoleID) then Some(AppRoleID) else None
    else None
  }

  /** Parse, among the members whose identifier has 10 characters: single characters
      of `s` narrow the candidates to one, which is then compared in full. */
  function ParseLength10(s: string): (r: Option<Property>)
    requires |s| == 10
    ensures r.Some? ==> Id(r.value) == s
  {
    if s[8] == 'e' then
      if s == Id(MFAEnabled) then Some(MFAEnabled) else None
    else if s[8] == 'i' then
      if s == Id(RoleTemplateID) then Some(RoleTemplateID) else None
    else None
  }

  /** Parse, for the one member whose identifier has 11 characters. */
  function ParseLength11(s: string): (r: Option<Property>)
    requires |s| == 11
    ensures r.Some? ==> Id(r.value) == s
  {
    if s == Id(MFAEnforced) then Some(MFAEnforced) else None
  }

  /** Parse, among the members whose identifier has 14 characters: single characters
      of `s` narrow the candidates to one, which is then compared in full. */
  function ParseLength14(s: string): (r: Option<Property>)
    requires |s| == 14
    ensures r.Some? ==> Id(r.value) == s
  {
    if s[12] == 'o' then
      if s == Id(AppDescription) then Some(AppDescription) else None
    else if s[12] == 'm' then
      if s == Id(AppDisplayName) then Some(AppDisplayName) else None
    else if s[12] == 'c' then
      if s == Id(SignInAudience) then Some(SignInAudience) else None
    else None
  }

  /** Parse, among the members whose identifier has 15 characters: single characters
      of `s` narrow the candidates to one, which is then compared in full. */
  function ParseLength15(s: string): (r: Option<Property>)
    requires |s| == 15
    ensures r.Some? ==> Id(r.value) == s
  {
    if s[14] == 'd' then
      if s == Id(SecurityEnabled) then Some(SecurityEnabled) else None
    else if s[14] == 'n' then
      if s == Id(PublisherDomain) then Some(PublisherDomain) else None
    else None
  }

  /** Parse, among the members whose identifier has 17 characters: single characters
      of `s` narrow the candidates to one, which is then compared in full. */
  function ParseLength17(s: string): (r: Option<Property>)
    requires |s| == 17
    ensures r.Some? ==> Id(r.value) == s
  {
    if s[16] == 'd' then
      if s == Id(OnPremSyncEnabled) then Some(OnPremSyncEnabled) else None
    else if s[16] == 'e' then
      if s == Id(UserPrincipalName) then Some(UserPrincipalName) else None
    else None
  }

  /** Parse, among the members whose identifier has 18 characters: single characters
      of `s` narrow the candidates to one, which is then compared in full. */
  function ParseLength18(s: string): (r: Option<Property>)
    requires |s| == 18
    ensures r.Some? ==> Id(r.value) == s
  {
    if s[17] == 'r' then
      if s == Id(SecurityIdentifier) then Some(SecurityIdentifier) else None
    else if s[17] == 'e' then
      if s == Id(IsAssignableToRole) then Some(IsAssignableToRole) else None
    else None
  }

  /** Parse, for the one member whose identifier has 19 characters. */
  function ParseLength19(s: string): (r: Option<Property>)
    requires |s| == 19
    ensures r.Some? ==> Id(r.value) == s
  {
    if s == Id(NodeResourceGroupID) then Some(NodeResourceGroupID) else None
  }

  /** Parse, among the members whose identifier has 20 characters: single characters
      of `s` narrow the candidates to one, which is then compared in full. */
  function ParseLength20(s: string): (r: Option<Property>)
    requires |s| == 20
    ensures r.Some? ==> Id(r.value) == s
  {
    if s[19] == 'e' then
      if s == Id(ServicePrincipalType) then Some(ServicePrincipalType) else None
    else if s[19] == 'd' then
      if s == Id(ServicePrincipalID) then Some(ServicePrincipalID) else None
    else None
  }

  /** Parse, among the members whose identifier has 22 characters: single characters
      of `s` narrow the candidates to one, which is then compared in full. */
  function ParseLength22(s: string): (r: Option<Property>)
    requires |s| == 22
    ensures r.Some? ==> Id(r.value) == s
  {
    if s[21] == 'd' then
      if s == Id(AppOwnerOrganizationID) then Some(AppOwnerOrganizationID) else None
    else if s[21] == 'n' then
      if s == Id(OperatingSystemVersion) then Some(OperatingSystemVersion) else None
    else None
  }

  /** Parse, among the members whose identifier has 23 characters: single characters
      of `s` narrow the candidates to one, which is then compared in full. */
  function ParseLength23(s: string): (r: Option<Property>)
    requires |s| == 23
    ensures r.Some? ==> Id(r.value) == s
  {
    if s[22] == 's' then
      if s == Id(ServicePrincipalNames) then Some(ServicePrincipalNames) else None
    else if s[22] == 'n' then
      if s == Id(EnableRBACAuthorization) then Some(EnableRBACAuthorization) else None
    else None
  }

  /** The member whose identifier is exactly `s` (case-sensitive), if any. */
  function Parse(s: string): (r: Option<Property>)
    ensures r.Some? ==> Id(r.value) == s
  {
    match |s|
    case 5 => ParseLength5(s)
    case 7 => ParseLength7(s)
    case 8 => ParseLength8(s)
    case 9 => ParseLength9(s)
    case 10 => ParseLength10(s)
    case 11 => ParseLength11(s)
    case 14 => ParseLength14(s)
    case 15 => ParseLength15(s)
    case 17 => ParseLength17(s)
    case 18 => ParseLength18(s)
    case 19 => ParseLength19(s)
    case 20 => ParseLength20(s)
    case 22 => ParseLength22(s)
    case 23 => ParseLength23(s)
    case _ => None
  }

  /** `AzureKindPropertiesToDisplay`: the label of the member whose identifier is `value`;
      None (the `default: return undefined` branch) for any other string. */
  function ToDisplay(value: string): (r: Option<string>)
    ensures r.Some? ==> exists k :: Id(k) == value && r.value == Label(k)
  {
    match Parse(value)
    case Some(k) => Some(Label(k))
    case None => None
  }

  /** Looking up a member's identifier gives back that member. */
  lemma ParseId(k: Property)
    ensures Parse(Id(k)) == Some(k)
  {
    if Ordinal(k) < 8 {
      ParseIdFrom0(k);
    } else if Ordinal(k) < 16 {
      ParseIdFrom8(k);
    } else if Ordinal(k) < 24 {
      ParseIdFrom16(k);
    } else {
      ParseIdFrom24(k);
    }
  }

  /** ParseId for the members declared at positions 0 to 7. */
  lemma ParseIdFrom0(k: Property)
    requires 0 <= Ordinal(k) < 8
    ensures Parse(Id(k)) == Some(k)
  {
    match k
    case AppOwnerOrganizationID =>
    case AppDescription =>
    case AppDisplayName =>
    case ServicePrincipalType =>
    case UserType =>
    case TenantID =>
    case ServicePrincipalID =>
    case ServicePrincipalNames =>
  }

  /** ParseId for the members declared at positions 8 to 15. */
  lemma ParseIdFrom8(k: Property)
    requires 8 <= Ordinal(k) < 16
    ensures Parse(Id(k)) == Some(k)
  {
    match k
    case OperatingSystemVersion =>
    case TrustType =>
    case IsBuiltIn =>
    case AppID =>
    case AppRoleID =>
    case DeviceID =>
    case NodeResourceGroupID =>
    case OnPremID =>
  }

  /** ParseId for the members declared at positions 16 to 23. */
  lemma ParseIdFrom16(k: Property)
    requires 16 <= Ordinal(k) < 24
    ensures Parse(Id(k)) == Some(k)
  {
    match k
    case OnPremSyncEnabled =>
    case SecurityEnabled =>
    case SecurityIdentifier =>
    case EnableRBACAuthorization =>
    case Scope =>
    case Offer =>
    case MFAEnabled =>
    case License =>
  }

  /** ParseId for the members declared at positions 24 to 30. */
  lemma ParseIdFrom24(k: Property)
    requires 24 <= Ordinal(k)
    ensures Parse(Id(k)) == Some(k)
  {
    match k
    case Licenses =>
    case MFAEnforced =>
    case UserPrincipalName =>
    case IsAssignableToRole =>
    case PublisherDomain =>
    case SignInAudience =>
    case RoleTemplateID =>
  }

  /** Identifiers are pairwise distinct. */
  lemma IdInjective(a: Property, b: Property)
    ensures Id(a) == Id(b) ==> a == b
  {
    ParseId(a);
    ParseId(b);
  }

  /** Parse is exactly the inverse of Id: it finds a member precisely when the
      string is that member's identifier. */
  lemma ParseIff(s: string, k: Property)
    ensures Parse(s) == Some(k) <==> Id(k) == s
  {
    ParseId(k);
  }

  /** Every member has a defined label: the switch has a case for each of them. */
  lemma ToDisplayTotal(k: Property)
    ensures ToDisplay(Id(k)) == Some(Label(k))
  {
    ParseId(k);
  }

  /** The switch falls through to `undefined` exactly for strings that are no
      member's identifier. */
  lemma ToDisplayUndefined(s: string)
    ensures ToDisplay(s) == None <==> forall k :: Id(k) != s
  {
    forall k: Property | Id(k) == s
      ensures ToDisplay(s) != None
    {
      ParseId(k);
    }
  }

  /** Ordinal and FromOrdinal are mutually inverse. */
  lemma FromOrdinalOrdinal(k: Property)
    ensures FromOrdinal(Ordinal(k)) == k
  {
    match k
    case AppOwnerOrganizationID =>
    case AppDescription =>
    case AppDisplayName =>
    case ServicePrincipalType =>
    case UserType =>
    case TenantID =>
    case ServicePrincipalID =>
    case ServicePrincipalNames =>
    case OperatingSystemVersion =>
    case TrustType =>
    case IsBuiltIn =>
    case AppID =>
    case AppRoleID =>
    case DeviceID =>
    case NodeResourceGroupID =>
    case OnPremID =>
    case OnPremSyncEnabled =>
    case SecurityEnabled =>
    case SecurityIdentifier =>
    case EnableRBACAuthorization =>
    case Scope =>
    case Offer =>
    case MFAEnabled =>
    case License =>
    case Licenses =>
    case MFAEnforced =>
    case UserPrincipalName =>
    case IsAssignableToRole =>
    case PublisherDomain =>
    case SignInAudience =>
    case RoleTemplateID =>
  }

  lemma OrdinalFromOrdinal(i: nat)
    requires i < Count
    ensures Ordinal(FromOrdinal(i)) == i
  {
    match FromOrdinal(i)
    case AppOwnerOrganizationID =>
    case AppDescription =>
    case AppDisplayName =>
    case ServicePrincipalType =>
    case UserType =>
    case TenantID =>
    case ServicePrincipalID =>
    case ServicePrincipalNames =>
    case OperatingSystemVersion =>
    case TrustType =>
    case IsBuiltIn =>
    case AppID =>
    case AppRoleID =>
    case DeviceID =>
    case NodeResourceGroupID =>
    case OnPremID =>
    case OnPremSyncEnabled =>
    case SecurityEnabled =>
    case SecurityIdentifier =>
    case EnableRBACAuthorization =>
    case Scope =>
    case Offer =>
    case MFAEnabled =>
    case License =>
    case Licenses =>
    case MFAEnforced =>
    case UserPrincipalName =>
    case IsAssignableToRole =>
    case PublisherDomain =>
    case SignInAudience =>
    case RoleTemplateID =>
  }

  /** `All` lists every member exactly once, at its declaration position. */
  lemma AllAt(k: Property)
    ensures |All| == Count && All[Ordinal(k)] == k
  {
    FromOrdinalOrdinal(k);
  }

  lemma OrdinalAt(i: nat)
    requires i < |All|
    ensures Ordinal(All[i]) == i
  {
    OrdinalFromOrdinal(i);
  }
}
