/** Facts that relate the enumerations of the different domains to each other:
    the Azure identifier prefix, the two kind unions (graphSchema.ts lines 174
    and 513), and the labels and identifiers the display functions give for a
    few members. */
module GraphSchema {
  import opened Wrappers
  import ADNode = ActiveDirectoryNodeKind
  import ADRel = ActiveDirectoryRelationshipKind
  import ADProp = ActiveDirectoryKindProperties
  import AZNode = AzureNodeKind
  import AZRel = AzureRelationshipKind
  import AZProp = AzureKindProperties

  /** The string starts with "AZ", as every Azure node and relationship
      identifier does. */
  predicate HasAzurePrefix(s: string) {
    |s| >= 2 && s[0] == 'A' && s[1] == 'Z'
  }

  /** Every Azure node identifier starts with "AZ". */
  lemma AzureNodeIdPrefixed(k: AZNode.Kind)
    ensures HasAzurePrefix(AZNode.Id(k))
  {
    if AZNode.Ordinal(k) < 8 {
      AzureNodeIdPrefixedFrom0(k);
    } else if AZNode.Ordinal(k) < 16 {
      AzureNodeIdPrefixedFrom8(k);
    } else {
      AzureNodeIdPrefixedFrom16(k);
    }
  }

  lemma AzureNodeIdPrefixedFrom0(k: AZNode.Kind)
    requires 0 <= AZNode.Ordinal(k) < 8
    ensures HasAzurePrefix(AZNode.Id(k))
  {
    match k
    case Entity =>
    case VMScaleSet =>
    case App =>
    case Role =>
    case Device =>
    case FunctionApp =>
    case Group =>
    case KeyVault =>
  }

  lemma AzureNodeIdPrefixedFrom8(k: AZNode.Kind)
    requires 8 <= AZNode.Ordinal(k) < 16
    ensures HasAzurePrefix(AZNode.Id(k))
  {
    match k
    case ManagementGroup =>
    case ResourceGroup =>
    case ServicePrincipal =>
    case Subscription =>
    case Tenant =>
    case User =>
    case VM =>
    case ManagedCluster =>
  }

  lemma AzureNodeIdPrefixedFrom16(k: AZNode.Kind)
    requires 16 <= AZNode.Ordinal(k)
    ensures HasAzurePrefix(AZNode.Id(k))
  {
    match k
    case ContainerRegistry =>
    case WebApp =>
    case LogicApp =>
    case AutomationAccount =>
  }

  /** Every Azure relationship identifier starts with "AZ". */
  lemma AzureRelationshipIdPrefixed(k: AZRel.Kind)
    ensures HasAzurePrefix(AZRel.Id(k))
  {
    if AZRel.Ordinal(k) < 8 {
      AzureRelationshipIdPrefixedFrom0(k);
    } else if AZRel.Ordinal(k) < 16 {
      AzureRelationshipIdPrefixedFrom8(k);
    } else if AZRel.Ordinal(k) < 24 {
      AzureRelationshipIdPrefixedFrom16(k);
    } else if AZRel.Ordinal(k) < 32 {
      AzureRelationshipIdPrefixedFrom24(k);
    } else if AZRel.Ordinal(k) < 40 {
      AzureRelationshipIdPrefixedFrom32(k);
    } else {
      AzureRelationshipIdPrefixedFrom40(k);
    }
  }

  lemma AzureRelationshipIdPrefixedFrom0(k: AZRel.Kind)
    requires 0 <= AZRel.Ordinal(k) < 8
    ensures HasAzurePrefix(AZRel.Id(k))
  {
    match k
    case AvereContributor =>
    case Contains =>
    case Contributor =>
    case GetCertificates =>
    case GetKeys =>
    case GetSecrets =>
    case HasRole =>
    case MemberOf =>
  }

  lemma AzureRelationshipIdPrefixedFrom8(k: AZRel.Kind)
    requires 8 <= AZRel.Ordinal(k) < 16
    ensures HasAzurePrefix(AZRel.Id(k))
  {
    match k
    case Owner =>
    case RunsAs =>
    case VMContributor =>
    case AutomationContributor =>
    case KeyVaultContributor =>
    case VMAdminLogin =>
    case AddMembers =>
    case AddSecret =>
  }

  lemma AzureRelationshipIdPrefixedFrom16(k: AZRel.Kind)
    requires 16 <= AZRel.Ordinal(k) < 24
    ensures HasAzurePrefix(AZRel.Id(k))
  {
    match k
    case ExecuteCommand =>
    case GlobalAdmin =>
    case PrivilegedAuthAdmin =>
    case Grant =>
    case GrantSelf =>
    case PrivilegedRoleAdmin =>
    case ResetPassword =>
    case UserAccessAdministrator =>
  }

  lemma AzureRelationshipIdPrefixedFrom24(k: AZRel.Kind)
    requires 24 <= AZRel.Ordinal(k) < 32
    ensures HasAzurePrefix(AZRel.Id(k))
  {
    match k
    case Owns =>
    case ScopedTo =>
    case CloudAppAdmin =>
    case AppAdmin =>
    case AddOwner =>
    case ManagedIdentity =>
    case ApplicationReadWriteAll =>
    case AppRoleAssignmentReadWriteAll =>
  }

  lemma AzureRelationshipIdPrefixedFrom32(k: AZRel.Kind)
    requires 32 <= AZRel.Ordinal(k) < 40
    ensures HasAzurePrefix(AZRel.Id(k))
  {
    match k
    case DirectoryReadWriteAll =>
    case GroupReadWriteAll =>
    case GroupMemberReadWriteAll =>
    case RoleManagementReadWriteDirectory =>
    case ServicePrincipalEndpointReadWriteAll =>
    case AKSContributor =>
    case NodeResourceGroup =>
    case WebsiteContributor =>
  }

  lemma AzureRelationshipIdPrefixedFrom40(k: AZRel.Kind)
    requires 40 <= AZRel.Ordinal(k)
    ensures HasAzurePrefix(AZRel.Id(k))
  {
    match k
    case LogicAppContributor =>
    case AZMGAddMember =>
    case AZMGAddOwner =>
    case AZMGAddSecret =>
    case AZMGGrantAppRoles =>
    case AZMGGrantRole =>
  }

  /** No Active Directory node identifier starts with "AZ". */
  lemma ActiveDirectoryNodeIdUnprefixed(k: ADNode.Kind)
    ensures !HasAzurePrefix(ADNode.Id(k))
  {
    if ADNode.Ordinal(k) < 8 {
      ActiveDirectoryNodeIdUnprefixedFrom0(k);
    } else {
      ActiveDirectoryNodeIdUnprefixedFrom8(k);
    }
  }

  lemma ActiveDirectoryNodeIdUnprefixedFrom0(k: ADNode.Kind)
    requires 0 <= ADNode.Ordinal(k) < 8
    ensures !HasAzurePrefix(ADNode.Id(k))
  {
    match k
    case Entity =>
    case User =>
    case Computer =>
    case Group =>
    case GPO =>
    case OU =>
    case Container =>
    case Domain =>
  }

  lemma ActiveDirectoryNodeIdUnprefixedFrom8(k: ADNode.Kind)
    requires 8 <= ADNode.Ordinal(k)
    ensures !HasAzurePrefix(ADNode.Id(k))
  {
    match k
    case LocalGroup =>
    case LocalUser =>
  }

  /** No Active Directory relationship identifier starts with "AZ". */
  lemma ActiveDirectoryRelationshipIdUnprefixed(k: ADRel.Kind)
    ensures !HasAzurePrefix(ADRel.Id(k))
  {
    if ADRel.Ordinal(k) < 8 {
      ActiveDirectoryRelationshipIdUnprefixedFrom0(k);
    } else if ADRel.Ordinal(k) < 16 {
      ActiveDirectoryRelationshipIdUnprefixedFrom8(k);
    } else if ADRel.Ordinal(k) < 24 {
      ActiveDirectoryRelationshipIdUnprefixedFrom16(k);
    } else if ADRel.Ordinal(k) < 32 {
      ActiveDirectoryRelationshipIdUnprefixedFrom24(k);
    } else {
      ActiveDirectoryRelationshipIdUnprefixedFrom32(k);
    }
  }

  lemma ActiveDirectoryRelationshipIdUnprefixedFrom0(k: ADRel.Kind)
    requires 0 <= ADRel.Ordinal(k) < 8
    ensures !HasAzurePrefix(ADRel.Id(k))
  {
    match k
    case Owns =>
    case GenericAll =>
    case GenericWrite =>
    case WriteOwner =>
    case WriteDACL =>
    case MemberOf =>
    case ForceChangePassword =>
    case AllExtendedRights =>
  }

  lemma ActiveDirectoryRelationshipIdUnprefixedFrom8(k: ADRel.Kind)
    requires 8 <= ADRel.Ordinal(k) < 16
    ensures !HasAzurePrefix(ADRel.Id(k))
  {
    match k
    case AddMember =>
    case HasSession =>
    case Contains =>
    case GPLink =>
    case AllowedToDelegate =>
    case GetChanges =>
    case GetChangesAll =>
    case GetChangesInFilteredSet =>
  }

  lemma ActiveDirectoryRelationshipIdUnprefixedFrom16(k: ADRel.Kind)
    requires 16 <= ADRel.Ordinal(k) < 24
    ensures !HasAzurePrefix(ADRel.Id(k))
  {
    match k
    case TrustedBy =>
    case AllowedToAct =>
    case AdminTo =>
    case CanPSRemote =>
    case CanRDP =>
    case ExecuteDCOM =>
    case HasSIDHistory =>
    case AddSelf =>
  }

  lemma ActiveDirectoryRelationshipIdUnprefixedFrom24(k: ADRel.Kind)
    requires 24 <= ADRel.Ordinal(k) < 32
    ensures !HasAzurePrefix(ADRel.Id(k))
  {
    match k
    case DCSync =>
    case ReadLAPSPassword =>
    case ReadGMSAPassword =>
    case DumpSMSAPassword =>
    case SQLAdmin =>
    case AddAllowedToAct =>
    case WriteSPN =>
    case AddKeyCredentialLink =>
  }

  lemma ActiveDirectoryRelationshipIdUnprefixedFrom32(k: ADRel.Kind)
    requires 32 <= ADRel.Ordinal(k)
    ensures !HasAzurePrefix(ADRel.Id(k))
  {
    match k
    case LocalToComputer =>
    case MemberOfLocalGroup =>
    case RemoteInteractiveLogonPrivilege =>
    case SyncLAPSPassword =>
    case WriteAccountRestrictions =>
  }

  /** No Active Directory node identifier is an Azure node identifier. */
  lemma NodeIdsDisjoint(a: ADNode.Kind, b: AZNode.Kind)
    ensures ADNode.Id(a) != AZNode.Id(b)
  {
    ActiveDirectoryNodeIdUnprefixed(a);
    AzureNodeIdPrefixed(b);
  }

  /** No Active Directory relationship identifier is an Azure relationship
      identifier. */
  lemma RelationshipIdsDisjoint(a: ADRel.Kind, b: AZRel.Kind)
    ensures ADRel.Id(a) != AZRel.Id(b)
  {
    ActiveDirectoryRelationshipIdUnprefixed(a);
    AzureRelationshipIdPrefixed(b);
  }

  /** Labels, unlike identifiers, are shared between the domains. */
  lemma SharedLabels()
    ensures ADNode.Label(ADNode.Group) == AZNode.Label(AZNode.Group) == "Group"
    ensures ADNode.Id(ADNode.Group) != AZNode.Id(AZNode.Group)
    ensures ADRel.Label(ADRel.Owns) == AZRel.Label(AZRel.Owns) == "Owns"
    ensures ADRel.Id(ADRel.Owns) != AZRel.Id(AZRel.Owns)
  {
    NodeIdsDisjoint(ADNode.Group, AZNode.Group);
    RelationshipIdsDisjoint(ADRel.Owns, AZRel.Owns);
  }

  /** Every Active Directory relationship is displayed under its own identifier,
      except WriteDACL, whose identifier is "WriteDacl". */
  lemma ActiveDirectoryRelationshipLabelIsId(k: ADRel.Kind)
    ensures ADRel.Label(k) == ADRel.Id(k) <==> k != ADRel.WriteDACL
  {
    if ADRel.Ordinal(k) < 8 {
      ActiveDirectoryRelationshipLabelIsIdFrom0(k);
    } else if ADRel.Ordinal(k) < 16 {
      ActiveDirectoryRelationshipLabelIsIdFrom8(k);
    } else if ADRel.Ordinal(k) < 24 {
      ActiveDirectoryRelationshipLabelIsIdFrom16(k);
    } else if ADRel.Ordinal(k) < 32 {
      ActiveDirectoryRelationshipLabelIsIdFrom24(k);
    } else {
      ActiveDirectoryRelationshipLabelIsIdFrom32(k);
    }
  }

  lemma ActiveDirectoryRelationshipLabelIsIdFrom0(k: ADRel.Kind)
    requires 0 <= ADRel.Ordinal(k) < 8
    ensures ADRel.Label(k) == ADRel.Id(k) <==> k != ADRel.WriteDACL
  {
    match k
    case Owns =>
    case GenericAll =>
    case GenericWrite =>
    case WriteOwner =>
    case WriteDACL =>
    case MemberOf =>
    case ForceChangePassword =>
    case AllExtendedRights =>
  }

  lemma ActiveDirectoryRelationshipLabelIsIdFrom8(k: ADRel.Kind)
    requires 8 <= ADRel.Ordinal(k) < 16
    ensures ADRel.Label(k) == ADRel.Id(k) <==> k != ADRel.WriteDACL
  {
    match k
    case AddMember =>
    case HasSession =>
    case Contains =>
    case GPLink =>
    case AllowedToDelegate =>
    case GetChanges =>
    case GetChangesAll =>
    case GetChangesInFilteredSet =>
  }

  lemma ActiveDirectoryRelationshipLabelIsIdFrom16(k: ADRel.Kind)
    requires 16 <= ADRel.Ordinal(k) < 24
    ensures ADRel.Label(k) == ADRel.Id(k) <==> k != ADRel.WriteDACL
  {
    match k
    case TrustedBy =>
    case AllowedToAct =>
    case AdminTo =>
    case CanPSRemote =>
    case CanRDP =>
    case ExecuteDCOM =>
    case HasSIDHistory =>
    case AddSelf =>
  }

  lemma ActiveDirectoryRelationshipLabelIsIdFrom24(k: ADRel.Kind)
    requires 24 <= ADRel.Ordinal(k) < 32
    ensures ADRel.Label(k) == ADRel.Id(k) <==> k != ADRel.WriteDACL
  {
    match k
    case DCSync =>
    case ReadLAPSPassword =>
    case ReadGMSAPassword =>
    case DumpSMSAPassword =>
    case SQLAdmin =>
    case AddAllowedToAct =>
    case WriteSPN =>
    case AddKeyCredentialLink =>
  }

  lemma ActiveDirectoryRelationshipLabelIsIdFrom32(k: ADRel.Kind)
    requires 32 <= ADRel.Ordinal(k)
    ensures ADRel.Label(k) == ADRel.Id(k) <==> k != ADRel.WriteDACL
  {
    match k
    case LocalToComputer =>
    case MemberOfLocalGroup =>
    case RemoteInteractiveLogonPrivilege =>
    case SyncLAPSPassword =>
    case WriteAccountRestrictions =>
  }

  /** A node identifier is never read as a relationship kind. */
  lemma ActiveDirectoryNodeNotRelationship(k: ADNode.Kind)
    ensures ADRel.Parse(ADNode.Id(k)) == None
  {
    if ADNode.Ordinal(k) < 8 {
      ActiveDirectoryNodeNotRelationshipFrom0(k);
    } else {
      ActiveDirectoryNodeNotRelationshipFrom8(k);
    }
  }

  lemma ActiveDirectoryNodeNotRelationshipFrom0(k: ADNode.Kind)
    requires 0 <= ADNode.Ordinal(k) < 8
    ensures ADRel.Parse(ADNode.Id(k)) == None
  {
    match k
    case Entity =>
    case User =>
    case Computer =>
    case Group =>
    case GPO =>
    case OU =>
    case Container =>
    case Domain =>
  }

  lemma ActiveDirectoryNodeNotRelationshipFrom8(k: ADNode.Kind)
    requires 8 <= ADNode.Ordinal(k)
    ensures ADRel.Parse(ADNode.Id(k)) == None
  {
    match k
    case LocalGroup =>
    case LocalUser =>
  }

  /** A node identifier is never read as a relationship kind. */
  lemma AzureNodeNotRelationship(k: AZNode.Kind)
    ensures AZRel.Parse(AZNode.Id(k)) == None
  {
    if AZNode.Ordinal(k) < 8 {
      AzureNodeNotRelationshipFrom0(k);
    } else if AZNode.Ordinal(k) < 16 {
      AzureNodeNotRelationshipFrom8(k);
    } else {
      AzureNodeNotRelationshipFrom16(k);
    }
  }

  lemma AzureNodeNotRelationshipFrom0(k: AZNode.Kind)
    requires 0 <= AZNode.Ordinal(k) < 8
    ensures AZRel.Parse(AZNode.Id(k)) == None
  {
    match k
    case Entity =>
    case VMScaleSet =>
    case App =>
    case Role =>
    case Device =>
    case FunctionApp =>
    case Group =>
    case KeyVault =>
  }

  lemma AzureNodeNotRelationshipFrom8(k: AZNode.Kind)
    requires 8 <= AZNode.Ordinal(k) < 16
    ensures AZRel.Parse(AZNode.Id(k)) == None
  {
    match k
    case ManagementGroup =>
    case ResourceGroup =>
    case ServicePrincipal =>
    case Subscription =>
    case Tenant =>
    case User =>
    case VM =>
    case ManagedCluster =>
  }

  lemma AzureNodeNotRelationshipFrom16(k: AZNode.Kind)
    requires 16 <= AZNode.Ordinal(k)
    ensures AZRel.Parse(AZNode.Id(k)) == None
  {
    match k
    case ContainerRegistry =>
    case WebApp =>
    case LogicApp =>
    case AutomationAccount =>
  }


  /** An Active Directory kind: the union of its node and relationship kinds. */
  datatype ActiveDirectoryKind = ActiveDirectoryNode(node: ADNode.Kind) | ActiveDirectoryRelationship(rel: ADRel.Kind)

  /** An Azure kind: the union of its node and relationship kinds. */
  datatype AzureKind = AzureNode(node: AZNode.Kind) | AzureRelationship(rel: AZRel.Kind)

  function ActiveDirectoryKindId(k: ActiveDirectoryKind): string {
    match k
    case ActiveDirectoryNode(n) => ADNode.Id(n)
    case ActiveDirectoryRelationship(r) => ADRel.Id(r)
  }

  function AzureKindId(k: AzureKind): string {
    match k
    case AzureNode(n) => AZNode.Id(n)
    case AzureRelationship(r) => AZRel.Id(r)
  }

  /** No string is both a node and a relationship identifier of the same domain,
      so each union member is named by its identifier alone. */
  lemma ActiveDirectoryKindIdInjective(a: ActiveDirectoryKind, b: ActiveDirectoryKind)
    ensures ActiveDirectoryKindId(a) == ActiveDirectoryKindId(b) ==> a == b
  {
    match (a, b)
    case (ActiveDirectoryNode(x), ActiveDirectoryNode(y)) => ADNode.IdInjective(x, y);
    case (ActiveDirectoryRelationship(x), ActiveDirectoryRelationship(y)) => ADRel.IdInjective(x, y);
    case (ActiveDirectoryNode(x), ActiveDirectoryRelationship(y)) =>
      ActiveDirectoryNodeNotRelationship(x);
      ADRel.ParseId(y);
    case (ActiveDirectoryRelationship(x), ActiveDirectoryNode(y)) =>
      ActiveDirectoryNodeNotRelationship(y);
      ADRel.ParseId(x);
  }

  lemma AzureKindIdInjective(a: AzureKind, b: AzureKind)
    ensures AzureKindId(a) == AzureKindId(b) ==> a == b
  {
    match (a, b)
    case (AzureNode(x), AzureNode(y)) => AZNode.IdInjective(x, y);
    case (AzureRelationship(x), AzureRelationship(y)) => AZRel.IdInjective(x, y);
    case (AzureNode(x), AzureRelationship(y)) =>
      AzureNodeNotRelationship(x);
      AZRel.ParseId(y);
    case (AzureRelationship(x), AzureNode(y)) =>
      AzureNodeNotRelationship(y);
      AZRel.ParseId(x);
  }

  /** What the display functions give for a few identifiers: a property key,
      a node whose label differs from its identifier, and strings that are no
      identifier at all. */
  lemma LapsDisplay()
    ensures ADProp.ToDisplay("haslaps") == Some("LAPS Enabled")
  {
    ADProp.ToDisplayTotal(ADProp.HasLAPS);
  }

  lemma BaseDisplay()
    ensures ADNode.ToDisplay("Base") == Some("Entity")
    ensures AZNode.ToDisplay("AZBase") == Some("Entity")
  {
    ADNode.ToDisplayTotal(ADNode.Entity);
    AZNode.ToDisplayTotal(AZNode.Entity);
  }

  /** The Azure trust type key is spelt "trustype", the Active Directory one
      "trusttype"; both are displayed as "Trust Type", and neither spelling is
      known to the other domain. */
  lemma TrustTypeDisplay()
    ensures ADProp.ToDisplay("trusttype") == Some("Trust Type")
    ensures AZProp.ToDisplay("trustype") == Some("Trust Type")
    ensures ADProp.ToDisplay("trustype") == None
    ensures AZProp.ToDisplay("trusttype") == None
  {
    ADProp.ToDisplayTotal(ADProp.TrustType);
    AZProp.ToDisplayTotal(AZProp.TrustType);
  }

  /** The WriteDACL relationship is looked up by "WriteDacl"; its label does not
      name it. */
  lemma WriteDaclDisplay()
    ensures ADRel.ToDisplay("WriteDacl") == Some("WriteDACL")
    ensures ADRel.ToDisplay("WriteDACL") == None
  {
    ADRel.ToDisplayTotal(ADRel.WriteDACL);
  }

  lemma UnknownDisplay()
    ensures ADNode.ToDisplay("NotARealKind") == None
    ensures ADRel.ToDisplay("") == None
  {
  }
}
