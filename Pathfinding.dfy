/** The relationship kinds pathfinding traverses in each domain, and how each
    list relates to the enumeration it is drawn from. */
module Pathfinding {
  import opened Enumeration
  import AD = ActiveDirectoryRelationshipKind
  import AZ = AzureRelationshipKind
  import GraphSchema

  /** `ActiveDirectoryPathfindingEdges` (graphSchema.ts lines 264-298): the Active Directory relationship kinds
      a path search may follow, in the order the source lists them. */
  function ActiveDirectoryPathfindingEdges(): (r: seq<AD.Kind>)
    ensures |r| == 31 && forall i :: 0 <= i < |r| ==> ActiveDirectoryTraversable(r[i])
  {
    [
      AD.Owns,
      AD.GenericAll,
      AD.GenericWrite,
      AD.WriteOwner,
      AD.WriteDACL,
      AD.MemberOf,
      AD.ForceChangePassword,
      AD.AllExtendedRights,
      AD.AddMember,
      AD.HasSession,
      AD.Contains,
      AD.GPLink,
      AD.AllowedToDelegate,
      AD.TrustedBy,
      AD.AllowedToAct,
      AD.AdminTo,
      AD.CanPSRemote,
      AD.CanRDP,
      AD.ExecuteDCOM,
      AD.HasSIDHistory,
      AD.AddSelf,
      AD.DCSync,
      AD.ReadLAPSPassword,
      AD.ReadGMSAPassword,
      AD.DumpSMSAPassword,
      AD.SQLAdmin,
      AD.AddAllowedToAct,
      AD.WriteSPN,
      AD.AddKeyCredentialLink,
      AD.SyncLAPSPassword,
      AD.WriteAccountRestrictions
    ]
  }

  /** The Active Directory relationship kinds the list leaves out: the replication rights GetChanges, GetChangesAll and GetChangesInFilteredSet,
      and the local-group and logon relationships. */
  predicate ActiveDirectoryNonTraversable(k: AD.Kind) {
    k in {AD.GetChanges, AD.GetChangesAll, AD.GetChangesInFilteredSet, AD.LocalToComputer, AD.MemberOfLocalGroup, AD.RemoteInteractiveLogonPrivilege}
  }

  predicate ActiveDirectoryTraversable(k: AD.Kind) {
    !ActiveDirectoryNonTraversable(k)
  }

  /** The declaration position of the kind listed at index `i`: the list runs
      through the enumeration and steps over each non-traversable kind. */
  function ActiveDirectoryPathfindingPosition(i: nat): nat {
    if i < 13 then i else if i < 29 then i + 3 else i + 6
  }

  /** The kind listed at index `i` is the one declared at ActiveDirectoryPathfindingPosition(i). */
  lemma ActiveDirectoryPathfindingAt(i: nat)
    requires i < |ActiveDirectoryPathfindingEdges()|
    ensures ActiveDirectoryPathfindingPosition(i) < AD.Count && ActiveDirectoryPathfindingEdges()[i] == AD.FromOrdinal(ActiveDirectoryPathfindingPosition(i))
    ensures AD.Ordinal(ActiveDirectoryPathfindingEdges()[i]) == ActiveDirectoryPathfindingPosition(i)
  {
    ActiveDirectoryPathfindingAtFrom0();
    ActiveDirectoryPathfindingAtFrom8();
    ActiveDirectoryPathfindingAtFrom16();
    ActiveDirectoryPathfindingAtFrom24();
    AD.OrdinalFromOrdinal(ActiveDirectoryPathfindingPosition(i));
  }

  lemma ActiveDirectoryPathfindingAtFrom0()
    ensures forall i: nat :: 0 <= i < 8 ==> ActiveDirectoryPathfindingPosition(i) < AD.Count && ActiveDirectoryPathfindingEdges()[i] == AD.FromOrdinal(ActiveDirectoryPathfindingPosition(i))
  {
  }

  lemma ActiveDirectoryPathfindingAtFrom8()
    ensures forall i: nat :: 8 <= i < 16 ==> ActiveDirectoryPathfindingPosition(i) < AD.Count && ActiveDirectoryPathfindingEdges()[i] == AD.FromOrdinal(ActiveDirectoryPathfindingPosition(i))
  {
  }

  lemma ActiveDirectoryPathfindingAtFrom16()
    ensures forall i: nat :: 16 <= i < 24 ==> ActiveDirectoryPathfindingPosition(i) < AD.Count && ActiveDirectoryPathfindingEdges()[i] == AD.FromOrdinal(ActiveDirectoryPathfindingPosition(i))
  {
  }

  lemma ActiveDirectoryPathfindingAtFrom24()
    ensures forall i: nat :: 24 <= i < 31 ==> ActiveDirectoryPathfindingPosition(i) < AD.Count && ActiveDirectoryPathfindingEdges()[i] == AD.FromOrdinal(ActiveDirectoryPathfindingPosition(i))
  {
  }

  /** The non-traversable kinds are the ones declared at the positions the list
      steps over. */
  lemma ActiveDirectoryNonTraversablePositions(k: AD.Kind)
    ensures ActiveDirectoryNonTraversable(k) <==> AD.Ordinal(k) in {13, 14, 15, 32, 33, 34}
  {
    AD.FromOrdinalOrdinal(k);
  }

  /** Every traversable kind is listed. */
  lemma ActiveDirectoryPathfindingIncludes(k: AD.Kind)
    requires ActiveDirectoryTraversable(k)
    ensures k in ActiveDirectoryPathfindingEdges()
  {
    ActiveDirectoryNonTraversablePositions(k);
    var p := AD.Ordinal(k);
    var i := if p < 16 then p else if p < 35 then p - 3 else p - 6;
    ActiveDirectoryPathfindingAt(i);
    AD.FromOrdinalOrdinal(k);
    assert ActiveDirectoryPathfindingEdges()[i] == k;
  }

  /** A kind is listed exactly when it is traversable. */
  lemma ActiveDirectoryPathfindingMembers(k: AD.Kind)
    ensures k in ActiveDirectoryPathfindingEdges() <==> ActiveDirectoryTraversable(k)
  {
    if ActiveDirectoryTraversable(k) {
      ActiveDirectoryPathfindingIncludes(k);
    }
    if k in ActiveDirectoryPathfindingEdges() {
      var i :| 0 <= i < |ActiveDirectoryPathfindingEdges()| && ActiveDirectoryPathfindingEdges()[i] == k;
    }
  }

  /** The list follows declaration order. */
  lemma ActiveDirectoryPathfindingAscending()
    ensures Ascending(ActiveDirectoryPathfindingEdges(), AD.Ordinal)
  {
    forall i, j | 0 <= i < j < |ActiveDirectoryPathfindingEdges()|
      ensures AD.Ordinal(ActiveDirectoryPathfindingEdges()[i]) < AD.Ordinal(ActiveDirectoryPathfindingEdges()[j])
    {
      ActiveDirectoryPathfindingAt(i);
      ActiveDirectoryPathfindingAt(j);
    }
  }

  /** The list is the enumeration with the non-traversable kinds filtered out:
      31 of the 37 kinds, each once, in declaration order. */
  lemma ActiveDirectoryPathfindingIsFilter()
    ensures ActiveDirectoryPathfindingEdges() == Filter(AD.All, ActiveDirectoryTraversable)
    ensures |ActiveDirectoryPathfindingEdges()| == 31 && AD.Count == 37
    ensures Distinct(ActiveDirectoryPathfindingEdges())
  {
    var listed, filtered := ActiveDirectoryPathfindingEdges(), Filter(AD.All, ActiveDirectoryTraversable);
    forall i | 0 <= i < |AD.All|
      ensures AD.Ordinal(AD.All[i]) == i
    {
      AD.OrdinalAt(i);
    }
    AscendingByPosition(AD.All, AD.Ordinal);
    FilterAscending(AD.All, ActiveDirectoryTraversable, AD.Ordinal);
    ActiveDirectoryPathfindingAscending();
    FilterMembers(AD.All, ActiveDirectoryTraversable);
    forall k
      ensures k in listed <==> k in filtered
    {
      AD.AllAt(k);
      ActiveDirectoryPathfindingMembers(k);
    }
    AscendingUnique(listed, filtered, AD.Ordinal);
    AscendingDistinct(listed, AD.Ordinal);
  }

  /** `AzurePathfindingEdges` (graphSchema.ts lines 615-656): the Azure relationship kinds
      a path search may follow, in the order the source lists them. */
  function AzurePathfindingEdges(): (r: seq<AZ.Kind>)
    ensures |r| == 38 && forall i :: 0 <= i < |r| ==> AzureTraversable(r[i])
  {
    [
      AZ.AvereContributor,
      AZ.Contains,
      AZ.Contributor,
      AZ.GetCertificates,
      AZ.GetKeys,
      AZ.GetSecrets,
      AZ.HasRole,
      AZ.MemberOf,
      AZ.Owner,
      AZ.RunsAs,
      AZ.VMContributor,
      AZ.AutomationContributor,
      AZ.KeyVaultContributor,
      AZ.VMAdminLogin,
      AZ.AddMembers,
      AZ.AddSecret,
      AZ.ExecuteCommand,
      AZ.GlobalAdmin,
      AZ.PrivilegedAuthAdmin,
      AZ.Grant,
      AZ.GrantSelf,
      AZ.PrivilegedRoleAdmin,
      AZ.ResetPassword,
      AZ.UserAccessAdministrator,
      AZ.Owns,
      AZ.CloudAppAdmin,
      AZ.AppAdmin,
      AZ.AddOwner,
      AZ.ManagedIdentity,
      AZ.AKSContributor,
      AZ.NodeResourceGroup,
      AZ.WebsiteContributor,
      AZ.LogicAppContributor,
      AZ.AZMGAddMember,
      AZ.AZMGAddOwner,
      AZ.AZMGAddSecret,
      AZ.AZMGGrantAppRoles,
      AZ.AZMGGrantRole
    ]
  }

  /** The Azure relationship kinds the list leaves out: ScopedTo and the seven Microsoft Graph ..._ReadWrite_... permissions. */
  predicate AzureNonTraversable(k: AZ.Kind) {
    k in {AZ.ScopedTo, AZ.ApplicationReadWriteAll, AZ.AppRoleAssignmentReadWriteAll, AZ.DirectoryReadWriteAll, AZ.GroupReadWriteAll, AZ.GroupMemberReadWriteAll, AZ.RoleManagementReadWriteDirectory, AZ.ServicePrincipalEndpointReadWriteAll}
  }

  predicate AzureTraversable(k: AZ.Kind) {
    !AzureNonTraversable(k)
  }

  /** The declaration position of the kind listed at index `i`: the list runs
      through the enumeration and steps over each non-traversable kind. */
  function AzurePathfindingPosition(i: nat): nat {
    if i < 25 then i else if i < 29 then i + 1 else i + 8
  }

  /** The kind listed at index `i` is the one declared at AzurePathfindingPosition(i). */
  lemma AzurePathfindingAt(i: nat)
    requires i < |AzurePathfindingEdges()|
    ensures AzurePathfindingPosition(i) < AZ.Count && AzurePathfindingEdges()[i] == AZ.FromOrdinal(AzurePathfindingPosition(i))
    ensures AZ.Ordinal(AzurePathfindingEdges()[i]) == AzurePathfindingPosition(i)
  {
    AzurePathfindingAtFrom0();
    AzurePathfindingAtFrom8();
    AzurePathfindingAtFrom16();
    AzurePathfindingAtFrom24();
    AzurePathfindingAtFrom32();
    AZ.OrdinalFromOrdinal(AzurePathfindingPosition(i));
  }

  lemma AzurePathfindingAtFrom0()
    ensures forall i: nat :: 0 <= i < 8 ==> AzurePathfindingPosition(i) < AZ.Count && AzurePathfindingEdges()[i] == AZ.FromOrdinal(AzurePathfindingPosition(i))
  {
  }

  lemma AzurePathfindingAtFrom8()
    ensures forall i: nat :: 8 <= i < 16 ==> AzurePathfindingPosition(i) < AZ.Count && AzurePathfindingEdges()[i] == AZ.FromOrdinal(AzurePathfindingPosition(i))
  {
  }

  lemma AzurePathfindingAtFrom16()
    ensures forall i: nat :: 16 <= i < 24 ==> AzurePathfindingPosition(i) < AZ.Count && AzurePathfindingEdges()[i] == AZ.FromOrdinal(AzurePathfindingPosition(i))
  {
  }

  lemma AzurePathfindingAtFrom24()
    ensures forall i: nat :: 24 <= i < 32 ==> AzurePathfindingPosition(i) < AZ.Count && AzurePathfindingEdges()[i] == AZ.FromOrdinal(AzurePathfindingPosition(i))
  {
  }

  lemma AzurePathfindingAtFrom32()
    ensures forall i: nat :: 32 <= i < 38 ==> AzurePathfindingPosition(i) < AZ.Count && AzurePathfindingEdges()[i] == AZ.FromOrdinal(AzurePathfindingPosition(i))
  {
  }

  /** The non-traversable kinds are the ones declared at the positions the list
      steps over. */
  lemma AzureNonTraversablePositions(k: AZ.Kind)
    ensures AzureNonTraversable(k) <==> AZ.Ordinal(k) in {25, 30, 31, 32, 33, 34, 35, 36}
  {
    AZ.FromOrdinalOrdinal(k);
  }

  /** Every traversable kind is listed. */
  lemma AzurePathfindingIncludes(k: AZ.Kind)
    requires AzureTraversable(k)
    ensures k in AzurePathfindingEdges()
  {
    AzureNonTraversablePositions(k);
    var p := AZ.Ordinal(k);
    var i := if p < 26 then p else if p < 37 then p - 1 else p - 8;
    AzurePathfindingAt(i);
    AZ.FromOrdinalOrdinal(k);
    assert AzurePathfindingEdges()[i] == k;
  }

  /** A kind is listed exactly when it is traversable. */
  lemma AzurePathfindingMembers(k: AZ.Kind)
    ensures k in AzurePathfindingEdges() <==> AzureTraversable(k)
  {
    if AzureTraversable(k) {
      AzurePathfindingIncludes(k);
    }
    if k in AzurePathfindingEdges() {
      var i :| 0 <= i < |AzurePathfindingEdges()| && AzurePathfindingEdges()[i] == k;
    }
  }

  /** The list follows declaration order. */
  lemma AzurePathfindingAscending()
    ensures Ascending(AzurePathfindingEdges(), AZ.Ordinal)
  {
    forall i, j | 0 <= i < j < |AzurePathfindingEdges()|
      ensures AZ.Ordinal(AzurePathfindingEdges()[i]) < AZ.Ordinal(AzurePathfindingEdges()[j])
    {
      AzurePathfindingAt(i);
      AzurePathfindingAt(j);
    }
  }

  /** The list is the enumeration with the non-traversable kinds filtered out:
      38 of the 46 kinds, each once, in declaration order. */
  lemma AzurePathfindingIsFilter()
    ensures AzurePathfindingEdges() == Filter(AZ.All, AzureTraversable)
    ensures |AzurePathfindingEdges()| == 38 && AZ.Count == 46
    ensures Distinct(AzurePathfindingEdges())
  {
    var listed, filtered := AzurePathfindingEdges(), Filter(AZ.All, AzureTraversable);
    forall i | 0 <= i < |AZ.All|
      ensures AZ.Ordinal(AZ.All[i]) == i
    {
      AZ.OrdinalAt(i);
    }
    AscendingByPosition(AZ.All, AZ.Ordinal);
    FilterAscending(AZ.All, AzureTraversable, AZ.Ordinal);
    AzurePathfindingAscending();
    FilterMembers(AZ.All, AzureTraversable);
    forall k
      ensures k in listed <==> k in filtered
    {
      AZ.AllAt(k);
      AzurePathfindingMembers(k);
    }
    AscendingUnique(listed, filtered, AZ.Ordinal);
    AscendingDistinct(listed, AZ.Ordinal);
  }

  /** The two lists share no identifier, although they share labels (Owns). */
  lemma PathfindingEdgesDisjoint()
    ensures forall a, b :: a in ActiveDirectoryPathfindingEdges() && b in AzurePathfindingEdges() ==> AD.Id(a) != AZ.Id(b)
  {
    forall a, b | a in ActiveDirectoryPathfindingEdges() && b in AzurePathfindingEdges()
      ensures AD.Id(a) != AZ.Id(b)
    {
      GraphSchema.RelationshipIdsDisjoint(a, b);
    }
  }
}
