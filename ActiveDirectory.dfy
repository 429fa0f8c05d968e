/** Node kinds of the Active Directory domain: the `ActiveDirectoryNodeKind` enum (graphSchema.ts lines 17-28) and
    `ActiveDirectoryNodeKindToDisplay` (lines 29-54). */
module ActiveDirectoryNodeKind {
  import opened Wrappers

  /** One constructor per enum member, in declaration order. */
  datatype Kind =
      Entity
    | User
    | Computer
    | Group
    | GPO
    | OU
    | Container
    | Domain
    | LocalGroup
    | LocalUser

  /** The number of members. */
  const Count := 10

  // The string value of each member: the identifier data producers emit.
  const EntityId: string := "Base"
  const UserId: string := "User"
  const ComputerId: string := "Computer"
  const GroupId: string := "Group"
  const GPOId: string := "GPO"
  const OUId: string := "OU"
  const ContainerId: string := "Container"
  const DomainId: string := "Domain"
  const LocalGroupId: string := "ADLocalGroup"
  const LocalUserId: string := "ADLocalUser"

  /** The identifier (string value) of a member. */
  function Id(k: Kind): string {
    match k
    case Entity => EntityId
    case User => UserId
    case Computer => ComputerId
    case Group => GroupId
    case GPO => GPOId
    case OU => OUId
    case Container => ContainerId
    case Domain => DomainId
    case LocalGroup => LocalGroupId
    case LocalUser => LocalUserId
  }

  /** The position of a member in the declaration. */
  function Ordinal(k: Kind): (r: nat)
    ensures r < Count
  {
    match k
    case Entity => 0
    case User => 1
    case Computer => 2
    case Group => 3
    case GPO => 4
    case OU => 5
    case Container => 6
    case Domain => 7
    case LocalGroup => 8
    case LocalUser => 9
  }

  /** The member at a declaration position. */
  function FromOrdinal(i: nat): Kind
    requires i < Count
  {
    if i < 5 then
      (
        if i < 2 then
          (
            if i == 0 then Entity else User
          )
        else
          if i == 2 then Computer else if i == 3 then Group else GPO
      )
    else
      if i < 7 then
        (
          if i == 5 then OU else Container
        )
      else
        if i == 7 then Domain else if i == 8 then LocalGroup else LocalUser
  }

  /** Every member, in declaration order. */
  const All: seq<Kind> := seq(Count, i requires 0 <= i < Count => FromOrdinal(i))

  /** The label the display switch returns for a member. */
  function Label(k: Kind): string {
    match k
    case Entity => "Entity"
    case User => "User"
    case Computer => "Computer"
    case Group => "Group"
    case GPO => "GPO"
    case OU => "OU"
    case Container => "Container"
    case Domain => "Domain"
    case LocalGroup => "LocalGroup"
    case LocalUser => "LocalUser"
  }

  /** Parse, for the one member whose identifier has 2 characters. */
  function ParseLength2(s: string): (r: Option<Kind>)
    requires |s| == 2
    ensures r.Some? ==> Id(r.value) == s
  {
    if s == Id(OU) then Some(OU) else None
  }

  /** Parse, for the one member whose identifier has 3 characters. */
  function ParseLength3(s: string): (r: Option<Kind>)
    requires |s| == 3
    ensures r.Some? ==> Id(r.value) == s
  {
    if s == Id(GPO) then Some(GPO) else None
  }

  /** Parse, among the members whose identifier has 4 characters: single characters
      of `s` narrow the candidates to one, which is then compared in full. */
  function ParseLength4(s: string): (r: Option<Kind>)
    requires |s| == 4
    ensures r.Some? ==> Id(r.value) == s
  {
    if s[3] == 'e' then
      if s == Id(Entity) then Some(Entity) else None
    else if s[3] == 'r' then
      if s == Id(User) then Some(User) else None
    else None
  }

  /** Parse, for the one member whose identifier has 5 characters. */
  function ParseLength5(s: string): (r: Option<Kind>)
    requires |s| == 5
    ensures r.Some? ==> Id(r.value) == s
  {
    if s == Id(Group) then Some(Group) else None
  }

  /** Parse, for the one member whose identifier has 6 characters. */
  function ParseLength6(s: string): (r: Option<Kind>)
    requires |s| == 6
    ensures r.Some? ==> Id(r.value) == s
  {
    if s == Id(Domain) then Some(Domain) else None
  }

  /** Parse, for the one member whose identifier has 8 characters. */
  function ParseLength8(s: string): (r: Option<Kind>)
    requires |s| == 8
    ensures r.Some? ==> Id(r.value) == s
  {
    if s == Id(Computer) then Some(Computer) else None
  }

  /** Parse, for the one member whose identifier has 9 characters. */
  function ParseLength9(s: string): (r: Option<Kind>)
    requires |s| == 9
    ensures r.Some? ==> Id(r.value) == s
  {
    if s == Id(Container) then Some(Container) else None
  }

  /** Parse, for the one member whose identifier has 11 characters. */
  function ParseLength11(s: string): (r: Option<Kind>)
    requires |s| == 11
    ensures r.Some? ==> Id(r.value) == s
  {
    if s == Id(LocalUser) then Some(LocalUser) else None
  }

  /** Parse, for the one member whose identifier has 12 characters. */
  function ParseLength12(s: string): (r: Option<Kind>)
    requires |s| == 12
    ensures r.Some? ==> Id(r.value) == s
  {
    if s == Id(LocalGroup) then Some(LocalGroup) else None
  }

  /** The member whose identifier is exactly `s` (case-sensitive), if any. */
  function Parse(s: string): (r: Option<Kind>)
    ensures r.Some? ==> Id(r.value) == s
  {
    match |s|
    case 2 => ParseLength2(s)
    case 3 => ParseLength3(s)
    case 4 => ParseLength4(s)
    case 5 => ParseLength5(s)
    case 6 => ParseLength6(s)
    case 8 => ParseLength8(s)
    case 9 => ParseLength9(s)
    case 11 => ParseLength11(s)
    case 12 => ParseLength12(s)
    case _ => None
  }

  /** `ActiveDirectoryNodeKindToDisplay`: the label of the member whose identifier is `value`;
      None (the `default: return undefined` branch) for any other string. */
  function ToDisplay(value: string): (r: Option<string>)
    ensures r.Some? ==> exists k :: Id(k) == value && r.value == Label(k)
  {
    match Parse(value)
    case Some(k) => Some(Label(k))
    case None => None
  }

  /** Looking up a member's identifier gives back that member. */
  lemma ParseId(k: Kind)
    ensures Parse(Id(k)) == Some(k)
  {
    if Ordinal(k) < 8 {
      ParseIdFrom0(k);
    } else {
      ParseIdFrom8(k);
    }
  }

  /** ParseId for the members declared at positions 0 to 7. */
  lemma ParseIdFrom0(k: Kind)
    requires 0 <= Ordinal(k) < 8
    ensures Parse(Id(k)) == Some(k)
  {
    match k
    case Entity =>
    case User =>
    case Computer =>
    case Group =>
    case GPO =>
    case OU =>
    case Container =>
    case Domain =>
  }

  /** ParseId for the members declared at positions 8 to 9. */
  lemma ParseIdFrom8(k: Kind)
    requires 8 <= Ordinal(k)
    ensures Parse(Id(k)) == Some(k)
  {
    match k
    case LocalGroup =>
    case LocalUser =>
  }

  /** Identifiers are pairwise distinct. */
  lemma IdInjective(a: Kind, b: Kind)
    ensures Id(a) == Id(b) ==> a == b
  {
    ParseId(a);
    ParseId(b);
  }

  /** Parse is exactly the inverse of Id: it finds a member precisely when the
      string is that member's identifier. */
  lemma ParseIff(s: string, k: Kind)
    ensures Parse(s) == Some(k) <==> Id(k) == s
  {
    ParseId(k);
  }

  /** Every member has a defined label: the switch has a case for each of them. */
  lemma ToDisplayTotal(k: Kind)
    ensures ToDisplay(Id(k)) == Some(Label(k))
  {
    ParseId(k);
  }

  /** The switch falls through to `undefined` exactly for strings that are no
      member's identifier. */
  lemma ToDisplayUndefined(s: string)
    ensures ToDisplay(s) == None <==> forall k :: Id(k) != s
  {
    forall k: Kind | Id(k) == s
      ensures ToDisplay(s) != None
    {
      ParseId(k);
    }
  }

  /** Ordinal and FromOrdinal are mutually inverse. */
  lemma FromOrdinalOrdinal(k: Kind)
    ensures FromOrdinal(Ordinal(k)) == k
  {
    match k
    case Entity =>
    case User =>
    case Computer =>
    case Group =>
    case GPO =>
    case OU =>
    case Container =>
    case Domain =>
    case LocalGroup =>
    case LocalUser =>
  }

  lemma OrdinalFromOrdinal(i: nat)
    requires i < Count
    ensures Ordinal(FromOrdinal(i)) == i
  {
    match FromOrdinal(i)
    case Entity =>
    case User =>
    case Computer =>
    case Group =>
    case GPO =>
    case OU =>
    case Container =>
    case Domain =>
    case LocalGroup =>
    case LocalUser =>
  }

  /** `All` lists every member exactly once, at its declaration position. */
  lemma AllAt(k: Kind)
    ensures |All| == Count && All[Ordinal(k)] == k
  {
    FromOrdinalOrdinal(k);
  }

  lemma OrdinalAt(i: nat)
    requires i < |All|
    ensures Ordinal(All[i]) == i
  {
    OrdinalFromOrdinal(i);
  }
}

/** Relationship kinds of the Active Directory domain: the `ActiveDirectoryRelationshipKind` enum (graphSchema.ts lines 55-93) and
    `ActiveDirectoryRelationshipKindToDisplay` (lines 94-173). */
module ActiveDirectoryRelationshipKind {
  import opened Wrappers

  /** One constructor per enum member, in declaration order. */
  datatype Kind =
      Owns
    | GenericAll
    | GenericWrite
    | WriteOwner
    | WriteDACL
    | MemberOf
    | ForceChangePassword
    | AllExtendedRights
    | AddMember
    | HasSession
    | Contains
    | GPLink
    | AllowedToDelegate
    | GetChanges
    | GetChangesAll
    | GetChangesInFilteredSet
    | TrustedBy
    | AllowedToAct
    | AdminTo
    | CanPSRemote
    | CanRDP
    | ExecuteDCOM
    | HasSIDHistory
    | AddSelf
    | DCSync
    | ReadLAPSPassword
    | ReadGMSAPassword
    | DumpSMSAPassword
    | SQLAdmin
    | AddAllowedToAct
    | WriteSPN
    | AddKeyCredentialLink
    | LocalToComputer
    | MemberOfLocalGroup
    | RemoteInteractiveLogonPrivilege
    | SyncLAPSPassword
    | WriteAccountRestrictions

  /** The number of members. */
  const Count := 37

  // The string value of each member: the identifier data producers emit.
  const OwnsId: string := "Owns"
  const GenericAllId: string := "GenericAll"
  const GenericWriteId: string := "GenericWrite"
  const WriteOwnerId: string := "WriteOwner"
  const WriteDACLId: string := "WriteDacl"
  const MemberOfId: string := "MemberOf"
  const ForceChangePasswordId: string := "ForceChangePassword"
  const AllExtendedRightsId: string := "AllExtendedRights"
  const AddMemberId: string := "AddMember"
  const HasSessionId: string := "HasSession"
  const ContainsId: string := "Contains"
  const GPLinkId: string := "GPLink"
  const AllowedToDelegateId: string := "AllowedToDelegate"
  const GetChangesId: string := "GetChanges"
  const GetChangesAllId: string := "GetChangesAll"
  const GetChangesInFilteredSetId: string := "GetChangesInFilteredSet"
  const TrustedById: string := "TrustedBy"
  const AllowedToActId: string := "AllowedToAct"
  const AdminToId: string := "AdminTo"
  const CanPSRemoteId: string := "CanPSRemote"
  const CanRDPId: string := "CanRDP"
  const ExecuteDCOMId: string := "ExecuteDCOM"
  const HasSIDHistoryId: string := "HasSIDHistory"
  const AddSelfId: string := "AddSelf"
  const DCSyncId: string := "DCSync"
  const ReadLAPSPasswordId: string := "ReadLAPSPassword"
  const ReadGMSAPasswordId: string := "ReadGMSAPassword"
  const DumpSMSAPasswordId: string := "DumpSMSAPassword"
  const SQLAdminId: string := "SQLAdmin"
  const AddAllowedToActId: string := "AddAllowedToAct"
  const WriteSPNId: string := "WriteSPN"
  const AddKeyCredentialLinkId: string := "AddKeyCredentialLink"
  const LocalToComputerId: string := "LocalToComputer"
  const MemberOfLocalGroupId: string := "MemberOfLocalGroup"
  const RemoteInteractiveLogonPrivilegeId: string := "RemoteInteractiveLogonPrivilege"
  const SyncLAPSPasswordId: string := "SyncLAPSPassword"
  const WriteAccountRestrictionsId: string := "WriteAccountRestrictions"

  /** The identifier (string value) of a member. */
  function Id(k: Kind): string {
    match k
    case Owns => OwnsId
    case GenericAll => GenericAllId
    case GenericWrite => GenericWriteId
    case WriteOwner => WriteOwnerId
    case WriteDACL => WriteDACLId
    case MemberOf => MemberOfId
    case ForceChangePassword => ForceChangePasswordId
    case AllExtendedRights => AllExtendedRightsId
    case AddMember => AddMemberId
    case HasSession => HasSessionId
    case Contains => ContainsId
    case GPLink => GPLinkId
    case AllowedToDelegate => AllowedToDelegateId
    case GetChanges => GetChangesId
    case GetChangesAll => GetChangesAllId
    case GetChangesInFilteredSet => GetChangesInFilteredSetId
    case TrustedBy => TrustedById
    case AllowedToAct => AllowedToActId
    case AdminTo => AdminToId
    case CanPSRemote => CanPSRemoteId
    case CanRDP => CanRDPId
    case ExecuteDCOM => ExecuteDCOMId
    case HasSIDHistory => HasSIDHistoryId
    case AddSelf => AddSelfId
    case DCSync => DCSyncId
    case ReadLAPSPassword => ReadLAPSPasswordId
    case ReadGMSAPassword => ReadGMSAPasswordId
    case DumpSMSAPassword => DumpSMSAPasswordId
    case SQLAdmin => SQLAdminId
    case AddAllowedToAct => AddAllowedToActId
    case WriteSPN => WriteSPNId
    case AddKeyCredentialLink => AddKeyCredentialLinkId
    case LocalToComputer => LocalToComputerId
    case MemberOfLocalGroup => MemberOfLocalGroupId
    case RemoteInteractiveLogonPrivilege => RemoteInteractiveLogonPrivilegeId
    case SyncLAPSPassword => SyncLAPSPasswordId
    case WriteAccountRestrictions => WriteAccountRestrictionsId
  }

  /** The position of a member in the declaration. */
  function Ordinal(k: Kind): (r: nat)
    ensures r < Count
  {
    match k
    case Owns => 0
    case GenericAll => 1
    case GenericWrite => 2
    case WriteOwner => 3
    case WriteDACL => 4
    case MemberOf => 5
    case ForceChangePassword => 6
    case AllExtendedRights => 7
    case AddMember => 8
    case HasSession => 9
    case Contains => 10
    case GPLink => 11
    case AllowedToDelegate => 12
    case GetChanges => 13
    case GetChangesAll => 14
    case GetChangesInFilteredSet => 15
    case TrustedBy => 16
    case AllowedToAct => 17
    case AdminTo => 18
    case CanPSRemote => 19
    case CanRDP => 20
    case ExecuteDCOM => 21
    case HasSIDHistory => 22
    case AddSelf => 23
    case DCSync => 24
    case ReadLAPSPassword => 25
    case ReadGMSAPassword => 26
    case DumpSMSAPassword => 27
    case SQLAdmin => 28
    case AddAllowedToAct => 29
    case WriteSPN => 30
    case AddKeyCredentialLink => 31
    case LocalToComputer => 32
    case MemberOfLocalGroup => 33
    case RemoteInteractiveLogonPrivilege => 34
    case SyncLAPSPassword => 35
    case WriteAccountRestrictions => 36
  }

  /** The member at a declaration position. */
  function FromOrdinal(i: nat): Kind
    requires i < Count
  {
    if i < 18 then
      (
        if i < 9 then
          (
            if i < 4 then
              (
                if i < 2 then
                  (
                    if i == 0 then Owns else GenericAll
                  )
                else
                  if i == 2 then GenericWrite else WriteOwner
              )
            else
              if i < 6 then
                (
                  if i == 4 then WriteDACL else MemberOf
                )
              else
                if i == 6 then ForceChangePassword else if i == 7 then AllExtendedRights else AddMember
          )
        else
          if i < 13 then
            (
              if i < 11 then
                (
                  if i == 9 then HasSession else Contains
                )
              else
                if i == 11 then GPLink else AllowedToDelegate
            )
          else
            if i < 15 then
              (
                if i == 13 then GetChanges else GetChangesAll
              )
            else
              if i == 15 then GetChangesInFilteredSet else if i == 16 then TrustedBy else AllowedToAct
      )
    else
      if i < 27 then
        (
          if i < 22 then
            (
              if i < 20 then
                (
                  if i == 18 then AdminTo else CanPSRemote
                )
              else
                if i == 20 then CanRDP else ExecuteDCOM
            )
          else
            if i < 24 then
              (
                if i == 22 then HasSIDHistory else AddSelf
              )
            else
              if i == 24 then DCSync else if i == 25 then ReadLAPSPassword else ReadGMSAPassword
        )
      else
        if i < 32 then
          (
            if i < 29 then
              (
                if i == 27 then DumpSMSAPassword else SQLAdmin
              )
            else
              if i == 29 then AddAllowedToAct else if i == 30 then WriteSPN else AddKeyCredentialLink
          )
        else
          if i < 34 then
            (
              if i == 32 then LocalToComputer else MemberOfLocalGroup
            )
          else
            if i == 34 then RemoteInteractiveLogonPrivilege else if i == 35 then SyncLAPSPassword else WriteAccountRestrictions
  }

  /** Every member, in declaration order. */
  const All: seq<Kind> := seq(Count, i requires 0 <= i < Count => FromOrdinal(i))

  /** The label the display switch returns for a member. */
  function Label(k: Kind): string {
    match k
    case Owns => "Owns"
    case GenericAll => "GenericAll"
    case GenericWrite => "GenericWrite"
    case WriteOwner => "WriteOwner"
    case WriteDACL => "WriteDACL"
    case MemberOf => "MemberOf"
    case ForceChangePassword => "ForceChangePassword"
    case AllExtendedRights => "AllExtendedRights"
    case AddMember => "AddMember"
    case HasSession => "HasSession"
    case Contains => "Contains"
    case GPLink => "GPLink"
    case AllowedToDelegate => "AllowedToDelegate"
    case GetChanges => "GetChanges"
    case GetChangesAll => "GetChangesAll"
    case GetChangesInFilteredSet => "GetChangesInFilteredSet"
    case TrustedBy => "TrustedBy"
    case AllowedToAct => "AllowedToAct"
    case AdminTo => "AdminTo"
    case CanPSRemote => "CanPSRemote"
    case CanRDP => "CanRDP"
    case ExecuteDCOM => "ExecuteDCOM"
    case HasSIDHistory => "HasSIDHistory"
    case AddSelf => "AddSelf"
    case DCSync => "DCSync"
    case ReadLAPSPassword => "ReadLAPSPassword"
    case ReadGMSAPassword => "ReadGMSAPassword"
    case DumpSMSAPassword => "DumpSMSAPassword"
    case SQLAdmin => "SQLAdmin"
    case AddAllowedToAct => "AddAllowedToAct"
    case WriteSPN => "WriteSPN"
    case AddKeyCredentialLink => "AddKeyCredentialLink"
    case LocalToComputer => "LocalToComputer"
    case MemberOfLocalGroup => "MemberOfLocalGroup"
    case RemoteInteractiveLogonPrivilege => "RemoteInteractiveLogonPrivilege"
    case SyncLAPSPassword => "SyncLAPSPassword"
    case WriteAccountRestrictions => "WriteAccountRestrictions"
  }

  /** Parse, for the one member whose identifier has 4 characters. */
  function ParseLength4(s: string): (r: Option<Kind>)
    requires |s| == 4
    ensures r.Some? ==> Id(r.value) == s
  {
    if s == Id(Owns) then Some(Owns) else None
  }

  /** Parse, among the members whose identifier has 6 characters: single characters
      of `s` narrow the candidates to one, which is then compared in full. */
  function ParseLength6(s: string): (r: Option<Kind>)
    requires |s| == 6
    ensures r.Some? ==> Id(r.value) == s
  {
    if s[5] == 'k' then
      if s == Id(GPLink) then Some(GPLink) else None
    else if s[5] == 'P' then
      if s == Id(CanRDP) then Some(CanRDP) else None
    else if s[5] == 'c' then
      if s == Id(DCSync) then Some(DCSync) else None
    else None
  }

  /** Parse, among the members whose identifier has 7 characters: single characters
      of `s` narrow the candidates to one, which is then compared in full. */
  function ParseLength7(s: string): (r: Option<Kind>)
    requires |s| == 7
    ensures r.Some? ==> Id(r.value) == s
  {
    if s[6] == 'o' then
      if s == Id(AdminTo) then Some(AdminTo) else None
    else if s[6] == 'f' then
      if s == Id(AddSelf) then Some(AddSelf) else None
    else None
  }

  /** Parse, among the members whose identifier has 8 characters: single characters
      of `s` narrow the candidates to one, which is then compared in full. */
  function ParseLength8(s: string): (r: Option<Kind>)
    requires |s| == 8
    ensures r.Some? ==> Id(r.value) == s
  {
    if s[7] == 'f' then
      if s == Id(MemberOf) then Some(MemberOf) else None
    else if s[7] == 's' then
      if s == Id(Contains) then Some(Contains) else None
    else if s[7] == 'n' then
      if s == Id(SQLAdmin) then Some(SQLAdmin) else None
    else if s[7] == 'N' then
      if s == Id(WriteSPN) then Some(WriteSPN) else None
    else None
  }

  /** Parse, among the members whose identifier has 9 characters: single characters
      of `s` narrow the candidates to one, which is then compared in full. */
  function ParseLength9(s: string): (r: Option<Kind>)
    requires |s| == 9
    ensures r.Some? ==> Id(r.value) == s
  {
    if s[8] == 'l' then
      if s == Id(WriteDACL) then Some(WriteDACL) else None
    else if s[8] == 'r' then
      if s == Id(AddMember) then Some(AddMember) else None
    else if s[8] == 'y' then
      if s == Id(TrustedBy) then Some(TrustedBy) else None
    else None
  }

  /** Parse, among the members whose identifier has 10 characters: single characters
      of `s` narrow the candidates to one, which is then compared in full. */
  function ParseLength10(s: string): (r: Option<Kind>)
    requires |s| == 10
    ensures r.Some? ==> Id(r.value) == s
  {
    if s[9] == 'l' then
      if s == Id(GenericAll) then Some(GenericAll) else None
    else if s[9] == 'r' then
      if s == Id(WriteOwner) then Some(WriteOwner) else None
    else if s[9] == 'n' then
      if s == Id(HasSession) then Some(HasSession) else None
    else if s[9] == 's' then
      if s == Id(GetChanges) then Some(GetChanges) else None
    else None
  }

  /** Parse, among the members whose identifier has 11 characters: single characters
      of `s` narrow the candidates to one, which is then compared in full. */
  function ParseLength11(s: string): (r: Option<Kind>)
    requires |s| == 11
    ensures r.Some? ==> Id(r.value) == s
  {
    if s[10] == 'e' then
      if s == Id(CanPSRemote) then Some(CanPSRemote) else None
    else if s[10] == 'M' then
      if s == Id(ExecuteDCOM) then Some(ExecuteDCOM) else None
    else None
  }

  /** Parse, among the members whose identifier has 12 characters: single characters
      of `s` narrow the candidates to one, which is then compared in full. */
  function ParseLength12(s: string): (r: Option<Kind>)
    requires |s| == 12
    ensures r.Some? ==> Id(r.value) == s
  {
    if s[11] == 'e' then
      if s == Id(GenericWrite) then Some(GenericWrite) else None
    else if s[11] == 't' then
      if s == Id(AllowedToAct) then Some(AllowedToAct) else None
    else None
  }

  /** Parse, among the members whose identifier has 13 characters: single characters
      of `s` narrow the candidates to one, which is then compared in full. */
  function ParseLength13(s: string): (r: Option<Kind>)
    requires |s| == 13
    ensures r.Some? ==> Id(r.value) == s
  {
    if s[12] == 'l' then
      if s == Id(GetChangesAll) then Some(GetChangesAll) else None
    else if s[12] == 'y' then
      if s == Id(HasSIDHistory) then Some(HasSIDHistory) else None
    else None
  }

  /** Parse, among the members whose identifier has 15 characters: single characters
      of `s` narrow the candidates to one, which is then compared in full. */
  function ParseLength15(s: string): (r: Option<Kind>)
    requires |s| == 15
    ensures r.Some? ==> Id(r.value) == s
  {
    if s[14] == 't' then
      if s == Id(AddAllowedToAct) then Some(AddAllowedToAct) else None
    else if s[14] == 'r' then
      if s == Id(LocalToComputer) then Some(LocalToComputer) else None
    else None
  }

  /** Parse, among the members whose identifier has 16 characters: single characters
      of `s` narrow the candidates to one, which is then compared in full. */
  function ParseLength16(s: string): (r: Option<Kind>)
    requires |s| == 16
    ensures r.Some? ==> Id(r.value) == s
  {
    if s[4] == 'L' then
      (
        if s[3] == 'd' then
          if s == Id(ReadLAPSPassword) then Some(ReadLAPSPassword) else None
        else if s[3] == 'c' then
          if s == Id(SyncLAPSPassword) then Some(SyncLAPSPassword) else None
        else None
      )
    else if s[4] == 'G' then
      if s == Id(ReadGMSAPassword) then Some(ReadGMSAPassword) else None
    else if s[4] == 'S' then
      if s == Id(DumpSMSAPassword) then Some(DumpSMSAPassword) else None
    else None
  }

  /** Parse, among the members whose identifier has 17 characters: single characters
      of `s` narrow the candidates to one, which is then compared in full. */
  function ParseLength17(s: string): (r: Option<Kind>)
    requires |s| == 17
    ensures r.Some? ==> Id(r.value) == s
  {
    if s[16] == 's' then
      if s == Id(AllExtendedRights) then Some(AllExtendedRights) else None
    else if s[16] == 'e' then
      if s == Id(AllowedToDelegate) then Some(AllowedToDelegate) else None
    else None
  }

  /** Parse, for the one member whose identifier has 18 characters. */
  function ParseLength18(s: string): (r: Option<Kind>)
    requires |s| == 18
    ensures r.Some? ==> Id(r.value) == s
  {
    if s == Id(MemberOfLocalGroup) then Some(MemberOfLocalGroup) else None
  }

  /** Parse, for the one member whose identifier has 19 characters. */
  function ParseLength19(s: string): (r: Option<Kind>)
    requires |s| == 19
    ensures r.Some? ==> Id(r.value) == s
  {
    if s == Id(ForceChangePassword) then Some(ForceChangePassword) else None
  }

  /** Parse, for the one member whose identifier has 20 characters. */
  function ParseLength20(s: string): (r: Option<Kind>)
    requires |s| == 20
    ensures r.Some? ==> Id(r.value) == s
  {
    if s == Id(AddKeyCredentialLink) then Some(AddKeyCredentialLink) else None
  }

  /** Parse, for the one member whose identifier has 23 characters. */
  function ParseLength23(s: string): (r: Option<Kind>)
    requires |s| == 23
    ensures r.Some? ==> Id(r.value) == s
  {
    if s == Id(GetChangesInFilteredSet) then Some(GetChangesInFilteredSet) else None
  }

  /** Parse, for the one member whose identifier has 24 characters. */
  function ParseLength24(s: string): (r: Option<Kind>)
    requires |s| == 24
    ensures r.Some? ==> Id(r.value) == s
  {
    if s == Id(WriteAccountRestrictions) then Some(WriteAccountRestrictions) else None
  }

  /** Parse, for the one member whose identifier has 31 characters. */
  function ParseLength31(s: string): (r: Option<Kind>)
    requires |s| == 31
    ensures r.Some? ==> Id(r.value) == s
  {
    if s == Id(RemoteInteractiveLogonPrivilege) then Some(RemoteInteractiveLogonPrivilege) else None
  }

  /** The member whose identifier is exactly `s` (case-sensitive), if any. */
  function Parse(s: string): (r: Option<Kind>)
    ensures r.Some? ==> Id(r.value) == s
  {
    match |s|
    case 4 => ParseLength4(s)
    case 6 => ParseLength6(s)
    case 7 => ParseLength7(s)
    case 8 => ParseLength8(s)
    case 9 => ParseLength9(s)
    case 10 => ParseLength10(s)
    case 11 => ParseLength11(s)
    case 12 => ParseLength12(s)
    case 13 => ParseLength13(s)
    case 15 => ParseLength15(s)
    case 16 => ParseLength16(s)
    case 17 => ParseLength17(s)
    case 18 => ParseLength18(s)
    case 19 => ParseLength19(s)
    case 20 => ParseLength20(s)
    case 23 => ParseLength23(s)
    case 24 => ParseLength24(s)
    case 31 => ParseLength31(s)
    case _ => None
  }

  /** `ActiveDirectoryRelationshipKindToDisplay`: the label of the member whose identifier is `value`;
      None (the `default: return undefined` branch) for any other string. */
  function ToDisplay(value: string): (r: Option<string>)
    ensures r.Some? ==> exists k :: Id(k) == value && r.value == Label(k)
  {
    match Parse(value)
    case Some(k) => Some(Label(k))
    case None => None
  }

  /** Looking up a member's identifier gives back that member. */
  lemma ParseId(k: Kind)
    ensures Parse(Id(k)) == Some(k)
  {
    if Ordinal(k) < 8 {
      ParseIdFrom0(k);
    } else if Ordinal(k) < 16 {
      ParseIdFrom8(k);
    } else if Ordinal(k) < 24 {
      ParseIdFrom16(k);
    } else if Ordinal(k) < 32 {
      ParseIdFrom24(k);
    } else {
      ParseIdFrom32(k);
    }
  }

  /** ParseId for the members declared at positions 0 to 7. */
  lemma ParseIdFrom0(k: Kind)
    requires 0 <= Ordinal(k) < 8
    ensures Parse(Id(k)) == Some(k)
  {
    match k
    case Owns =>
    case GenericAll =>
    case GenericWrite =>
    case WriteOwner =>
    case WriteDACL =>
    case MemberOf =>
    case ForceChangePassword =>
    case AllExtendedRights =>
  }

  /** ParseId for the members declared at positions 8 to 15. */
  lemma ParseIdFrom8(k: Kind)
    requires 8 <= Ordinal(k) < 16
    ensures Parse(Id(k)) == Some(k)
  {
    match k
    case AddMember =>
    case HasSession =>
    case Contains =>
    case GPLink =>
    case AllowedToDelegate =>
    case GetChanges =>
    case GetChangesAll =>
    case GetChangesInFilteredSet =>
  }

  /** ParseId for the members declared at positions 16 to 23. */
  lemma ParseIdFrom16(k: Kind)
    requires 16 <= Ordinal(k) < 24
    ensures Parse(Id(k)) == Some(k)
  {
    match k
    case TrustedBy =>
    case AllowedToAct =>
    case AdminTo =>
    case CanPSRemote =>
    case CanRDP =>
    case ExecuteDCOM =>
    case HasSIDHistory =>
    case AddSelf =>
  }

  /** ParseId for the members declared at positions 24 to 31. */
  lemma ParseIdFrom24(k: Kind)
    requires 24 <= Ordinal(k) < 32
    ensures Parse(Id(k)) == Some(k)
  {
    match k
    case DCSync =>
    case ReadLAPSPassword =>
    case ReadGMSAPassword =>
    case DumpSMSAPassword =>
    case SQLAdmin =>
    case AddAllowedToAct =>
    case WriteSPN =>
    case AddKeyCredentialLink =>
  }

  /** ParseId for the members declared at positions 32 to 36. */
  lemma ParseIdFrom32(k: Kind)
    requires 32 <= Ordinal(k)
    ensures Parse(Id(k)) == Some(k)
  {
    match k
    case LocalToComputer =>
    case MemberOfLocalGroup =>
    case RemoteInteractiveLogonPrivilege =>
    case SyncLAPSPassword =>
    case WriteAccountRestrictions =>
  }

  /** Identifiers are pairwise distinct. */
  lemma IdInjective(a: Kind, b: Kind)
    ensures Id(a) == Id(b) ==> a == b
  {
    ParseId(a);
    ParseId(b);
  }

  /** Parse is exactly the inverse of Id: it finds a member precisely when the
      string is that member's identifier. */
  lemma ParseIff(s: string, k: Kind)
    ensures Parse(s) == Some(k) <==> Id(k) == s
  {
    ParseId(k);
  }

  /** Every member has a defined label: the switch has a case for each of them. */
  lemma ToDisplayTotal(k: Kind)
    ensures ToDisplay(Id(k)) == Some(Label(k))
  {
    ParseId(k);
  }

  /** The switch falls through to `undefined` exactly for strings that are no
      member's identifier. */
  lemma ToDisplayUndefined(s: string)
    ensures ToDisplay(s) == None <==> forall k :: Id(k) != s
  {
    forall k: Kind | Id(k) == s
      ensures ToDisplay(s) != None
    {
      ParseId(k);
    }
  }

  /** Ordinal and FromOrdinal are mutually inverse. */
  lemma FromOrdinalOrdinal(k: Kind)
    ensures FromOrdinal(Ordinal(k)) == k
  {
    match k
    case Owns =>
    case GenericAll =>
    case GenericWrite =>
    case WriteOwner =>
    case WriteDACL =>
    case MemberOf =>
    case ForceChangePassword =>
    case AllExtendedRights =>
    case AddMember =>
    case HasSession =>
    case Contains =>
    case GPLink =>
    case AllowedToDelegate =>
    case GetChanges =>
    case GetChangesAll =>
    case GetChangesInFilteredSet =>
    case TrustedBy =>
    case AllowedToAct =>
    case AdminTo =>
    case CanPSRemote =>
    case CanRDP =>
    case ExecuteDCOM =>
    case HasSIDHistory =>
    case AddSelf =>
    case DCSync =>
    case ReadLAPSPassword =>
    case ReadGMSAPassword =>
    case DumpSMSAPassword =>
    case SQLAdmin =>
    case AddAllowedToAct =>
    case WriteSPN =>
    case AddKeyCredentialLink =>
    case LocalToComputer =>
    case MemberOfLocalGroup =>
    case RemoteInteractiveLogonPrivilege =>
    case SyncLAPSPassword =>
    case WriteAccountRestrictions =>
  }

  lemma OrdinalFromOrdinal(i: nat)
    requires i < Count
    ensures Ordinal(FromOrdinal(i)) == i
  {
    match FromOrdinal(i)
    case Owns =>
    case GenericAll =>
    case GenericWrite =>
    case WriteOwner =>
    case WriteDACL =>
    case MemberOf =>
    case ForceChangePassword =>
    case AllExtendedRights =>
    case AddMember =>
    case HasSession =>
    case Contains =>
    case GPLink =>
    case AllowedToDelegate =>
    case GetChanges =>
    case GetChangesAll =>
    case GetChangesInFilteredSet =>
    case TrustedBy =>
    case AllowedToAct =>
    case AdminTo =>
    case CanPSRemote =>
    case CanRDP =>
    case ExecuteDCOM =>
    case HasSIDHistory =>
    case AddSelf =>
    case DCSync =>
    case ReadLAPSPassword =>
    case ReadGMSAPassword =>
    case DumpSMSAPassword =>
    case SQLAdmin =>
    case AddAllowedToAct =>
    case WriteSPN =>
    case AddKeyCredentialLink =>
    case LocalToComputer =>
    case MemberOfLocalGroup =>
    case RemoteInteractiveLogonPrivilege =>
    case SyncLAPSPassword =>
    case WriteAccountRestrictions =>
  }

  /** `All` lists every member exactly once, at its declaration position. */
  lemma AllAt(k: Kind)
    ensures |All| == Count && All[Ordinal(k)] == k
  {
    FromOrdinalOrdinal(k);
  }

  lemma OrdinalAt(i: nat)
    requires i < |All|
    ensures Ordinal(All[i]) == i
  {
    OrdinalFromOrdinal(i);
  }
}

/** Well-known property keys of the Active Directory domain: the `ActiveDirectoryKindProperties` enum (graphSchema.ts lines 175-203) and
    `ActiveDirectoryKindPropertiesToDisplay` (lines 204-263). */
module ActiveDirectoryKindProperties {
  import opened Wrappers

  /** One constructor per enum member, in declaration order. */
  datatype Property =
      AdminCount
    | DistinguishedName
    | DomainFQDN
    | DomainSID
    | Sensitive
    | HighValue
    | BlocksInheritance
    | IsACL
    | IsACLProtected
    | Enforced
    | Department
    | HasSPN
    | UnconstrainedDelegation
    | LastLogon
    | LastLogonTimestamp
    | IsPrimaryGroup
    | HasLAPS
    | DontRequirePreAuth
    | LogonType
    | HasURA
    | PasswordNeverExpires
    | PasswordNotRequired
    | FunctionalLevel
    | TrustType
    | SidFiltering
    | TrustedToAuth
    | SamAccountName

  /** The number of members. */
  const Count := 27

  // The string value of each member: the identifier data producers emit.
  const AdminCountId: string := "admincount"
  const DistinguishedNameId: string := "distinguishedname"
  const DomainFQDNId: string := "domain"
  const DomainSIDId: string := "domainsid"
  const SensitiveId: string := "sensitive"
  const HighValueId: string := "highvalue"
  const BlocksInheritanceId: string := "blocksinheritance"
  const IsACLId: string := "isacl"
  const IsACLProtectedId: string := "isaclprotected"
  const EnforcedId: string := "enforced"
  const DepartmentId: string := "department"
  const HasSPNId: string := "hasspn"
  const UnconstrainedDelegationId: string := "unconstraineddelegation"
  const LastLogonId: string := "lastlogon"
  const LastLogonTimestampId: string := "lastlogontimestamp"
  const IsPrimaryGroupId: string := "isprimarygroup"
  const HasLAPSId: string := "haslaps"
  const DontRequirePreAuthId: string := "dontreqpreauth"
  const LogonTypeId: string := "logontype"
  const HasURAId: string := "hasura"
  const PasswordNeverExpiresId: string := "pwdneverexpires"
  const PasswordNotRequiredId: string := "passwordnotreqd"
  const FunctionalLevelId: string := "functionallevel"
  const TrustTypeId: string := "trusttype"
  const SidFilteringId: string := "sidfiltering"
  const TrustedToAuthId: string := "trustedtoauth"
  const SamAccountNameId: string := "samaccountname"

  /** The identifier (string value) of a member. */
  function Id(k: Property): string {
    match k
    case AdminCount => AdminCountId
    case DistinguishedName => DistinguishedNameId
    case DomainFQDN => DomainFQDNId
    case DomainSID => DomainSIDId
    case Sensitive => SensitiveId
    case HighValue => HighValueId
    case BlocksInheritance => BlocksInheritanceId
    case IsACL => IsACLId
    case IsACLProtected => IsACLProtectedId
    case Enforced => EnforcedId
    case Department => DepartmentId
    case HasSPN => HasSPNId
    case UnconstrainedDelegation => UnconstrainedDelegationId
    case LastLogon => LastLogonId
    case LastLogonTimestamp => LastLogonTimestampId
    case IsPrimaryGroup => IsPrimaryGroupId
    case HasLAPS => HasLAPSId
    case DontRequirePreAuth => DontRequirePreAuthId
    case LogonType => LogonTypeId
    case HasURA => HasURAId
    case PasswordNeverExpires => PasswordNeverExpiresId
    case PasswordNotRequired => PasswordNotRequiredId
    case FunctionalLevel => FunctionalLevelId
    case TrustType => TrustTypeId
    case SidFiltering => SidFilteringId
    case TrustedToAuth => TrustedToAuthId
    case SamAccountName => SamAccountNameId
  }

  /** The position of a member in the declaration. */
  function Ordinal(k: Property): (r: nat)
    ensures r < Count
  {
    match k
    case AdminCount => 0
    case DistinguishedName => 1
    case DomainFQDN => 2
    case DomainSID => 3
    case Sensitive => 4
    case HighValue => 5
    case BlocksInheritance => 6
    case IsACL => 7
    case IsACLProtected => 8
    case Enforced => 9
    case Department => 10
    case HasSPN => 11
    case UnconstrainedDelegation => 12
    case LastLogon => 13
    case LastLogonTimestamp => 14
    case IsPrimaryGroup => 15
    case HasLAPS => 16
    case DontRequirePreAuth => 17
    case LogonType => 18
    case HasURA => 19
    case PasswordNeverExpires => 20
    case PasswordNotRequired => 21
    case FunctionalLevel => 22
    case TrustType => 23
    case SidFiltering => 24
    case TrustedToAuth => 25
    case SamAccountName => 26
  }

  /** The member at a declaration position. */
  function FromOrdinal(i: nat): Property
    requires i < Count
  {
    if i < 13 then
      (
        if i < 6 then
          (
            if i < 3 then
              (
                if i == 0 then AdminCount else if i == 1 then DistinguishedName else DomainFQDN
              )
            else
              if i == 3 then DomainSID else if i == 4 then Sensitive else HighValue
          )
        else
          if i < 9 then
            (
              if i == 6 then BlocksInheritance else if i == 7 then IsACL else IsACLProtected
            )
          else
            if i < 11 then
              (
                if i == 9 then Enforced else Department
              )
            else
              if i == 11 then HasSPN else UnconstrainedDelegation
      )
    else
      if i < 20 then
        (
          if i < 16 then
            (
              if i == 13 then LastLogon else if i == 14 then LastLogonTimestamp else IsPrimaryGroup
            )
          else
            if i < 18 then
              (
                if i == 16 then HasLAPS else DontRequirePreAuth
              )
            else
              if i == 18 then LogonType else HasURA
        )
      else
        if i < 23 then
          (
            if i == 20 then PasswordNeverExpires else if i == 21 then PasswordNotRequired else FunctionalLevel
          )
        else
          if i < 25 then
            (
              if i == 23 then TrustType else SidFiltering
            )
          else
            if i == 25 then TrustedToAuth else SamAccountName
  }

  /** Every member, in declaration order. */
  const All: seq<Property> := seq(Count, i requires 0 <= i < Count => FromOrdinal(i))

  /** The label the display switch returns for a member. */
  function Label(k: Property): string {
    match k
    case AdminCount => "Admin Count"
    case DistinguishedName => "Distinguished Name"
    case DomainFQDN => "Domain FQDN"
    case DomainSID => "Domain SID"
    case Sensitive => "Marked sensitive"
    case HighValue => "High Value"
    case BlocksInheritance => "Blocks Inheritance"
    case IsACL => "Is ACL"
    case IsACLProtected => "ACL Inheritance Denied"
    case Enforced => "Enforced"
    case Department => "Department"
    case HasSPN => "Has SPN"
    case UnconstrainedDelegation => "Allows Unconstrained Delegation"
    case LastLogon => "Last Logon"
    case LastLogonTimestamp => "Last Logon (Replicated)"
    case IsPrimaryGroup => "Is Primary Group"
    case HasLAPS => "LAPS Enabled"
    case DontRequirePreAuth => "Do Not Require Pre-Authentication"
    case LogonType => "Logon Type"
    case HasURA => "Has User Rights Assignment Collection"
    case PasswordNeverExpires => "Password Never Expires"
    case PasswordNotRequired => "Password Not Required"
    case FunctionalLevel => "Functional Level"
    case TrustType => "Trust Type"
    case SidFiltering => "SID Filtering Enabled"
    case TrustedToAuth => "Trusted For Constrained Delegation"
    case SamAccountName => "SAM Account Name"
  }

  /** Parse, for the one member whose identifier has 5 characters. */
  function ParseLength5(s: string): (r: Option<Property>)
    requires |s| == 5
    ensures r.Some? ==> Id(r.value) == s
  {
    if s == Id(IsACL) then Some(IsACL) else None
  }

  /** Parse, among the members whose identifier has 6 characters: single characters
      of `s` narrow the candidates to one, which is then compared in full. */
  function ParseLength6(s: string): (r: Option<Property>)
    requires |s| == 6
    ensures r.Some? ==> Id(r.value) == s
  {
    if s[4] == 'i' then
      if s == Id(DomainFQDN) then Some(DomainFQDN) else None
    else if s[4] == 'p' then
      if s == Id(HasSPN) then Some(HasSPN) else None
    else if s[4] == 'r' then
      if s == Id(HasURA) then Some(HasURA) else None
    else None
  }

  /** Parse, for the one member whose identifier has 7 characters. */
  function ParseLength7(s: string): (r: Option<Property>)
    requires |s| == 7
    ensures r.Some? ==> Id(r.value) == s
  {
    if s == Id(HasLAPS) then Some(HasLAPS) else None
  }

  /** Parse, for the one member whose identifier has 8 characters. */
  function ParseLength8(s: string): (r: Option<Property>)
    requires |s| == 8
    ensures r.Some? ==> Id(r.value) == s
  {
    if s == Id(Enforced) then Some(Enforced) else None
  }

  /** Parse, among the members whose identifier has 9 characters: single characters
      of `s` narrow the candidates to one, which is then compared in full. */
  function ParseLength9(s: string): (r: Option<Property>)
    requires |s| == 9
    ensures r.Some? ==> Id(r.value) == s
  {
    if s[7] == 'i' then
      if s == Id(DomainSID) then Some(DomainSID) else None
    else if s[7] == 'v' then
      if s == Id(Sensitive) then Some(Sensitive) else None
    else if s[7] == 'u' then
      if s == Id(HighValue) then Some(HighValue) else None
    else if s[7] == 'o' then
      if s == Id(LastLogon) then Some(LastLogon) else None
    else if s[7] == 'p' then
      (
        if s[4] == 'n' then
          if s == Id(LogonType) then Some(LogonType) else None
        else if s[4] == 't' then
          if s == Id(TrustType) then Some(TrustType) else None
        else None
      )
    else None
  }

  /** Parse, among the members whose identifier has 10 characters: single characters
      of `s` narrow the candidates to one, which is then compared in full. */
  function ParseLength10(s: string): (r: Option<Property>)
    requires |s| == 10
    ensures r.Some? ==> Id(r.value) == s
  {
    if s[7] == 'u' then
      if s == Id(AdminCount) then Some(AdminCount) else None
    else if s[7] == 'e' then
      if s == Id(Department) then Some(Department) else None
    else None
  }

  /** Parse, for the one member whose identifier has 12 characters. */
  function ParseLength12(s: string): (r: Option<Property>)
    requires |s| == 12
    ensures r.Some? ==> Id(r.value) == s
  {
    if s == Id(SidFiltering) then Some(SidFiltering) else None
  }

  /** Parse, for the one member whose identifier has 13 characters. */
  function ParseLength13(s: string): (r: Option<Property>)
    requires |s| == 13
    ensures r.Some? ==> Id(r.value) == s
  {
    if s == Id(TrustedToAuth) then Some(TrustedToAuth) else None
  }

  /** Parse, among the members whose identifier has 14 characters: single characters
      of `s` narrow the candidates to one, which is then compared in full. */
  function ParseLength14(s: string): (r: Option<Property>)
    requires |s| == 14
    ensures r.Some? ==> Id(r.value) == s
  {
    if s[13] == 'd' then
      if s == Id(IsACLProtected) then Some(IsACLProtected) else None
    else if s[13] == 'p' then
      if s == Id(IsPrimaryGroup) then Some(IsPrimaryGroup) else None
    else if s[13] == 'h' then
      if s == Id(DontRequirePreAuth) then Some(DontRequirePreAuth) else None
    else if s[13] == 'e' then
      if s == Id(SamAccountName) then Some(SamAccountName) else None
    else None
  }

  /** Parse, among the members whose identifier has 15 characters: single characters
      of `s` narrow the candidates to one, which is then compared in full. */
  function ParseLength15(s: string): (r: Option<Property>)
    requires |s| == 15
    ensures r.Some? ==> Id(r.value) == s
  {
    if s[14] == 's' then
      if s == Id(PasswordNeverExpires) then Some(PasswordNeverExpires) else None
    else if s[14] == 'd' then
      if s == Id(PasswordNotRequired) then Some(PasswordNotRequired) else None
    else if s[14] == 'l' then
      if s == Id(FunctionalLevel) then Some(FunctionalLevel) else None
    else None
  }

  /** Parse, among the members whose identifier has 17 characters: single characters
      of `s` narrow the candidates to one, which is then compared in full. */
  function ParseLength17(s: string): (r: Option<Property>)
    requires |s| == 17
    ensures r.Some? ==> Id(r.value) == s
  {
    if s[15] == 'm' then
      if s == Id(DistinguishedName) then Some(DistinguishedName) else None
    else if s[15] == 'c' then
      if s == Id(BlocksInheritance) then Some(BlocksInheritance) else None
    else None
  }

  /** Parse, for the one member whose identifier has 18 characters. */
  function ParseLength18(s: string): (r: Option<Property>)
    requires |s| == 18
    ensures r.Some? ==> Id(r.value) == s
  {
    if s == Id(LastLogonTimestamp) then Some(LastLogonTimestamp) else None
  }

  /** Parse, for the one member whose identifier has 23 characters. */
  function ParseLength23(s: string): (r: Option<Property>)
    requires |s| == 23
    ensures r.Some? ==> Id(r.value) == s
  {
    if s == Id(UnconstrainedDelegation) then Some(UnconstrainedDelegation) else None
  }

  /** The member whose identifier is exactly `s` (case-sensitive), if any. */
  function Parse(s: string): (r: Option<Property>)
    ensures r.Some? ==> Id(r.value) == s
  {
    match |s|
    case 5 => ParseLength5(s)
    case 6 => ParseLength6(s)
    case 7 => ParseLength7(s)
    case 8 => ParseLength8(s)
    case 9 => ParseLength9(s)
    case 10 => ParseLength10(s)
    case 12 => ParseLength12(s)
    case 13 => ParseLength13(s)
    case 14 => ParseLength14(s)
    case 15 => ParseLength15(s)
    case 17 => ParseLength17(s)
    case 18 => ParseLength18(s)
    case 23 => ParseLength23(s)
    case _ => None
  }

  /** `ActiveDirectoryKindPropertiesToDisplay`: the label of the member whose identifier is `value`;
      None (the `default: return undefined` branch) for any other string. */
  function ToDisplay(value: string): (r: Option<string>)
    ensures r.Some? ==> exists k :: Id(k) == value && r.value == Label(k)
  {
    match Parse(value)
    case Some(k) => Some(Label(k))
    case None => None
  }

  /** Looking up a member's identifier gives back that member. */
  lemma ParseId(k: Property)
    ensures Parse(Id(k)) == Some(k)
  {
    if Ordinal(k) < 8 {
      ParseIdFrom0(k);
    } else if Ordinal(k) < 16 {
      ParseIdFrom8(k);
    } else if Ordinal(k) < 24 {
      ParseIdFrom16(k);
    } else {
      ParseIdFrom24(k);
    }
  }

  /** ParseId for the members declared at positions 0 to 7. */
  lemma ParseIdFrom0(k: Property)
    requires 0 <= Ordinal(k) < 8
    ensures Parse(Id(k)) == Some(k)
  {
    match k
    case AdminCount =>
    case DistinguishedName =>
    case DomainFQDN =>
    case DomainSID =>
    case Sensitive =>
    case HighValue =>
    case BlocksInheritance =>
    case IsACL =>
  }

  /** ParseId for the members declared at positions 8 to 15. */
  lemma ParseIdFrom8(k: Property)
    requires 8 <= Ordinal(k) < 16
    ensures Parse(Id(k)) == Some(k)
  {
    match k
    case IsACLProtected =>
    case Enforced =>
    case Department =>
    case HasSPN =>
    case UnconstrainedDelegation =>
    case LastLogon =>
    case LastLogonTimestamp =>
    case IsPrimaryGroup =>
  }

  /** ParseId for the members declared at positions 16 to 23. */
  lemma ParseIdFrom16(k: Property)
    requires 16 <= Ordinal(k) < 24
    ensures Parse(Id(k)) == Some(k)
  {
    match k
    case HasLAPS =>
    case DontRequirePreAuth =>
    case LogonType =>
    case HasURA =>
    case PasswordNeverExpires =>
    case PasswordNotRequired =>
    case FunctionalLevel =>
    case TrustType =>
  }

  /** ParseId for the members declared at positions 24 to 26. */
  lemma ParseIdFrom24(k: Property)
    requires 24 <= Ordinal(k)
    ensures Parse(Id(k)) == Some(k)
  {
    match k
    case SidFiltering =>
    case TrustedToAuth =>
    case SamAccountName =>
  }

  /** Identifiers are pairwise distinct. */
  lemma IdInjective(a: Property, b: Property)
    ensures Id(a) == Id(b) ==> a == b
  {
    ParseId(a);
    ParseId(b);
  }

  /** Parse is exactly the inverse of Id: it finds a member precisely when the
      string is that member's identifier. */
  lemma ParseIff(s: string, k: Property)
    ensures Parse(s) == Some(k) <==> Id(k) == s
  {
    ParseId(k);
  }

  /** Every member has a defined label: the switch has a case for each of them. */
  lemma ToDisplayTotal(k: Property)
    ensures ToDisplay(Id(k)) == Some(Label(k))
  {
    ParseId(k);
  }

  /** The switch falls through to `undefined` exactly for strings that are no
      member's identifier. */
  lemma ToDisplayUndefined(s: string)
    ensures ToDisplay(s) == None <==> forall k :: Id(k) != s
  {
    forall k: Property | Id(k) == s
      ensures ToDisplay(s) != None
    {
      ParseId(k);
    }
  }

  /** Ordinal and FromOrdinal are mutually inverse. */
  lemma FromOrdinalOrdinal(k: Property)
    ensures FromOrdinal(Ordinal(k)) == k
  {
    match k
    case AdminCount =>
    case DistinguishedName =>
    case DomainFQDN =>
    case DomainSID =>
    case Sensitive =>
    case HighValue =>
    case BlocksInheritance =>
    case IsACL =>
    case IsACLProtected =>
    case Enforced =>
    case Department =>
    case HasSPN =>
    case UnconstrainedDelegation =>
    case LastLogon =>
    case LastLogonTimestamp =>
    case IsPrimaryGroup =>
    case HasLAPS =>
    case DontRequirePreAuth =>
    case LogonType =>
    case HasURA =>
    case PasswordNeverExpires =>
    case PasswordNotRequired =>
    case FunctionalLevel =>
    case TrustType =>
    case SidFiltering =>
    case TrustedToAuth =>
    case SamAccountName =>
  }

  lemma OrdinalFromOrdinal(i: nat)
    requires i < Count
    ensures Ordinal(FromOrdinal(i)) == i
  {
    match FromOrdinal(i)
    case AdminCount =>
    case DistinguishedName =>
    case DomainFQDN =>
    case DomainSID =>
    case Sensitive =>
    case HighValue =>
    case BlocksInheritance =>
    case IsACL =>
    case IsACLProtected =>
    case Enforced =>
    case Department =>
    case HasSPN =>
    case UnconstrainedDelegation =>
    case LastLogon =>
    case LastLogonTimestamp =>
    case IsPrimaryGroup =>
    case HasLAPS =>
    case DontRequirePreAuth =>
    case LogonType =>
    case HasURA =>
    case PasswordNeverExpires =>
    case PasswordNotRequired =>
    case FunctionalLevel =>
    case TrustType =>
    case SidFiltering =>
    case TrustedToAuth =>
    case SamAccountName =>
  }

  /** `All` lists every member exactly once, at its declaration position. */
  lemma AllAt(k: Property)
    ensures |All| == Count && All[Ordinal(k)] == k
  {
    FromOrdinalOrdinal(k);
  }

  lemma OrdinalAt(i: nat)
    requires i < |All|
    ensures Ordinal(All[i]) == i
  {
    OrdinalFromOrdinal(i);
  }
}
