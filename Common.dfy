/** Node kinds shared by every domain: the `CommonNodeKind` enum (graphSchema.ts lines 657-659) and
    `CommonNodeKindToDisplay` (lines 660-667). */
module CommonNodeKind {
  import opened Wrappers

  /** One constructor per enum member, in declaration order. */
  datatype Kind =
      MigrationData

  /** The number of members. */
  const Count := 1

  // The string value of each member: the identifier data producers emit.
  const MigrationDataId: string := "MigrationData"

  /** The identifier (string value) of a member. */
  function Id(k: Kind): string {
    match k
    case MigrationData => MigrationDataId
  }

  /** The position of a member in the declaration. */
  function Ordinal(k: Kind): (r: nat)
    ensures r < Count
  {
    match k
    case MigrationData => 0
  }

  /** The member at a declaration position. */
  function FromOrdinal(i: nat): Kind
    requires i < Count
  {
    MigrationData
  }

  /** Every member, in declaration order. */
  const All: seq<Kind> := seq(Count, i requires 0 <= i < Count => FromOrdinal(i))

  /** The label the display switch returns for a member. */
  function Label(k: Kind): string {
    match k
    case MigrationData => "MigrationData"
  }

  /** Parse, for the one member whose identifier has 13 characters. */
  function ParseLength13(s: string): (r: Option<Kind>)
    requires |s| == 13
    ensures r.Some? ==> Id(r.value) == s
  {
    if s == Id(MigrationData) then Some(MigrationData) else None
  }

  /** The member whose identifier is exactly `s` (case-sensitive), if any. */
  function Parse(s: string): (r: Option<Kind>)
    ensures r.Some? ==> Id(r.value) == s
  {
    match |s|
    case 13 => ParseLength13(s)
    case _ => None
  }

  /** `CommonNodeKindToDisplay`: the label of the member whose identifier is `value`;
      None (the `default: return undefined` branch) for any other string. */
  function ToDisplay(value: string): (r: Option<string>)
    ensures r.Some? ==> exists k :: Id(k) == value && r.value == Label(k)
  {
    match Parse(value)
    case Some(k) => Some(Label(k))
    case None => None
  }

  /** Looking up a member's identifier gives back that member. */
  lemma ParseId(k: Kind)
    ensures Parse(Id(k)) == Some(k)
  {
    match k
    case MigrationData =>
  }

  /** Identifiers are pairwise distinct. */
  lemma IdInjective(a: Kind, b: Kind)
    ensures Id(a) == Id(b) ==> a == b
  {
    ParseId(a);
    ParseId(b);
  }

  /** Parse is exactly the inverse of Id: it finds a member precisely when the
      string is that member's identifier. */
  lemma ParseIff(s: string, k: Kind)
    ensures Parse(s) == Some(k) <==> Id(k) == s
  {
    ParseId(k);
  }

  /** Every member has a defined label: the switch has a case for each of them. */
  lemma ToDisplayTotal(k: Kind)
    ensures ToDisplay(Id(k)) == Some(Label(k))
  {
    ParseId(k);
  }

  /** The switch falls through to `undefined` exactly for strings that are no
      member's identifier. */
  lemma ToDisplayUndefined(s: string)
    ensures ToDisplay(s) == None <==> forall k :: Id(k) != s
  {
    forall k: Kind | Id(k) == s
      ensures ToDisplay(s) != None
    {
      ParseId(k);
    }
  }

  /** Ordinal and FromOrdinal are mutually inverse. */
  lemma FromOrdinalOrdinal(k: Kind)
    ensures FromOrdinal(Ordinal(k)) == k
  {
    match k
    case MigrationData =>
  }

  lemma OrdinalFromOrdinal(i: nat)
    requires i < Count
    ensures Ordinal(FromOrdinal(i)) == i
  {
    match FromOrdinal(i)
    case MigrationData =>
  }

  /** `All` lists every member exactly once, at its declaration position. */
  lemma AllAt(k: Kind)
    ensures |All| == Count && All[Ordinal(k)] == k
  {
    FromOrdinalOrdinal(k);
  }

  lemma OrdinalAt(i: nat)
    requires i < |All|
    ensures Ordinal(All[i]) == i
  {
    OrdinalFromOrdinal(i);
  }
}

/** Well-known property keys shared by every domain: the `CommonKindProperties` enum (graphSchema.ts lines 668-685) and
    `CommonKindPropertiesToDisplay` (lines 686-723). */
module CommonKindProperties {
  import opened Wrappers

  /** One constructor per enum member, in declaration order. */
  datatype Property =
      ObjectID
    | Name
    | DisplayName
    | Description
    | OwnerObjectID
    | Collected
    | OperatingSystem
    | SystemTags
    | UserTags
    | LastSeen
    | WhenCreated
    | Enabled
    | PasswordLastSet
    | Title
    | Email
    | IsInherited

  /** The number of members. */
  const Count := 16

  // The string value of each member: the identifier data producers emit.
  const ObjectIDId: string := "objectid"
  const NameId: string := "name"
  const DisplayNameId: string := "displayname"
  const DescriptionId: string := "description"
  const OwnerObjectIDId: string := "owner_objectid"
  const CollectedId: string := "collected"
  const OperatingSystemId: string := "operatingsystem"
  const SystemTagsId: string := "system_tags"
  const UserTagsId: string := "user_tags"
  const LastSeenId: string := "lastseen"
  const WhenCreatedId: string := "whencreated"
  const EnabledId: string := "enabled"
  const PasswordLastSetId: string := "pwdlastset"
  const TitleId: string := "title"
  const EmailId: string := "email"
  const IsInheritedId: string := "isinherited"

  /** The identifier (string value) of a member. */
  function Id(k: Property): string {
    match k
    case ObjectID => ObjectIDId
    case Name => NameId
    case DisplayName => DisplayNameId
    case Description => DescriptionId
    case OwnerObjectID => OwnerObjectIDId
    case Collected => CollectedId
    case OperatingSystem => OperatingSystemId
    case SystemTags => SystemTagsId
    case UserTags => UserTagsId
    case LastSeen => LastSeenId
    case WhenCreated => WhenCreatedId
    case Enabled => EnabledId
    case PasswordLastSet => PasswordLastSetId
    case Title => TitleId
    case Email => EmailId
    case IsInherited => IsInheritedId
  }

  /** The position of a member in the declaration. */
  function Ordinal(k: Property): (r: nat)
    ensures r < Count
  {
    match k
    case ObjectID => 0
    case Name => 1
    case DisplayName => 2
    case Description => 3
    case OwnerObjectID => 4
    case Collected => 5
    case OperatingSystem => 6
    case SystemTags => 7
    case UserTags => 8
    case LastSeen => 9
    case WhenCreated => 10
    case Enabled => 11
    case PasswordLastSet => 12
    case Title => 13
    case Email => 14
    case IsInherited => 15
  }

  /** The member at a declaration position. */
  function FromOrdinal(i: nat): Property
    requires i < Count
  {
    if i < 8 then
      (
        if i < 4 then
          (
            if i < 2 then
              (
                if i == 0 then ObjectID else Name
              )
            else
              if i == 2 then DisplayName else Description
          )
        else
          if i < 6 then
            (
              if i == 4 then OwnerObjectID else Collected
            )
          else
            if i == 6 then OperatingSystem else SystemTags
      )
    else
      if i < 12 then
        (
          if i < 10 then
            (
              if i == 8 then UserTags else LastSeen
            )
          else
            if i == 10 then WhenCreated else Enabled
        )
      else
        if i < 14 then
          (
            if i == 12 then PasswordLastSet else Title
          )
        else
          if i == 14 then Email else IsInherited
  }

  /** Every member, in declaration order. */
  const All: seq<Property> := seq(Count, i requires 0 <= i < Count => FromOrdinal(i))

  /** The label the display switch returns for a member. */
  function Label(k: Property): string {
    match k
    case ObjectID => "Object ID"
    case Name => "Name"
    case DisplayName => "Display Name"
    case Description => "Description"
    case OwnerObjectID => "Owner Object ID"
    case Collected => "Collected"
    case OperatingSystem => "Operating System"
    case SystemTags => "Node System Tags"
    case UserTags => "Node User Tags"
    case LastSeen => "Last Collected by BloodHound"
    case WhenCreated => "Created"
    case Enabled => "Enabled"
    case PasswordLastSet => "Password Last Set"
    case Title => "Title"
    case Email => "Email"
    case IsInherited => "Is Inherited"
  }

  /** Parse, for the one member whose identifier has 4 characters. */
  function ParseLength4(s: string): (r: Option<Property>)
    requires |s| == 4
    ensures r.Some? ==> Id(r.value) == s
  {
    if s == Id(Name) then Some(Name) else None
  }

  /** Parse, among the members whose identifier has 5 characters: single characters
      of `s` narrow the candidates to one, which is then compared in full. */
  function ParseLength5(s: string): (r: Option<Property>)
    requires |s| == 5
    ensures r.Some? ==> Id(r.value) == s
  {
    if s[4] == 'e' then
      if s == Id(Title) then Some(Title) else None
    else if s[4] == 'l' then
      if s == Id(Email) then Some(Email) else None
    else None
  }

  /** Parse, for the one member whose identifier has 7 characters. */
  function ParseLength7(s: string): (r: Option<Property>)
    requires |s| == 7
    ensures r.Some? ==> Id(r.value) == s
  {
    if s == Id(Enabled) then Some(Enabled) else None
  }

  /** Parse, among the members whose identifier has 8 characters: single characters
      of `s` narrow the candidates to one, which is then compared in full. */
  function ParseLength8(s: string): (r: Option<Property>)
    requires |s| == 8
    ensures r.Some? ==> Id(r.value) == s
  {
    if s[7] == 'd' then
      if s == Id(ObjectID) then Some(ObjectID) else None
    else if s[7] == 'n' then
      if s == Id(LastSeen) then Some(LastSeen) else None
    else None
  }

  /** Parse, among the members whose identifier has 9 characters: single characters
      of `s` narrow the candidates to one, which is then compared in full. */
  function ParseLength9(s: string): (r: Option<Property>)
    requires |s| == 9
    ensures r.Some? ==> Id(r.value) == s
  {
    if s[8] == 'd' then
      if s == Id(Collected) then Some(Collected) else None
    else if s[8] == 's' then
      if s == Id(UserTags) then Some(UserTags) else None
    else None
  }

  /** Parse, for the one member whose identifier has 10 characters. */
  function ParseLength10(s: string): (r: Option<Property>)
    requires |s| == 10
    ensures r.Some? ==> Id(r.value) == s
  {
    if s == Id(PasswordLastSet) then Some(PasswordLastSet) else None
  }

  /** Parse, among the members whose identifier has 11 characters: single characters
      of `s` narrow the candidates to one, which is then compared in full. */
  function ParseLength11(s: string): (r: Option<Property>)
    requires |s| == 11
    ensures r.Some? ==> Id(r.value) == s
  {
    if s[6] == 'y' then
      if s == Id(DisplayName) then Some(DisplayName) else None
    else if s[6] == 'p' then
      if s == Id(Description) then Some(Description) else None
    else if s[6] == '_' then
      if s == Id(SystemTags) then Some(SystemTags) else None
    else if s[6] == 'e' then
      if s == Id(WhenCreated) then Some(WhenCreated) else None
    else if s[6] == 'r' then
      if s == Id(IsInherited) then Some(IsInherited) else None
    else None
  }

  /** Parse, for the one member whose identifier has 14 characters. */
  function ParseLength14(s: string): (r: Option<Property>)
    requires |s| == 14
    ensures r.Some? ==> Id(r.value) == s
  {
    if s == Id(OwnerObjectID) then Some(OwnerObjectID) else None
  }

  /** Parse, for the one member whose identifier has 15 characters. */
  function ParseLength15(s: string): (r: Option<Property>)
    requires |s| == 15
    ensures r.Some? ==> Id(r.value) == s
  {
    if s == Id(OperatingSystem) then Some(OperatingSystem) else None
  }

  /** The member whose identifier is exactly `s` (case-sensitive), if any. */
  function Parse(s: string): (r: Option<Property>)
    ensures r.Some? ==> Id(r.value) == s
  {
    match |s|
    case 4 => ParseLength4(s)
    case 5 => ParseLength5(s)
    case 7 => ParseLength7(s)
    case 8 => ParseLength8(s)
    case 9 => ParseLength9(s)
    case 10 => ParseLength10(s)
    case 11 => ParseLength11(s)
    case 14 => ParseLength14(s)
    case 15 => ParseLength15(s)
    case _ => None
  }

  /** `CommonKindPropertiesToDisplay`: the label of the member whose identifier is `value`;
      None (the `default: return undefined` branch) for any other string. */
  function ToDisplay(value: string): (r: Option<string>)
    ensures r.Some? ==> exists k :: Id(k) == value && r.value == Label(k)
  {
    match Parse(value)
    case Some(k) => Some(Label(k))
    case None => None
  }

  /** Looking up a member's identifier gives back that member. */
  lemma ParseId(k: Property)
    ensures Parse(Id(k)) == Some(k)
  {
    if Ordinal(k) < 8 {
      ParseIdFrom0(k);
    } else {
      ParseIdFrom8(k);
    }
  }

  /** ParseId for the members declared at positions 0 to 7. */
  lemma ParseIdFrom0(k: Property)
    requires 0 <= Ordinal(k) < 8
    ensures Parse(Id(k)) == Some(k)
  {
    match k
    case ObjectID =>
    case Name =>
    case DisplayName =>
    case Description =>
    case OwnerObjectID =>
    case Collected =>
    case OperatingSystem =>
    case SystemTags =>
  }

  /** ParseId for the members declared at positions 8 to 15. */
  lemma ParseIdFrom8(k: Property)
    requires 8 <= Ordinal(k)
    ensures Parse(Id(k)) == Some(k)
  {
    match k
    case UserTags =>
    case LastSeen =>
    case WhenCreated =>
    case Enabled =>
    case PasswordLastSet =>
    case Title =>
    case Email =>
    case IsInherited =>
  }

  /** Identifiers are pairwise distinct. */
  lemma IdInjective(a: Property, b: Property)
    ensures Id(a) == Id(b) ==> a == b
  {
    ParseId(a);
    ParseId(b);
  }

  /** Parse is exactly the inverse of Id: it finds a member precisely when the
      string is that member's identifier. */
  lemma ParseIff(s: string, k: Property)
    ensures Parse(s) == Some(k) <==> Id(k) == s
  {
    ParseId(k);
  }

  /** Every member has a defined label: the switch has a case for each of them. */
  lemma ToDisplayTotal(k: Property)
    ensures ToDisplay(Id(k)) == Some(Label(k))
  {
    ParseId(k);
  }

  /** The switch falls through to `undefined` exactly for strings that are no
      member's identifier. */
  lemma ToDisplayUndefined(s: string)
    ensures ToDisplay(s) == None <==> forall k :: Id(k) != s
  {
    forall k: Property | Id(k) == s
      ensures ToDisplay(s) != None
    {
      ParseId(k);
    }
  }

  /** Ordinal and FromOrdinal are mutually inverse. */
  lemma FromOrdinalOrdinal(k: Property)
    ensures FromOrdinal(Ordinal(k)) == k
  {
    match k
    case ObjectID =>
    case Name =>
    case DisplayName =>
    case Description =>
    case OwnerObjectID =>
    case Collected =>
    case OperatingSystem =>
    case SystemTags =>
    case UserTags =>
    case LastSeen =>
    case WhenCreated =>
    case Enabled =>
    case PasswordLastSet =>
    case Title =>
    case Email =>
    case IsInherited =>
  }

  lemma OrdinalFromOrdinal(i: nat)
    requires i < Count
    ensures Ordinal(FromOrdinal(i)) == i
  {
    match FromOrdinal(i)
    case ObjectID =>
    case Name =>
    case DisplayName =>
    case Description =>
    case OwnerObjectID =>
    case Collected =>
    case OperatingSystem =>
    case SystemTags =>
    case UserTags =>
    case LastSeen =>
    case WhenCreated =>
    case Enabled =>
    case PasswordLastSet =>
    case Title =>
    case Email =>
    case IsInherited =>
  }

  /** `All` lists every member exactly once, at its declaration position. */
  lemma AllAt(k: Property)
    ensures |All| == Count && All[Ordinal(k)] == k
  {
    FromOrdinalOrdinal(k);
  }

  lemma OrdinalAt(i: nat)
    requires i < |All|
    ensures Ordinal(All[i]) == i
  {
    OrdinalFromOrdinal(i);
  }
}
