# BloodHound graph schema and saved-query handlers, in Dafny

This project models two pieces of BloodHound, the Active Directory and Azure
attack-path tool, and proves properties of them.

**The shared graph schema** (`graphSchema.ts`) names every node kind,
relationship kind and property key of the Active Directory and Azure domains,
and of the kinds common to both, as string enums. Each enum has a display
function that maps a string value to a human-readable label, or to
`undefined`. Two functions list the relationship kinds that path finding may
traverse.

- Eight enum modules (`ActiveDirectoryNodeKind`, …, `CommonKindProperties`)
  hold:
  - a datatype with one constructor per enum member;
  - the member's string value (`Id`) and its label (`Label`);
  - a parser from strings back to members (`Parse`);
  - `ToDisplay`, which is `Label` after `Parse` and gives None for `undefined`.
- `GraphSchema` relates the domains to each other:
  - the "AZ" prefix of Azure values;
  - the two kind unions;
  - labels shared across domains;
  - a few concrete labels.
- `Pathfinding` holds the two edge lists. It proves each is exactly the
  declared relationship kinds, in declaration order and without repeats,
  with a named set left out. `Enumeration` holds the generic list facts this
  uses.

**The saved-query API handlers** (`cmd/api/src/api/v2/saved_queries.go`)
list, create and delete a user's saved queries.

- `SavedQueries.ParseSortOrder` is the sort_by loop.
- `QueryFilters.QueryFilterSet` holds the parsed filters as a map from column
  to filter list. Its `Validate` method updates that map in place, as the
  handler does, visiting the columns in an unspecified order.
- `CreateSavedQuery` and `DeleteSavedQuery` are the status chains of the two
  handlers. Each returns the reply together with the store calls it made.
- `Text` models the Go library calls the handlers rely on: `strings.Join`,
  `strings.Contains` and `strconv.Atoi`.

Some inputs are parameters:
- the database;
- the request parser for filters;
- the JSON body decoder;
- the SavedQuery model's column metadata: `IsSortable`,
  `GetValidFilterPredicatesAsStrings` and `IsString`.

The TypeScript display functions are typed to take an enum value. At run time
they receive any string (kinds arrive as data from the API). The model
therefore takes any string and proves the `undefined` branch is reached
exactly for strings that are no member's value.

## Model

| member | source | states |
|---|---|---|
| `ActiveDirectoryNodeKind.Parse` | packages/javascript/bh-shared-ui/src/graphSchema.ts:17-28 | a string is read as a member only if it is that member's string value |
| `ActiveDirectoryNodeKind.ParseId` | packages/javascript/bh-shared-ui/src/graphSchema.ts:17-28 | every member's string value is read back as that member |
| `ActiveDirectoryNodeKind.IdInjective` | packages/javascript/bh-shared-ui/src/graphSchema.ts:17-28 | no two members share a string value |
| `ActiveDirectoryNodeKind.ParseIff` | packages/javascript/bh-shared-ui/src/graphSchema.ts:17-28 | a string is read as member k exactly when it is k's value (both directions) |
| `ActiveDirectoryNodeKind.AllAt` | packages/javascript/bh-shared-ui/src/graphSchema.ts:17-28 | the list of all members holds each member once, at its declaration position |
| `ActiveDirectoryNodeKind.ToDisplay` | packages/javascript/bh-shared-ui/src/graphSchema.ts:29-54 | the display switch: a label it returns is the label of the member whose value was given (every member is covered by `ToDisplayTotal`, everything else is undefined by `ToDisplayUndefined`) |
| `ActiveDirectoryNodeKind.ToDisplayTotal` | packages/javascript/bh-shared-ui/src/graphSchema.ts:29-54 | the display function has a case for every member and returns that member's label |
| `ActiveDirectoryNodeKind.ToDisplayUndefined` | packages/javascript/bh-shared-ui/src/graphSchema.ts:29-54 | the display function returns undefined exactly for strings that are no member's value |
| `ActiveDirectoryRelationshipKind.Parse` | packages/javascript/bh-shared-ui/src/graphSchema.ts:55-93 | a string is read as a member only if it is that member's string value |
| `ActiveDirectoryRelationshipKind.ParseId` | packages/javascript/bh-shared-ui/src/graphSchema.ts:55-93 | every member's string value is read back as that member |
| `ActiveDirectoryRelationshipKind.IdInjective` | packages/javascript/bh-shared-ui/src/graphSchema.ts:55-93 | no two members share a string value |
| `ActiveDirectoryRelationshipKind.ParseIff` | packages/javascript/bh-shared-ui/src/graphSchema.ts:55-93 | a string is read as member k exactly when it is k's value (both directions) |
| `ActiveDirectoryRelationshipKind.AllAt` | packages/javascript/bh-shared-ui/src/graphSchema.ts:55-93 | the list of all members holds each member once, at its declaration position |
| `ActiveDirectoryRelationshipKind.ToDisplay` | packages/javascript/bh-shared-ui/src/graphSchema.ts:94-173 | the display switch: a label it returns is the label of the member whose value was given (every member is covered by `ToDisplayTotal`, everything else is undefined by `ToDisplayUndefined`) |
| `ActiveDirectoryRelationshipKind.ToDisplayTotal` | packages/javascript/bh-shared-ui/src/graphSchema.ts:94-173 | the display function has a case for every member and returns that member's label |
| `ActiveDirectoryRelationshipKind.ToDisplayUndefined` | packages/javascript/bh-shared-ui/src/graphSchema.ts:94-173 | the display function returns undefined exactly for strings that are no member's value |
| `ActiveDirectoryKindProperties.Parse` | packages/javascript/bh-shared-ui/src/graphSchema.ts:175-203 | a string is read as a member only if it is that member's string value |
| `ActiveDirectoryKindProperties.ParseId` | packages/javascript/bh-shared-ui/src/graphSchema.ts:175-203 | every member's string value is read back as that member |
| `ActiveDirectoryKindProperties.IdInjective` | packages/javascript/bh-shared-ui/src/graphSchema.ts:175-203 | no two members share a string value |
| `ActiveDirectoryKindProperties.ParseIff` | packages/javascript/bh-shared-ui/src/graphSchema.ts:175-203 | a string is read as member k exactly when it is k's value (both directions) |
| `ActiveDirectoryKindProperties.AllAt` | packages/javascript/bh-shared-ui/src/graphSchema.ts:175-203 | the list of all members holds each member once, at its declaration position |
| `ActiveDirectoryKindProperties.ToDisplay` | packages/javascript/bh-shared-ui/src/graphSchema.ts:204-263 | the display switch: a label it returns is the label of the member whose value was given (every member is covered by `ToDisplayTotal`, everything else is undefined by `ToDisplayUndefined`) |
| `ActiveDirectoryKindProperties.ToDisplayTotal` | packages/javascript/bh-shared-ui/src/graphSchema.ts:204-263 | the display function has a case for every member and returns that member's label |
| `ActiveDirectoryKindProperties.ToDisplayUndefined` | packages/javascript/bh-shared-ui/src/graphSchema.ts:204-263 | the display function returns undefined exactly for strings that are no member's value |
| `AzureNodeKind.Parse` | packages/javascript/bh-shared-ui/src/graphSchema.ts:299-320 | a string is read as a member only if it is that member's string value |
| `AzureNodeKind.ParseId` | packages/javascript/bh-shared-ui/src/graphSchema.ts:299-320 | every member's string value is read back as that member |
| `AzureNodeKind.IdInjective` | packages/javascript/bh-shared-ui/src/graphSchema.ts:299-320 | no two members share a string value |
| `AzureNodeKind.ParseIff` | packages/javascript/bh-shared-ui/src/graphSchema.ts:299-320 | a string is read as member k exactly when it is k's value (both directions) |
| `AzureNodeKind.AllAt` | packages/javascript/bh-shared-ui/src/graphSchema.ts:299-320 | the list of all members holds each member once, at its declaration position |
| `AzureNodeKind.ToDisplay` | packages/javascript/bh-shared-ui/src/graphSchema.ts:321-366 | the display switch: a label it returns is the label of the member whose value was given (every member is covered by `ToDisplayTotal`, everything else is undefined by `ToDisplayUndefined`) |
| `AzureNodeKind.ToDisplayTotal` | packages/javascript/bh-shared-ui/src/graphSchema.ts:321-366 | the display function has a case for every member and returns that member's label |
| `AzureNodeKind.ToDisplayUndefined` | packages/javascript/bh-shared-ui/src/graphSchema.ts:321-366 | the display function returns undefined exactly for strings that are no member's value |
| `AzureRelationshipKind.Parse` | packages/javascript/bh-shared-ui/src/graphSchema.ts:367-414 | a string is read as a member only if it is that member's string value |
| `AzureRelationshipKind.ParseId` | packages/javascript/bh-shared-ui/src/graphSchema.ts:367-414 | every member's string value is read back as that member |
| `AzureRelationshipKind.IdInjective` | packages/javascript/bh-shared-ui/src/graphSchema.ts:367-414 | no two members share a string value |
| `AzureRelationshipKind.ParseIff` | packages/javascript/bh-shared-ui/src/graphSchema.ts:367-414 | a string is read as member k exactly when it is k's value (both directions) |
| `AzureRelationshipKind.AllAt` | packages/javascript/bh-shared-ui/src/graphSchema.ts:367-414 | the list of all members holds each member once, at its declaration position |
| `AzureRelationshipKind.ToDisplay` | packages/javascript/bh-shared-ui/src/graphSchema.ts:415-512 | the display switch: a label it returns is the label of the member whose value was given (every member is covered by `ToDisplayTotal`, everything else is undefined by `ToDisplayUndefined`) |
| `AzureRelationshipKind.ToDisplayTotal` | packages/javascript/bh-shared-ui/src/graphSchema.ts:415-512 | the display function has a case for every member and returns that member's label |
| `AzureRelationshipKind.ToDisplayUndefined` | packages/javascript/bh-shared-ui/src/graphSchema.ts:415-512 | the display function returns undefined exactly for strings that are no member's value |
| `AzureKindProperties.Parse` | packages/javascript/bh-shared-ui/src/graphSchema.ts:514-546 | a string is read as a member only if it is that member's string value |
| `AzureKindProperties.ParseId` | packages/javascript/bh-shared-ui/src/graphSchema.ts:514-546 | every member's string value is read back as that member |
| `AzureKindProperties.IdInjective` | packages/javascript/bh-shared-ui/src/graphSchema.ts:514-546 | no two members share a string value |
| `AzureKindProperties.ParseIff` | packages/javascript/bh-shared-ui/src/graphSchema.ts:514-546 | a string is read as member k exactly when it is k's value (both directions) |
| `AzureKindProperties.AllAt` | packages/javascript/bh-shared-ui/src/graphSchema.ts:514-546 | the list of all members holds each member once, at its declaration position |
| `AzureKindProperties.ToDisplay` | packages/javascript/bh-shared-ui/src/graphSchema.ts:547-614 | the display switch: a label it returns is the label of the member whose value was given (every member is covered by `ToDisplayTotal`, everything else is undefined by `ToDisplayUndefined`) |
| `AzureKindProperties.ToDisplayTotal` | packages/javascript/bh-shared-ui/src/graphSchema.ts:547-614 | the display function has a case for every member and returns that member's label |
| `AzureKindProperties.ToDisplayUndefined` | packages/javascript/bh-shared-ui/src/graphSchema.ts:547-614 | the display function returns undefined exactly for strings that are no member's value |
| `CommonNodeKind.Parse` | packages/javascript/bh-shared-ui/src/graphSchema.ts:657-659 | a string is read as a member only if it is that member's string value |
| `CommonNodeKind.ParseId` | packages/javascript/bh-shared-ui/src/graphSchema.ts:657-659 | every member's string value is read back as that member |
| `CommonNodeKind.IdInjective` | packages/javascript/bh-shared-ui/src/graphSchema.ts:657-659 | no two members share a string value |
| `CommonNodeKind.ParseIff` | packages/javascript/bh-shared-ui/src/graphSchema.ts:657-659 | a string is read as member k exactly when it is k's value (both directions) |
| `CommonNodeKind.AllAt` | packages/javascript/bh-shared-ui/src/graphSchema.ts:657-659 | the list of all members holds each member once, at its declaration position |
| `CommonNodeKind.ToDisplay` | packages/javascript/bh-shared-ui/src/graphSchema.ts:660-667 | the display switch: a label it returns is the label of the member whose value was given (every member is covered by `ToDisplayTotal`, everything else is undefined by `ToDisplayUndefined`) |
| `CommonNodeKind.ToDisplayTotal` | packages/javascript/bh-shared-ui/src/graphSchema.ts:660-667 | the display function has a case for every member and returns that member's label |
| `CommonNodeKind.ToDisplayUndefined` | packages/javascript/bh-shared-ui/src/graphSchema.ts:660-667 | the display function returns undefined exactly for strings that are no member's value |
| `CommonKindProperties.Parse` | packages/javascript/bh-shared-ui/src/graphSchema.ts:668-685 | a string is read as a member only if it is that member's string value |
| `CommonKindProperties.ParseId` | packages/javascript/bh-shared-ui/src/graphSchema.ts:668-685 | every member's string value is read back as that member |
| `CommonKindProperties.IdInjective` | packages/javascript/bh-shared-ui/src/graphSchema.ts:668-685 | no two members share a string value |
| `CommonKindProperties.ParseIff` | packages/javascript/bh-shared-ui/src/graphSchema.ts:668-685 | a string is read as member k exactly when it is k's value (both directions) |
| `CommonKindProperties.AllAt` | packages/javascript/bh-shared-ui/src/graphSchema.ts:668-685 | the list of all members holds each member once, at its declaration position |
| `CommonKindProperties.ToDisplay` | packages/javascript/bh-shared-ui/src/graphSchema.ts:686-723 | the display switch: a label it returns is the label of the member whose value was given (every member is covered by `ToDisplayTotal`, everything else is undefined by `ToDisplayUndefined`) |
| `CommonKindProperties.ToDisplayTotal` | packages/javascript/bh-shared-ui/src/graphSchema.ts:686-723 | the display function has a case for every member and returns that member's label |
| `CommonKindProperties.ToDisplayUndefined` | packages/javascript/bh-shared-ui/src/graphSchema.ts:686-723 | the display function returns undefined exactly for strings that are no member's value |
| `GraphSchema.AzureNodeIdPrefixed` | packages/javascript/bh-shared-ui/src/graphSchema.ts:299-320 | every Azure node kind value starts with "AZ" |
| `GraphSchema.AzureRelationshipIdPrefixed` | packages/javascript/bh-shared-ui/src/graphSchema.ts:367-414 | every Azure relationship kind value starts with "AZ" |
| `GraphSchema.ActiveDirectoryNodeIdUnprefixed` | packages/javascript/bh-shared-ui/src/graphSchema.ts:17-28 | no Active Directory node kind value starts with "AZ" |
| `GraphSchema.ActiveDirectoryRelationshipIdUnprefixed` | packages/javascript/bh-shared-ui/src/graphSchema.ts:55-93 | no Active Directory relationship kind value starts with "AZ" |
| `GraphSchema.NodeIdsDisjoint` | packages/javascript/bh-shared-ui/src/graphSchema.ts:299-320 | no Active Directory node kind has the value of an Azure node kind |
| `GraphSchema.RelationshipIdsDisjoint` | packages/javascript/bh-shared-ui/src/graphSchema.ts:367-414 | no Active Directory relationship kind has the value of an Azure one |
| `GraphSchema.SharedLabels` | packages/javascript/bh-shared-ui/src/graphSchema.ts:321-366 | Group and Owns have the same label in both domains although their values differ |
| `GraphSchema.ActiveDirectoryRelationshipLabelIsId` | packages/javascript/bh-shared-ui/src/graphSchema.ts:94-173 | an Active Directory relationship's label equals its value exactly when it is not WriteDACL |
| `GraphSchema.ActiveDirectoryNodeNotRelationship` | packages/javascript/bh-shared-ui/src/graphSchema.ts:174 | no Active Directory node kind value is also a relationship kind value |
| `GraphSchema.AzureNodeNotRelationship` | packages/javascript/bh-shared-ui/src/graphSchema.ts:513 | no Azure node kind value is also a relationship kind value |
| `GraphSchema.ActiveDirectoryKindIdInjective` | packages/javascript/bh-shared-ui/src/graphSchema.ts:174 | a member of the ActiveDirectoryKind union is determined by its string value |
| `GraphSchema.AzureKindIdInjective` | packages/javascript/bh-shared-ui/src/graphSchema.ts:513 | a member of the AzureKind union is determined by its string value |
| `GraphSchema.LapsDisplay` | packages/javascript/bh-shared-ui/src/graphSchema.ts:192-239 | "haslaps" is displayed as "LAPS Enabled" |
| `GraphSchema.BaseDisplay` | packages/javascript/bh-shared-ui/src/graphSchema.ts:17-54 | "Base" (and "AZBase" for Azure) is displayed as "Entity" |
| `GraphSchema.TrustTypeDisplay` | packages/javascript/bh-shared-ui/src/graphSchema.ts:514-568 | Azure "trustype" and Active Directory "trusttype" are both displayed as "Trust Type"; each domain rejects the other's spelling |
| `GraphSchema.WriteDaclDisplay` | packages/javascript/bh-shared-ui/src/graphSchema.ts:55-105 | "WriteDacl" is displayed as "WriteDACL", and "WriteDACL" itself is undefined |
| `GraphSchema.UnknownDisplay` | packages/javascript/bh-shared-ui/src/graphSchema.ts:29-54 | strings that are no value, such as the empty string, give undefined |
| `Pathfinding.ActiveDirectoryPathfindingEdges` | packages/javascript/bh-shared-ui/src/graphSchema.ts:264-298 | the Active Directory pathfinding list: 31 relationship kinds, none of them one of the six left-out kinds |
| `Pathfinding.ActiveDirectoryPathfindingAt` | packages/javascript/bh-shared-ui/src/graphSchema.ts:264-298 | the i-th listed edge is the relationship kind declared at position i, i + 3 or i + 6, depending on which gap it follows |
| `Pathfinding.ActiveDirectoryNonTraversablePositions` | packages/javascript/bh-shared-ui/src/graphSchema.ts:55-93 | the six left-out kinds are exactly those declared at positions 13-15 and 32-34 |
| `Pathfinding.ActiveDirectoryPathfindingMembers` | packages/javascript/bh-shared-ui/src/graphSchema.ts:264-298 | a relationship kind is listed exactly when it is not one of GetChanges, GetChangesAll, GetChangesInFilteredSet, LocalToComputer, MemberOfLocalGroup, RemoteInteractiveLogonPrivilege |
| `Pathfinding.ActiveDirectoryPathfindingAscending` | packages/javascript/bh-shared-ui/src/graphSchema.ts:264-298 | the edges are listed in declaration order |
| `Pathfinding.ActiveDirectoryPathfindingIsFilter` | packages/javascript/bh-shared-ui/src/graphSchema.ts:264-298 | the list is the declared kinds with the six left out, in order, with no repeats: 31 of 37 |
| `Pathfinding.AzurePathfindingEdges` | packages/javascript/bh-shared-ui/src/graphSchema.ts:615-656 | the Azure pathfinding list: 38 relationship kinds, none of them ScopedTo or a Graph ..._ReadWrite_... permission |
| `Pathfinding.AzurePathfindingAt` | packages/javascript/bh-shared-ui/src/graphSchema.ts:615-656 | the i-th listed edge is the relationship kind declared at position i, i + 1 or i + 8, depending on which gap it follows |
| `Pathfinding.AzureNonTraversablePositions` | packages/javascript/bh-shared-ui/src/graphSchema.ts:367-414 | the eight left-out kinds are exactly those declared at positions 25 and 30-36 |
| `Pathfinding.AzurePathfindingMembers` | packages/javascript/bh-shared-ui/src/graphSchema.ts:615-656 | a relationship kind is listed exactly when it is not ScopedTo or one of the seven AZMG..._ReadWrite_... kinds |
| `Pathfinding.AzurePathfindingAscending` | packages/javascript/bh-shared-ui/src/graphSchema.ts:615-656 | the edges are listed in declaration order |
| `Pathfinding.AzurePathfindingIsFilter` | packages/javascript/bh-shared-ui/src/graphSchema.ts:615-656 | the list is the declared kinds with the eight left out, in order, with no repeats: 38 of 46 |
| `Pathfinding.PathfindingEdgesDisjoint` | packages/javascript/bh-shared-ui/src/graphSchema.ts:615-656 | no edge of one domain's list has the value of an edge of the other's |
| `Enumeration.FilterAscending` | packages/javascript/bh-shared-ui/src/graphSchema.ts:264-298 | filtering keeps the declaration order of what it keeps |
| `Enumeration.AscendingUnique` | packages/javascript/bh-shared-ui/src/graphSchema.ts:264-298 | two lists in declaration order with the same members are equal, which pins each edge list down from its members |
| `SavedQueries.SplitSortValue` | cmd/api/src/api/v2/saved_queries.go:27-31 | one leading "-" is taken off a sort_by value and marks the order descending; writing the key back gives the value |
| `SavedQueries.SplitSortValueOfSortValue` | cmd/api/src/api/v2/saved_queries.go:27-31 | splitting a written key gives the key back, except for an ascending column that itself starts with "-" |
| `SavedQueries.SortKeyAsWritten` | cmd/api/src/api/v2/saved_queries.go:28 | the split as written fails (panics) exactly on the empty value, and agrees with SplitSortValue elsewhere |
| `SavedQueries.EmptySortValuePanics` | cmd/api/src/api/v2/saved_queries.go:28 | an empty sort_by value reaches the out-of-range read |
| `SavedQueries.ParseSortOrder` | cmd/api/src/api/v2/saved_queries.go:26-44 | accepted exactly when every column is sortable, else 400 NotSortable; the terms keep the length and order of the request, "column desc" for a "-column" |
| `SavedQueries.OrderClauseEmpty` | cmd/api/src/api/v2/saved_queries.go:73 | the joined ORDER BY clause is empty exactly when no sort was asked for (or one ascending sort on the empty column) |
| `SavedQueries.OrderClauseSnoc` | cmd/api/src/api/v2/saved_queries.go:73 | one more sort_by value adds ", " and its term at the end of the clause |
| `SavedQueries.ListSavedQueries` | cmd/api/src/api/v2/saved_queries.go:17-80 | 400 for an unsortable column, for unparsable filters, or for a refused filter (with a reason that holds); otherwise the store query carries the joined order terms and the annotated filters |
| `QueryFilters.QueryFilterSet.Validate` | cmd/api/src/api/v2/saved_queries.go:51-65 | accepted exactly when every filtered column is filterable with the operators used on it; a refusal names a real offending column or filter; on success only each text flag is set, from the filter's name; nothing else changes even on refusal |
| `QueryFilters.QueryFilterSet.CheckColumn` | cmd/api/src/api/v2/saved_queries.go:52-64 | one column: no refusal exactly when the column can be filtered and supports every operator given for it, and then it joins the annotated columns; a refusal names this column, or the name and operator of one of its own filters, and explains why the filters are not accepted |
| `QueryFilters.QueryFilterSet.AnnotateColumn` | cmd/api/src/api/v2/saved_queries.go:56-63 | the filters of one column up to the first unsupported operator are annotated and the rest untouched; only that column changes |
| `QueryFilters.AnnotatedShape` | cmd/api/src/api/v2/saved_queries.go:62 | annotation keeps every filter but its text flag, which becomes isString of its name |
| `QueryFilters.AnnotatedIdempotent` | cmd/api/src/api/v2/saved_queries.go:62 | annotating twice is annotating once |
| `QueryFilters.AcceptedIgnoresFlags` | cmd/api/src/api/v2/saved_queries.go:51-65 | acceptance does not depend on text flags, so checking the annotated filters again accepts them |
| `QueryFilters.ExplainedIffRefused` | cmd/api/src/api/v2/saved_queries.go:52-60 | filters are refused exactly when a reason (unfilterable column or unsupported operator) exists |
| `QueryFilters.RefusalExplained` | cmd/api/src/api/v2/saved_queries.go:52-60 | any such reason makes the filters refused |
| `SavedQueries.CreateSavedQuery` | cmd/api/src/api/v2/saved_queries.go:93-105 | 201, 400 or 500; the store is called, once and with the request's name and query, exactly when the body decodes with a non-empty name and query; 400 otherwise |
| `SavedQueries.CreateStatus` | cmd/api/src/api/v2/saved_queries.go:97-105 | after a store call: 201 with the stored row on success, 400 for a unique-constraint error, 500 for any other |
| `SavedQueries.CreateDuplicateName` | cmd/api/src/api/v2/saved_queries.go:98-99 | an error text with the unique-constraint message anywhere in it gives the duplicate-name 400, whose text is "duplicate name for saved query: please choose a different name" |
| `SavedQueries.DeleteSavedQuery` | cmd/api/src/api/v2/saved_queries.go:114-131 | a non-integer id gives 400 with no store call; otherwise ownership is checked first; 204 exactly when the query belongs to the user and its removal succeeds |
| `SavedQueries.DeleteOnlyOwnQueries` | cmd/api/src/api/v2/saved_queries.go:116-122 | a removal happens only for the requested id, after an earlier ownership check of that id answered yes |
| `SavedQueries.DeleteStatus` | cmd/api/src/api/v2/saved_queries.go:116-131 | 404 when the query is missing at either store call, 400 for another user's query, 500 for any other store failure |
| `SavedQueries.DeleteOwnQuery` | cmd/api/src/api/v2/saved_queries.go:114-131 | the owner deleting a query by its decimal id gets 204 after exactly an ownership check and a removal |
| `Text.Atoi` | cmd/api/src/api/v2/saved_queries.go:114 | a parsed id is a 64-bit int and the string ends in a digit |
| `Text.AtoiItoa` | cmd/api/src/api/v2/saved_queries.go:114 | every 64-bit int written in decimal parses back to itself |
| `Text.AtoiRejects` | cmd/api/src/api/v2/saved_queries.go:114-115 | empty, sign-only, trailing-garbage, underscored and blank-padded ids are malformed |
| `Text.Join` | cmd/api/src/api/v2/saved_queries.go:73 | `strings.Join` of the order terms: the result is as long as the parts plus one separator per gap |
| `Text.JoinSnoc` | cmd/api/src/api/v2/saved_queries.go:73 | joining one more part adds the separator and that part |
| `Text.JoinEmpty` | cmd/api/src/api/v2/saved_queries.go:73 | with a non-empty separator a join is empty exactly for no parts or one empty part |
| `Text.Contains` | cmd/api/src/api/v2/saved_queries.go:98 | `strings.Contains` on the store's error text: the phrase occurs at some position, so it is never longer than the text |
| `Text.ContainsSpliced` | cmd/api/src/api/v2/saved_queries.go:98 | a string contains whatever is spliced into it |

## Left out

- `WindowsAbuse.tsx`, the `modsync` command and the database layer
  (`cmd/api/src/database/saved_queries.go`) are not part of this model. The
  store is a parameter whose answers the handlers react to.
- The SavedQuery model's `IsSortable`, `GetValidFilterPredicatesAsStrings` and
  `IsString` are parameters: the model code is not available.
- `ParseQueryParameterFilters` (the filter parser) is a parameter: its result,
  or None when it fails.
- `BuildSQLFilter`, the skip and limit parameters, the store's list call,
  `HandleDatabaseError` and the paginated 200 reply are left out, since that
  code is not available. `SavedQueries.ListSavedQueries` ends with the store
  query it would issue.
- JSON decoding, with its size limit, is a parameter: the decoded body or the
  decoder's error text.
- The session's user id is a parameter.
- Writing HTTP responses is left out. A handler's reply is a value: status
  and detail, the created row, or no content.
- The text of the `api.ErrorResponseDetails…` constants is not available.
  Those details are named constructors of `SavedQueries.Detail`.
- Concurrent deletion between the ownership check and the removal appears
  only as the store answering "not found" to the removal.
- Go strings are byte strings and the model's are strings of characters.
  The handlers inspect text in three places: the leading '-' of a sort key
  (saved_queries.go:28), the unique-violation phrase in the store's error
  text (`Text.Contains`, saved_queries.go:98) and the sign and digits of the
  id (`Text.Atoi`, saved_queries.go:114). Every pattern there is ASCII. In
  UTF-8 an ASCII byte never occurs inside a multi-byte character, so byte
  matching and substring search agree with matching on characters. A
  %-escaped query or path can decode to invalid UTF-8, which a string of
  characters cannot represent. Such bytes are never ASCII, so they would
  not match any of the three patterns anyway.
- `Text.Atoi` follows the documented behaviour of Go's `strconv.Atoi` on a
  64-bit platform, because that library code is not available. Any syntax or
  range error is None.
- QueryFilters.QueryFilterSet.Validate: on a refusal it states only that no more than text flags
  changed, not which filters were already annotated. Go's map iteration
  order is unspecified, so which reason is reported when several apply is
  left open too; the reported reason is proved to hold.

## Findings

| source | as written | input that shows it | evidently intended | confidence | as-written member | corrected member |
|---|---|---|---|---|---|---|
| cmd/api/src/api/v2/saved_queries.go:28 | the first byte of each sort_by value is read with no length check | a list request with an empty sort_by value, `?sort_by=` | the empty value is treated like any other column name, so it is refused with 400 when not sortable | not executed; medium | `SavedQueries.SortKeyAsWritten` (with `SavedQueries.EmptySortValuePanics`) | `SavedQueries.SplitSortValue` (used by `SavedQueries.ParseSortOrder`) |
