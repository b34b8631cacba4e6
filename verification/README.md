# Resource Access Manager backend, modelled in Dafny

This project models moto's in-memory Resource Access Manager (RAM) backend, `moto/ram/models.py`. It has two parts:

- `ResourceShare`, one resource share. Its principal list and its resource-ARN list grow through all-or-nothing validators. Its status, name and external-principals flag are overwritten in place.
- `ResourceAccessManagerBackend`, the list of shares of one account and region. It creates, lists, updates and (softly) deletes shares, and answers association queries. It also lists two constant catalogues: the shareable resource types and the managed permissions.

Files:

- `results.dfy`: `Option`, `Result` and `Outcome` (pass, or fail with an error).
- `seqs.dfy`: the shared patterns.
  - `Filter` is a list comprehension with an `if`; `IsSubsequence` states its order.
  - `FirstFailure` is a check-every-element-then-raise loop; `Validate` runs it as a method.
  - `Extend` is an append loop.
- `ram_text.dfy`: the regular expressions as character-class scanners.
  - `Literal` matches a fixed prefix; `Run`/`Span` match a longest run of a character class.
  - Each pattern gets a parser, a renderer and round-trip lemmas.
  - Also here: `Chomp` (the final newline that `$` lets through), `split(":")` and `lower()`.
- `ram_errors.dfy`: the four exception classes, and Python truthiness of optional string arguments (`Given`).
- `ram_catalog.dfy`: `RESOURCE_TYPES`, `PERMISSION_TYPES`, `MANAGED_PERMISSIONS`, `list_resource_types` and `list_permissions`.
- `resource_share.dfy`: the `ResourceShare` class, the principal and resource checks, and `SHAREABLE_RESOURCES`.
- `ram_backend.dfy`: the `Backend` class.
  - Its operations are proved against pure functions over `View()`, the list of share states: `FindShare`, `NewShare`, `DeleteShare`, `UpdateShare`, `ResourceShares` and `Associations`.
  - Lemmas about those functions carry the properties.

Modelling decisions:

- **Anchored patterns.** Every pattern is anchored with `^...$`. Python's `$` also matches just before one final newline. So each pattern body is applied to `Chomp(s)`, the input without one final `"\n"`. This is sound because no pattern body accepts a string ending in a newline. As a consequence, the code as written accepts `"123456789012\n"` as an account principal (`AccountIdPrincipalAccepted`), and accepts a resource ARN followed by one newline (`ShareableArnAccepted`).
- **Organizations.** The Organizations backend is an input, `Organizations(organizationArn, unitArns)`:
  - `organizationArn` is the ARN `describe_organization` reports;
  - `unitArns` is the set of ARNs of the organizational units directly under the root named `Root`.
  - The root lookup in `add_principals` tests `o-... in root["Arn"]` as a substring. An OU principal is accepted only when it equals the ARN of such a unit, and that unit's ARN carries the organization's own id. So the principal is accepted exactly when it is in `unitArns`.
- **Share ARN.** The partition and the random `uuid4` suffix of a share ARN are parameters (`partition`, `shareId`).
- **Checks before appends.** `ResourceShare.AddPrincipals` and `ResourceShare.AddResources` run every check in a first loop and append only afterwards, as the source does.

## Model

| member | source | states |
|---|---|---|
| RamText.Chomp | moto/ram/models.py:68-69 | `$` lets one final newline through: the result is the input, or the input is the result followed by `"\n"` exactly when the input ends in a newline |
| RamText.ChompNewline | moto/ram/models.py:108 | a string followed by one newline is read as that string |
| RamText.AccountIdShape | moto/ram/models.py:108 | `^\d{12}$` accepts twelve digits, optionally followed by one newline, and nothing else |
| RamText.MatchesAccountId | moto/ram/models.py:108 | `re.match(r"^\d{12}$", principal)`: the input, without one final newline, is twelve digits; `AccountIdShape` states which strings these are |
| RamText.Literal | moto/ram/models.py:68-69 | a literal prefix matches exactly when the input starts with it, and the rest is what follows it |
| RamText.Run | moto/ram/models.py:118-119 | splits the longest prefix of one character class from the rest; the rest starts outside the class |
| RamText.RunOf | moto/ram/models.py:118-119 | a run followed by a character outside its class is split off exactly |
| RamText.ParseOrganizationArn | moto/ram/models.py:67-70 | the body of the organization pattern, capturing the account and the `o-` id; `ParseOrganizationArnSound` and `OrganizationArnRoundTrip` state what it accepts |
| RamText.ParseOrganizationArnSound | moto/ram/models.py:67-69 | what the organization pattern accepts has twelve account digits and an `o-\w+` id, and its parts rebuild the input |
| RamText.OrganizationArnRoundTrip | moto/ram/models.py:67-69 | every well-formed organization ARN is accepted, with the id it was built from as the captured group |
| RamText.ParseUnitIds | moto/ram/models.py:81-83 | the two captured groups of an OU ARN are an `o-\w+` id and an `ou-[\w-]+` id, and rebuild the input |
| RamText.ParseUnitArn | moto/ram/models.py:80-83 | the body of the organizational-unit pattern, capturing the `o-` and `ou-` ids; `ParseUnitArnSound` and `UnitArnRoundTrip` state what it accepts |
| RamText.ParseUnitArnSound | moto/ram/models.py:81-83 | what the organizational-unit pattern accepts is well formed, and its parts rebuild the input |
| RamText.UnitArnRoundTrip | moto/ram/models.py:81-83 | every well-formed organizational-unit ARN is accepted, with both captured groups |
| RamText.ParseAccountAndType | moto/ram/models.py:118-119 | the `:<12 digits>:<type>[/:]<tail>` part of a resource ARN is parsed into parts that rebuild it |
| RamText.ParseResourceArn | moto/ram/models.py:117-120 | the body of the resource-ARN pattern, capturing the resource type; `ParseResourceArnSound` and `ResourceArnRoundTrip` state what it accepts |
| RamText.MatchResourceArn | moto/ram/models.py:117-121 | `re.search` with the resource-ARN pattern: its body applied to the input without one final newline |
| RamText.ParseResourceArnSound | moto/ram/models.py:117-120 | what the resource-ARN pattern accepts is a well-formed resource ARN, and its parts rebuild the input |
| RamText.ResourceArnRoundTrip | moto/ram/models.py:117-120 | every well-formed resource ARN is accepted, with its resource type as the captured group |
| RamText.ServicePart | moto/ram/models.py:875-880 | `split(":")[0]`: the longest colon-free prefix, ending where the first colon is |
| RamText.TypePart | moto/ram/models.py:875-880 | `split(":")[-1]`: the longest colon-free suffix, starting after the last colon |
| RamText.Lower | moto/ram/models.py:878-880 | `lower()`: same length, each ASCII capital replaced by its small letter |
| Seqs.Filter | moto/ram/models.py:857-861 | a list comprehension with an `if`: at most as long as its input; its elements are input elements that pass; every passing input element is kept |
| Seqs.FilterIsSubsequence | moto/ram/models.py:857-861 | the comprehension keeps the input order |
| Seqs.FilterFilter | moto/ram/models.py:883-905 | filtering by one condition and then another equals filtering once by both |
| Seqs.FirstFailure | moto/ram/models.py:67-111 | the outcome of a check-each-then-raise loop: the first failing element's error, or a pass; `FirstFailurePass` and `FirstFailureAt` characterise it |
| Seqs.FirstFailurePass | moto/ram/models.py:67-111 | a validating loop passes exactly when every element passes |
| Seqs.FirstFailureAt | moto/ram/models.py:67-111 | the error raised is that of the first failing element |
| Seqs.Validate | moto/ram/models.py:67-111 | the validating loop over the inputs returns the first element's error, or passes |
| Seqs.Extend | moto/ram/models.py:113-114 | the append loop leaves the old list followed by all the inputs, in order |
| RamCatalog.ListResourceTypes | moto/ram/models.py:845-863 | a scope outside ALL/REGIONAL/GLOBAL fails with the source's message; ALL (the default) returns the whole table; any other scope returns exactly the comprehension `Filter(InScope(scope), ResourceTypes)`, so the entries of that scope in table order with their multiplicity |
| RamCatalog.SelectPermissions | moto/ram/models.py:865-907 | an unknown resource type fails first; then a permission type outside ALL/AWS/LOCAL fails; success exactly for valid arguments; the result is exactly `Filter(Selected(resourceType, permissionType), catalogue)`: the entries whose type part matches (ignoring case) and whose permission type matches, in catalogue order, with their multiplicity |
| RamCatalog.ListPermissions | moto/ram/models.py:865-907 | `list_permissions` over `MANAGED_PERMISSIONS`, with the permission type defaulting to ALL: success exactly for valid arguments, and the result is the filter of `MANAGED_PERMISSIONS` by both conditions |
| RamCatalog.AllManaged | moto/ram/models.py:249-694 | every managed permission is AWS_MANAGED |
| RamCatalog.LocalSelectsCustomerManagedOnly | moto/ram/models.py:883-905 | over a catalogue with no CUSTOMER_MANAGED entry, LOCAL lists nothing and AWS lists everything |
| RamCatalog.ManagedPermissionsByType | moto/ram/models.py:865-907 | `list_permissions(permissionType=LOCAL)` is empty, and AWS returns the whole catalogue |
| RamShares.ShareArn | moto/ram/models.py:46-60 | `arn:<partition>:ram:<region>:<account>:resource-share/<id>` |
| RamShares.InitialState | moto/ram/models.py:46-60 | the state `__init__` sets: the ARN, name and account; external principals allowed unless given; STANDARD; ACTIVE; no principals or resources |
| RamShares.UpdateState | moto/ram/models.py:150-155 | `update`: each supplied setting replaces the old one, the others stay; `UpdateStateKeeps` states its properties |
| RamShares.UpdateStateKeeps | moto/ram/models.py:150-155 | an update supplying nothing changes nothing; repeating an update changes nothing more; ARN, status and both lists are never touched |
| RamShares.CheckPrincipal | moto/ram/models.py:67-111 | rejects with UnknownResource exactly an organization ARN other than the caller's organization, or an OU ARN not under its root; rejects with InvalidParameter exactly what matches none of the three patterns; each rejection carries the source's message (the organization id, the OU id, or the principal itself) |
| RamShares.CheckResource | moto/ram/models.py:116-129 | accepts exactly an ARN that matches the resource pattern with a shareable type; every rejection is MalformedArn, with the "is not valid" message when the pattern fails and the "cannot share the selected resource type" message when only the type is not shareable |
| RamShares.CheckPrincipals | moto/ram/models.py:67-111 | the first loop of `add_principals`: the first failing principal's error, or a pass |
| RamShares.CheckResources | moto/ram/models.py:116-129 | the first loop of `add_resources`: the first failing ARN's error, or a pass |
| RamShares.PrincipalsAcceptedIffEach | moto/ram/models.py:67-111 | the principal list is accepted exactly when each principal is |
| RamShares.ResourcesAcceptedIffEach | moto/ram/models.py:116-129 | the ARN list is accepted exactly when each ARN is |
| RamShares.RenderedArnHasNoFinalNewline | moto/ram/models.py:118-119 | a well-formed resource ARN never ends in a newline, so `$` reads it unchanged |
| RamShares.ShareableArnAccepted | moto/ram/models.py:116-129 | a well-formed resource ARN, with or without one final newline, is accepted exactly when its type is in `SHAREABLE_RESOURCES` |
| RamShares.AcceptedArnIsWellFormed | moto/ram/models.py:116-129 | whatever add_resources accepts is a well-formed ARN of a shareable type, possibly followed by one newline |
| RamShares.AccountIdPrincipalAccepted | moto/ram/models.py:108-111 | twelve digits, with or without one final newline, are accepted as a principal under any Organizations state |
| RamShares.ResourceShare.constructor | moto/ram/models.py:46-60 | a new share is ACTIVE and STANDARD, has the given name, the ARN built from partition, region, account and id, no principals or resources, and allows external principals unless told otherwise |
| RamShares.ResourceShare.AddPrincipals | moto/ram/models.py:66-114 | returns the first principal's error and changes nothing; or appends every principal, in order, duplicates kept, and changes nothing else |
| RamShares.ResourceShare.AddResources | moto/ram/models.py:116-132 | returns the first ARN's error and changes nothing; or appends every ARN in order and changes nothing else |
| RamShares.ResourceShare.Delete | moto/ram/models.py:134-136 | only the status changes, to DELETED |
| RamShares.ResourceShare.Update | moto/ram/models.py:150-155 | name and flag take the supplied values and keep their own otherwise; nothing else changes |
| RamBackend.FindShare | moto/ram/models.py:736-738 | `next(...)` finds the first share with the ARN; it finds none exactly when no share has it |
| RamBackend.FindShareAt | moto/ram/models.py:736-738 | a share with the ARN and none before it is the one found |
| RamBackend.NewShare | moto/ram/models.py:704-714 | create succeeds exactly when both validations pass; a principal error is returned first, and otherwise the resource error; the new share is ACTIVE, STANDARD, with the given principals and ARNs in order, and `allowExternalPrincipals` defaults to true |
| RamBackend.UpdateShare | moto/ram/models.py:734-748 | `update_resource_share` on the list: UnknownResource for an absent ARN, otherwise the first share with the ARN updated; `UpdateKeepsOthers` and `UnknownArnRejected` state its properties |
| RamBackend.DeleteShare | moto/ram/models.py:750-760 | `delete_resource_share` on the list: UnknownResource for an absent ARN, otherwise the first share with the ARN marked DELETED; `DeleteIsSoft`, `DeleteIsRepeatable` and `UnknownArnRejected` state its properties |
| RamBackend.UnknownArnRejected | moto/ram/models.py:734-760 | update and delete fail exactly on an ARN no share has, with UnknownResource "ResourceShare ... could not be found." |
| RamBackend.DeleteIsSoft | moto/ram/models.py:750-760 | after delete the list has the same length and ARNs; only the first share with the ARN changes, and only its status, to DELETED |
| RamBackend.DeleteIsRepeatable | moto/ram/models.py:750-760 | a deleted share is still found, and deleting it again leaves the same list |
| RamBackend.UpdateKeepsOthers | moto/ram/models.py:734-748 | update changes only the name and flag of the first share with the ARN; unsupplied fields keep their values; ARNs, status and lists stay |
| RamBackend.AppendedShareFound | moto/ram/models.py:704-714 | a share appended under a new ARN is the one later lookups of that ARN find |
| RamBackend.Describe | moto/ram/models.py:138-148 | `describe()` without the timestamps: the flag, feature set, name, account, ARN and status name |
| RamBackend.Summary | moto/ram/models.py:711-712 | the create and update response: `describe()` with `featureSet` removed |
| RamBackend.ResourceShares | moto/ram/models.py:716-732 | SELF lists the description of every share in order; OTHER-ACCOUNTS is NotImplemented; any other owner is InvalidParameter with the source's message |
| RamBackend.DeletedShareStillListed | moto/ram/models.py:716-760 | after a delete, `get_resource_shares` still lists the share, with status DELETED |
| RamBackend.CheckAssociationQuery | moto/ram/models.py:769-799 | a query passes exactly when its type is PRINCIPAL or RESOURCE, a given status is one of the five, and no resource ARN comes with PRINCIPAL and no principal with RESOURCE; every rejection is InvalidParameter, and a bad type is reported first, with the source's message |
| RamBackend.AssociationQueryChecksInOrder | moto/ram/models.py:776-799 | once the type is valid, a bad status is reported next with its message, then a resource ARN on a PRINCIPAL query, then a principal on a RESOURCE query |
| RamBackend.EntityAssociations | moto/ram/models.py:806-841 | the entity loop of one share: one association per listed entity passing the filter, in list order |
| RamBackend.ShareReport | moto/ram/models.py:803-841 | one share's associations: none when the ARN filter excludes it, otherwise those of its principals or its resource ARNs |
| RamBackend.Associations | moto/ram/models.py:801-843 | the associations of a list of shares, in share order |
| RamBackend.ShareAssociations | moto/ram/models.py:768-843 | `get_resource_share_associations` on the list: the query check's error, otherwise `Associations` of the shares |
| RamBackend.UnfilteredEntities | moto/ram/models.py:807-843 | without an entity filter, a share reports one association per list entry, in list order, duplicates kept |
| RamBackend.EntityAssociationsMembers | moto/ram/models.py:807-843 | a share reports exactly the entries of its list that pass the entity filter |
| RamBackend.AssociationsSnoc | moto/ram/models.py:801-843 | one more share adds its own associations after the others |
| RamBackend.AssociationsPrefix | moto/ram/models.py:801-843 | the shares up to position `i` report those before it, then the share at `i` |
| RamBackend.AssociationsAppend | moto/ram/models.py:801-843 | associations come in share order: those of a concatenated list are those of each part, one after the other |
| RamBackend.AssociationsMembers | moto/ram/models.py:801-843 | an association is reported exactly when it comes from a share passing the ARN filter and a list entry passing the entity filter; it carries the query's type, the requested status or ASSOCIATED, and is never external |
| RamBackend.CreatedShareReportsPrincipals | moto/ram/models.py:801-825 | after a share is appended, an unfiltered PRINCIPAL query reports the earlier associations followed by one per principal of the new share, in order, status ASSOCIATED |
| RamBackend.CollectShareReport | moto/ram/models.py:803-841 | the inner loop returns that share's associations |
| RamBackend.BuildShare | moto/ram/models.py:705-707 | a fresh share object: with the new share's state when both validations pass, otherwise the first validation error |
| RamBackend.Backend.Append | moto/ram/models.py:709 | the share object goes at the end of the list, the earlier objects stay in place, and the earlier shares' states are unchanged |
| RamBackend.Backend.constructor | moto/ram/models.py:696-698 | a new backend has no shares |
| RamBackend.Backend.Lookup | moto/ram/models.py:736-738 | the search loop returns the position of the first share with the ARN |
| RamBackend.Backend.CreateResourceShare | moto/ram/models.py:704-714 | on success exactly one fresh share object is appended after the old ones, with the new state, and its summary is returned; on either validation error the list of share objects and their states are unchanged |
| RamBackend.Backend.GetResourceShares | moto/ram/models.py:716-732 | SELF succeeds, with the description of each current share at its position; every other owner fails as `get_resource_shares` does |
| RamBackend.Backend.UpdateResourceShare | moto/ram/models.py:734-748 | the share list becomes `UpdateShare` of the old one and the updated share's summary is returned; on an unknown ARN nothing changes |
| RamBackend.Backend.DeleteResourceShare | moto/ram/models.py:750-760 | the share list becomes `DeleteShare` of the old one and `true` is returned; on an unknown ARN nothing changes |
| RamBackend.Backend.GetResourceShareAssociations | moto/ram/models.py:768-843 | an invalid query returns its error; otherwise the associations of the current shares, in share order and then list order |
| RamBackend.Backend.CollectAssociations | moto/ram/models.py:801-843 | the outer loop collects the associations of every share, in order |

## Left out

- The Organizations backend is an input (`Organizations`), not modelled. This covers `describe_organization`, `list_roots` and `list_organizational_units_for_parent`. Its own errors (for example, no organization) are not modelled.
- `enable_sharing_with_aws_organization` is not modelled. It only asks the Organizations backend whether an organization exists.
- `random_resource_id` and `uuid4` are not modelled; the share id is a parameter. `get_partition` is also not modelled; the partition is a parameter.
- Timestamps (`creationTime`, `lastUpdatedTime`) are not modelled. `describe()` is modelled without them, as `Describe`.
- `BackendDict` registration is not modelled.
- `\d`, `\w` and `str.lower()` are modelled on ASCII only. Python also accepts other Unicode digits, letters and case mappings.
- `Permission` keeps only `name`, `resourceType` and `permissionType`. The other fields of a managed-permission entry are dropped from what `ListPermissions` returns: `arn`, `version`, `defaultVersion`, `status`, `creationTime`, `lastUpdatedTime` and `isResourceTypeDefault`.
- The object left behind by a failed `create_resource_share` is not modelled, because it is never stored.
- Keyword arguments passed explicitly as `None` are not modelled. Optional arguments are `Option` values: absent means the default.
