# CosmosDB NoSql tree data provider, modelled in Dafny

The Azure resource view of the azurecore extension shows, per resource
category, a container node at the root of the tree and, under it, one leaf per
discovered database server of the signed-in account. This project models the
CosmosDB NoSql category's provider (`CosmosDbNoSqlTreeDataProvider`):

- `getRootChildren` returns the single static container node: a fixed id, the
  localized label, folder icons, the collapsed state, the
  `databaseServerContainer` context tag and no payload.
- `getTreeItemForResource` maps one discovered server and its account to a
  leaf: the node id `cosmosdb prefix ++ accountId ++ (resource id ?? name)`,
  the label `name ++ " (CosmosDB NoSql API)"`, CosmosDB icons, the `None`
  collapsible state, the `cosmosDBNoSqlAccount` context tag, the NoSql driver
  as child provider, the `Server` node type, and a connection profile that
  copies the server's and the account's identity and fixes everything else.

Both operations are pure: they are Dafny functions over explicit record
datatypes (`azurecore.dfy`, `azdata.dfy`). The fields the provider may leave
unset (the resource id, the portal endpoint, the payload, the child provider
and the node type) are `Option`s; fields it always sets are plain values. The contract of `GetTreeItemForResource` states each field
through an independent view: the node id parses back (`ParseNodeId`) to the
server key, and the label parses back (`NameOfLabel`) to the server name. The
profile fields are stated by `CopiesIdentity` and `HasFixedSettings`. The
lemmas in `cosmos_db_no_sql_properties.dfy` prove the following:

- both parsers are exact inverses of the builders;
- the contract pins the item down completely;
- repeated calls differ only in the fresh profile id;
- the node id follows the name exactly when the resource id is absent;
- the name fallback is not carried into `azureResourceId`;
- node ids are not unique across accounts.

Collaborators are parameters:

- the extension context's `asAbsolutePath` is the function field of `ExtensionContext`;
- `generateGuid()` is the `guid` argument;
- the localized container label is the constant `ContainerLabel`;
- the constants the provider imports (`AzureResourcePrefixes.cosmosdb`,
  `cosmosDBNoSqlProvider`, the two `AzureResourceItemType` tags) are in
  `constants.dfy`. Their values are defined in the extension's constants
  file, which is not part of this model. They are declared without a value, so
  every property holds whatever the strings are.

A missing `portalEndpoint` setting is not a failure: the code copies it into
the profile as absent (source line 54), and the model does the same. Both
`Settings.portalEndpoint` and `azurePortalEndpoint` are `Option<string>`.

## Model

| member | source | states |
|---|---|---|
| CosmosDbNoSqlTreeDataProvider.GetTreeItemForResource | extensions/azurecore/src/azureResource/providers/cosmosdb/nosql/cosmosDbNoSqlTreeDataProvider.ts:28-59 | The item is a leaf: no children, a `Server` node, exactly one profile. Its child provider is its profile's driver. Its id parses back to `id ?? name` under the account. Its label parses back to the server name. It has the CosmosDB icons and the `cosmosDBNoSqlAccount` tag. Its profile id is the fresh guid. The profile copies name, login, account, tenant, raw resource id and portal endpoint unchanged. The profile has empty password and groups, AzureMFA, savePassword true, saveProfile false, no options, and the NoSql driver |
| CosmosDbNoSqlTreeDataProvider.GetRootChildren | extensions/azurecore/src/azureResource/providers/cosmosdb/nosql/cosmosDbNoSqlTreeDataProvider.ts:61-72 | Exactly one node: a collapsed container with no payload, the fixed CONTAINER_ID, the localized CONTAINER_LABEL, the folder icons and the `databaseServerContainer` tag. It has no child provider and no node type |
| CosmosDbNoSqlTreeDataProvider.ResourceKey | extensions/azurecore/src/azureResource/providers/cosmosdb/nosql/cosmosDbNoSqlTreeDataProvider.ts:30 | The server key is the resource id when it is present and the server name when it is absent (`id ?? name`) |
| CosmosDbNoSqlTreeDataProvider.NodeId | extensions/azurecore/src/azureResource/providers/cosmosdb/nosql/cosmosDbNoSqlTreeDataProvider.ts:30 | The node id is the category prefix, then the account id, then the server key, with nothing between them and nothing after. Its length is the sum of the three |
| CosmosDbNoSqlTreeDataProvider.Label | extensions/azurecore/src/azureResource/providers/cosmosdb/nosql/cosmosDbNoSqlTreeDataProvider.ts:31 | The leaf label starts with the server name and ends with exactly " (CosmosDB NoSql API)", with nothing else |
| CosmosDbNoSqlProperties.NodeIdRoundTrip | extensions/azurecore/src/azureResource/providers/cosmosdb/nosql/cosmosDbNoSqlTreeDataProvider.ts:30 | Parsing a node id under its account gives back the server key it was built from |
| CosmosDbNoSqlProperties.ParseNodeIdSound | extensions/azurecore/src/azureResource/providers/cosmosdb/nosql/cosmosDbNoSqlTreeDataProvider.ts:30 | Anything that parses as a node id of an account is exactly the node id of the key it yields |
| CosmosDbNoSqlProperties.NodeIdInjectiveInKey | extensions/azurecore/src/azureResource/providers/cosmosdb/nosql/cosmosDbNoSqlTreeDataProvider.ts:30 | Under one account, two node ids are equal if and only if their server keys are equal |
| CosmosDbNoSqlProperties.LabelRoundTrip | extensions/azurecore/src/azureResource/providers/cosmosdb/nosql/cosmosDbNoSqlTreeDataProvider.ts:31 | Parsing a leaf label gives back the server name |
| CosmosDbNoSqlProperties.NameOfLabelSound | extensions/azurecore/src/azureResource/providers/cosmosdb/nosql/cosmosDbNoSqlTreeDataProvider.ts:31 | Anything that parses as a leaf label is exactly the label of the name it yields |
| CosmosDbNoSqlProperties.LabelInjective | extensions/azurecore/src/azureResource/providers/cosmosdb/nosql/cosmosDbNoSqlTreeDataProvider.ts:31 | Two leaf labels are equal if and only if the server names are |
| CosmosDbNoSqlProperties.DescribesServerDeterminesItem | extensions/azurecore/src/azureResource/providers/cosmosdb/nosql/cosmosDbNoSqlTreeDataProvider.ts:28-58 | Any item that meets the contract of `GetTreeItemForResource` for a server, account and guid equals the item the provider builds. The contract leaves no field free |
| CosmosDbNoSqlProperties.GetTreeItemForResourceDeterministic | extensions/azurecore/src/azureResource/providers/cosmosdb/nosql/cosmosDbNoSqlTreeDataProvider.ts:29-58 | Two calls with the same server and account agree in every field except `payload.id`. They are equal if and only if they were given the same guid |
| CosmosDbNoSqlProperties.NodeIdFollowsNameWithoutId | extensions/azurecore/src/azureResource/providers/cosmosdb/nosql/cosmosDbNoSqlTreeDataProvider.ts:30 | With the resource id absent, two servers of one account get the same node id if and only if they have the same name. Changing the name changes the node id |
| CosmosDbNoSqlProperties.NodeIdFollowsIdWhenPresent | extensions/azurecore/src/azureResource/providers/cosmosdb/nosql/cosmosDbNoSqlTreeDataProvider.ts:30 | With the resource id present, two servers of one account get the same node id if and only if their ids are equal, whatever their names |
| CosmosDbNoSqlProperties.ResourceIdNotConflatedWithFallback | extensions/azurecore/src/azureResource/providers/cosmosdb/nosql/cosmosDbNoSqlTreeDataProvider.ts:30-53 | Two servers can share a node id (one by name fallback, one by id) while their profiles carry different `azureResourceId`s. The fallback is not copied into the profile |
| CosmosDbNoSqlProperties.NodeIdAmbiguousAcrossAccounts | extensions/azurecore/src/azureResource/providers/cosmosdb/nosql/cosmosDbNoSqlTreeDataProvider.ts:30 | Different accounts can give their servers the same node id, because the concatenation has no separator |
| CosmosDbNoSqlProperties.RootChildrenIgnoreContext | extensions/azurecore/src/azureResource/providers/cosmosdb/nosql/cosmosDbNoSqlTreeDataProvider.ts:61-72 | The root node is the same under every extension context apart from its icon paths |
| CosmosDbNoSqlProperties.LeafIsNotRootChild | extensions/azurecore/src/azureResource/providers/cosmosdb/nosql/cosmosDbNoSqlTreeDataProvider.ts:36-70 | A leaf built for any server is not a container (state None with a payload, against Collapsed without one). No root child is a leaf, and the leaf is never among the root children |

## Left out

- Icon-path resolution (`asAbsolutePath`) is a host call. It is a function parameter, and nothing is claimed about the paths it returns.
- `generateGuid()` is an external id source. It is the `guid` argument, and nothing is claimed about its uniqueness.
- Localization of the container label is a module-level bundle lookup. `ContainerLabel` is a constant of unknown value.
- The values of the imported constants live in a file that is not part of this model. They are constants without a value.
- `getRootChildren` is `async` but never awaits. It is modelled as a plain function returning the list.
- Child enumeration, caching and the resource-listing service belong to `ResourceTreeDataProviderBase` and `IAzureResourceService`, which are not part of this model.
- The cast of `account.properties` to `AzureAccountProperties` is a runtime reinterpretation. The account record has the nested provider settings as a required field. The TypeError a missing `providerSettings` or `settings` object would raise is not modelled.
- Fields of the server and account records that the provider does not read (full name, default database, subscription, and so on) are omitted.
- The profile's `options` bag holds arbitrary values in TypeScript. It is a `map<string, string>`, and the provider always leaves it empty.
- Authentication types and node types other than `AzureMFA` and `Server` are kept only by name.
