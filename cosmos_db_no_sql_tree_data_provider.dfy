/**
 * The CosmosDB NoSql tree data provider: the static container node shown at
 * the root of the category, and the mapping of one discovered database server
 * of an account to a leaf tree item carrying a connection profile.
 *
 * The host's path resolver is a field of `ExtensionContext`; the unique id
 * of each new profile is the parameter `guid`; the localized container label
 * is a constant whose value is not known here.
 */
module CosmosDbNoSqlTreeDataProvider {
  import opened Wrappers
  import opened Azurecore
  import opened Azdata
  import opened Constants

  /** The fixed id of the container node. */
  const ContainerId := "azure.resource.providers.databaseServer.treeDataProvider.cosmosDbNoSqlContainer"

  /** The container's label, localized once when the module is loaded. */
  const ContainerLabel: string

  /** What follows the server name in a leaf's label. */
  const LabelSuffix := " (CosmosDB NoSql API)"

  const LeafDarkIcon := "resources/dark/cosmosdb_inverse.svg"
  const LeafLightIcon := "resources/light/cosmosdb.svg"
  const ContainerDarkIcon := "resources/dark/folder_inverse.svg"
  const ContainerLightIcon := "resources/light/folder.svg"

  /** The extension context's `asAbsolutePath`, the host's icon-path resolver. */
  datatype ExtensionContext = ExtensionContext(asAbsolutePath: string -> string)

  /** The part of the node id that names the server: its resource id, or its name when the id is absent. */
  function ResourceKey(server: AzureResourceDatabaseServer): (key: string)
    ensures server.id.Some? ==> key == server.id.value
    ensures server.id.None? ==> key == server.name
  {
    server.id.GetOr(server.name)
  }

  /** The tree-node id of a server with key `key` under the account `accountId`. */
  function NodeId(accountId: string, key: string): (nodeId: string)
    ensures |nodeId| == |CosmosDbPrefix| + |accountId| + |key|
    ensures nodeId[..|CosmosDbPrefix|] == CosmosDbPrefix
    ensures nodeId[|CosmosDbPrefix|..|CosmosDbPrefix| + |accountId|] == accountId
    ensures nodeId[|CosmosDbPrefix| + |accountId|..] == key
  {
    CosmosDbPrefix + accountId + key
  }

  /** Recovers the server key from a node id of the account `accountId`, if it is one. */
  function ParseNodeId(accountId: string, nodeId: string): Option<string> {
    var head := CosmosDbPrefix + accountId;
    if |head| <= |nodeId| && nodeId[..|head|] == head then Some(nodeId[|head|..]) else Option.None
  }

  /** The label of a leaf for the server named `name`. */
  function Label(name: string): (text: string)
    ensures |text| == |name| + |LabelSuffix|
    ensures text[..|name|] == name
    ensures text[|name|..] == LabelSuffix
  {
    name + LabelSuffix
  }

  /** Recovers the server name from a leaf label, if it is one. */
  function NameOfLabel(text: string): Option<string> {
    if |LabelSuffix| <= |text| && text[|text| - |LabelSuffix|..] == LabelSuffix
    then Some(text[..|text| - |LabelSuffix|])
    else Option.None
  }

  /** The profile copies the identity of the server and of the account, unchanged. */
  predicate CopiesIdentity(profile: ConnectionProfile, server: AzureResourceDatabaseServer, account: Account) {
    && profile.connectionName == server.name
    && profile.serverName == server.name
    && profile.userName == server.loginName
    && profile.azureAccount == account.key.accountId
    && profile.azureTenantId == server.tenant
    && profile.azureResourceId == server.id
    && profile.azurePortalEndpoint == account.properties.providerSettings.settings.portalEndpoint
  }

  /**
   * The profile has the settings every CosmosDB NoSql profile has: no stored
   * password (but the resolved one may be saved), Azure MFA, no group, the
   * NoSql driver, not saved, no options.
   */
  predicate HasFixedSettings(profile: ConnectionProfile) {
    && profile.password == ""
    && profile.authenticationType == AzureMFA
    && profile.savePassword
    && profile.groupFullName == ""
    && profile.groupId == ""
    && profile.providerName == CosmosDbNoSqlProvider
    && !profile.saveProfile
    && profile.options == map[]
  }

  /**
   * `item` is the leaf for `server` of `account`, with the fresh profile id
   * `guid`: each field is stated through what it means rather than how it is
   * built (the node id parses back to the server key, the label back to the
   * server name).
   */
  predicate DescribesServer(item: TreeItem, context: ExtensionContext, server: AzureResourceDatabaseServer,
                            account: Account, guid: string)
  {
    && IsLeaf(item)
    && HandledByOwnProvider(item)
    && ParseNodeId(account.key.accountId, item.id) == Some(ResourceKey(server))
    && NameOfLabel(item.labelText) == Some(server.name)
    && item.iconPath == IconPath(context.asAbsolutePath(LeafDarkIcon), context.asAbsolutePath(LeafLightIcon))
    && item.contextValue == CosmosDbNoSqlAccount
    && item.payload.value.id == guid
    && CopiesIdentity(item.payload.value, server, account)
    && HasFixedSettings(item.payload.value)
  }

  /** `getTreeItemForResource`: the leaf tree item of one discovered server. */
  function GetTreeItemForResource(context: ExtensionContext, server: AzureResourceDatabaseServer,
                                  account: Account, guid: string): (item: TreeItem)
    ensures DescribesServer(item, context, server, account, guid)
  {
    var accountId := account.key.accountId;
    var profile := ConnectionProfile(
      id := guid,
      connectionName := server.name,
      serverName := server.name,
      userName := server.loginName,
      password := "",
      authenticationType := AzureMFA,
      savePassword := true,
      groupFullName := "",
      groupId := "",
      providerName := CosmosDbNoSqlProvider,
      saveProfile := false,
      options := map[],
      azureAccount := accountId,
      azureTenantId := server.tenant,
      azureResourceId := server.id,
      azurePortalEndpoint := account.properties.providerSettings.settings.portalEndpoint);
    var nodeId := NodeId(accountId, ResourceKey(server));
    var text := Label(server.name);
    TreeItem(
      id := nodeId,
      labelText := text,
      iconPath := IconPath(context.asAbsolutePath(LeafDarkIcon), context.asAbsolutePath(LeafLightIcon)),
      collapsibleState := TreeItemCollapsibleState.None,
      contextValue := CosmosDbNoSqlAccount,
      payload := Some(profile),
      childProvider := Some(CosmosDbNoSqlProvider),
      nodeType := Some(Server))
  }

  /** `getRootChildren`: exactly one container node, the same for every account and listing state. */
  function GetRootChildren(context: ExtensionContext): (items: seq<TreeItem>)
    ensures |items| == 1
    ensures IsContainer(items[0])
    ensures items[0].id == ContainerId && items[0].labelText == ContainerLabel
    ensures items[0].contextValue == DatabaseServerContainer
    ensures items[0].iconPath == IconPath(context.asAbsolutePath(ContainerDarkIcon), context.asAbsolutePath(ContainerLightIcon))
    ensures items[0].childProvider.None? && items[0].nodeType.None?
  {
    [TreeItem(
      id := ContainerId,
      labelText := ContainerLabel,
      iconPath := IconPath(context.asAbsolutePath(ContainerDarkIcon), context.asAbsolutePath(ContainerLightIcon)),
      collapsibleState := Collapsed,
      contextValue := DatabaseServerContainer,
      payload := Option.None,
      childProvider := Option.None,
      nodeType := Option.None)]
  }
}
