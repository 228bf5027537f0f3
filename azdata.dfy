/**
 * The host (`azdata` / `vscode`) shapes a tree data provider consumes and
 * produces: accounts, tree items and the connection profile a leaf carries.
 * The fields the provider may leave unset are explicit `Option`s; the
 * fields it always sets are plain values.
 */
module Azdata {
  import Wrappers
  import opened Azurecore

  /** vscode's `TreeItemCollapsibleState`. */
  datatype TreeItemCollapsibleState = None | Collapsed | Expanded

  /** `azdata.ExtensionNodeType`; the kinds other than `Server` are kept by name. */
  datatype ExtensionNodeType = Server | OtherNodeType(name: string)

  /** `azdata.connection.AuthenticationType`; the modes other than `AzureMFA` are kept by name. */
  datatype AuthenticationType = AzureMFA | OtherAuthenticationType(name: string)

  datatype AccountKey = AccountKey(accountId: string)

  /** `azdata.Account`, with `properties` already read as `AzureAccountProperties`. */
  datatype Account = Account(key: AccountKey, properties: AzureAccountProperties)

  /** Themed icon references of a tree item. */
  datatype IconPath = IconPath(dark: string, light: string)

  /** `azdata.IConnectionProfile`, the payload of a leaf tree item. */
  datatype ConnectionProfile = ConnectionProfile(
    id: string,
    connectionName: string,
    serverName: string,
    userName: string,
    password: string,
    authenticationType: AuthenticationType,
    savePassword: bool,
    groupFullName: string,
    groupId: string,
    providerName: string,
    saveProfile: bool,
    options: map<string, string>,
    azureAccount: string,
    azureTenantId: string,
    azureResourceId: Wrappers.Option<string>,
    azurePortalEndpoint: Wrappers.Option<string>
  )

  /** `azdata.TreeItem`; `label` and `type` are Dafny keywords, so they are spelled `labelText` and `nodeType`. */
  datatype TreeItem = TreeItem(
    id: string,
    labelText: string,
    iconPath: IconPath,
    collapsibleState: TreeItemCollapsibleState,
    contextValue: string,
    payload: Wrappers.Option<ConnectionProfile>,
    childProvider: Wrappers.Option<string>,
    nodeType: Wrappers.Option<ExtensionNodeType>
  )

  /** A leaf: not expandable, a server node, carrying exactly one connection profile. */
  predicate IsLeaf(item: TreeItem) {
    item.collapsibleState == None && item.payload.Some? && item.nodeType == Wrappers.Some(Server)
  }

  /** A container: collapsed until the host expands it, carrying no profile. */
  predicate IsContainer(item: TreeItem) {
    item.collapsibleState == Collapsed && item.payload.None?
  }

  /** A leaf whose child provider is the driver named in its own profile. */
  predicate HandledByOwnProvider(item: TreeItem) {
    item.payload.Some? && item.childProvider == Wrappers.Some(item.payload.value.providerName)
  }
}
