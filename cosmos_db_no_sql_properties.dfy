/**
 * Properties of the CosmosDB NoSql tree data provider that relate several
 * calls or hold for all inputs: node ids and labels parse back to what they
 * were built from, the contract of `GetTreeItemForResource` pins the item
 * down completely, repeated calls differ only in the fresh profile id, the
 * id fallback is independent of the profile's resource id, and node ids are
 * not unique across accounts.
 */
module CosmosDbNoSqlProperties {
  import opened Wrappers
  import opened Azurecore
  import opened Azdata
  import opened Constants
  import opened CosmosDbNoSqlTreeDataProvider

  /** A node id parses back to the server key it was built from. */
  lemma NodeIdRoundTrip(accountId: string, key: string)
    ensures ParseNodeId(accountId, NodeId(accountId, key)) == Some(key)
  {
  }

  /** Whatever parses as a node id of an account is the node id of the key it yields. */
  lemma ParseNodeIdSound(accountId: string, nodeId: string)
    requires ParseNodeId(accountId, nodeId).Some?
    ensures NodeId(accountId, ParseNodeId(accountId, nodeId).value) == nodeId
  {
  }

  /** Under one account, the node id determines the server key and vice versa. */
  lemma NodeIdInjectiveInKey(accountId: string, key1: string, key2: string)
    ensures NodeId(accountId, key1) == NodeId(accountId, key2) <==> key1 == key2
  {
  }

  /** A leaf label parses back to the server name. */
  lemma LabelRoundTrip(name: string)
    ensures NameOfLabel(Label(name)) == Some(name)
  {
  }

  /** Whatever parses as a leaf label is the label of the name it yields. */
  lemma NameOfLabelSound(text: string)
    requires NameOfLabel(text).Some?
    ensures Label(NameOfLabel(text).value) == text
  {
  }

  /** Two servers have the same leaf label exactly when they have the same name. */
  lemma LabelInjective(name1: string, name2: string)
    ensures Label(name1) == Label(name2) <==> name1 == name2
  {
  }

  /**
   * The contract of `GetTreeItemForResource` is complete: the only item that
   * describes a server of an account with profile id `guid` is the one the
   * provider builds.
   */
  lemma DescribesServerDeterminesItem(item: TreeItem, context: ExtensionContext,
                                      server: AzureResourceDatabaseServer, account: Account, guid: string)
    requires DescribesServer(item, context, server, account, guid)
    ensures item == GetTreeItemForResource(context, server, account, guid)
  {
  }

  /** `a` and `b` agree in every field except the payload's own id. */
  predicate SameExceptProfileId(a: TreeItem, b: TreeItem) {
    && a.payload.Some? && b.payload.Some?
    && a.(payload := Some(a.payload.value.(id := b.payload.value.id))) == b
  }

  /**
   * Mapping the same server of the same account twice gives the same item
   * except for the profile id, which is the one fresh id each call is given;
   * the items are equal exactly when the two ids are.
   */
  lemma GetTreeItemForResourceDeterministic(context: ExtensionContext, server: AzureResourceDatabaseServer,
                                            account: Account, guid1: string, guid2: string)
    ensures SameExceptProfileId(GetTreeItemForResource(context, server, account, guid1),
                                GetTreeItemForResource(context, server, account, guid2))
    ensures (GetTreeItemForResource(context, server, account, guid1)
             == GetTreeItemForResource(context, server, account, guid2)) <==> guid1 == guid2
  {
  }

  /** With the resource id absent, the node id follows the server name: it changes exactly when the name does. */
  lemma NodeIdFollowsNameWithoutId(context: ExtensionContext, server1: AzureResourceDatabaseServer,
                                   server2: AzureResourceDatabaseServer, account: Account, guid1: string, guid2: string)
    requires server1.id.None? && server2.id.None?
    ensures (GetTreeItemForResource(context, server1, account, guid1).id
             == GetTreeItemForResource(context, server2, account, guid2).id) <==> server1.name == server2.name
  {
  }

  /** With the resource id present, the node id follows the id and not the name. */
  lemma NodeIdFollowsIdWhenPresent(context: ExtensionContext, server1: AzureResourceDatabaseServer,
                                   server2: AzureResourceDatabaseServer, account: Account, guid1: string, guid2: string)
    requires server1.id.Some? && server2.id.Some?
    ensures (GetTreeItemForResource(context, server1, account, guid1).id
             == GetTreeItemForResource(context, server2, account, guid2).id) <==> server1.id == server2.id
  {
  }

  /**
   * The name fallback of the node id is not carried into the profile: a
   * server without an id and a server whose id is the other's name share a
   * node id, yet their profiles carry different resource ids.
   */
  lemma ResourceIdNotConflatedWithFallback(context: ExtensionContext, account: Account, guid: string)
    ensures exists server1: AzureResourceDatabaseServer, server2: AzureResourceDatabaseServer ::
      && GetTreeItemForResource(context, server1, account, guid).id
         == GetTreeItemForResource(context, server2, account, guid).id
      && GetTreeItemForResource(context, server1, account, guid).payload.value.azureResourceId
         != GetTreeItemForResource(context, server2, account, guid).payload.value.azureResourceId
  {
    var server1 := AzureResourceDatabaseServer("srv", Option.None, "admin", "tenant");
    var server2 := AzureResourceDatabaseServer("other", Some("srv"), "admin", "tenant");
    assert GetTreeItemForResource(context, server1, account, guid).id
           == GetTreeItemForResource(context, server2, account, guid).id;
  }

  /**
   * Node ids are not unique across accounts: the concatenation has no
   * separator, so two different accounts can give their servers the same id.
   */
  lemma NodeIdAmbiguousAcrossAccounts(context: ExtensionContext, properties: AzureAccountProperties, guid: string)
    ensures exists account1: Account, account2: Account, server1: AzureResourceDatabaseServer,
                   server2: AzureResourceDatabaseServer ::
      && account1.key != account2.key
      && GetTreeItemForResource(context, server1, account1, guid).id
         == GetTreeItemForResource(context, server2, account2, guid).id
  {
    var account1 := Account(AccountKey("a"), properties);
    var account2 := Account(AccountKey("ab"), properties);
    var server1 := AzureResourceDatabaseServer("bc", Option.None, "admin", "tenant");
    var server2 := AzureResourceDatabaseServer("c", Option.None, "admin", "tenant");
    assert "a" + "bc" == "ab" + "c";
    assert NodeId("a", "bc") == NodeId("ab", "c");
    assert GetTreeItemForResource(context, server1, account1, guid).id
           == GetTreeItemForResource(context, server2, account2, guid).id;
  }

  /** The root children depend on the extension context only through the icon paths. */
  lemma RootChildrenIgnoreContext(context1: ExtensionContext, context2: ExtensionContext)
    ensures GetRootChildren(context1)[0].(iconPath := GetRootChildren(context2)[0].iconPath)
            == GetRootChildren(context2)[0]
  {
  }

  /**
   * A leaf the provider builds is never a container and never one of the
   * root children: the two operations produce disjoint kinds of node.
   */
  lemma LeafIsNotRootChild(context: ExtensionContext, server: AzureResourceDatabaseServer,
                           account: Account, guid: string)
    ensures !IsContainer(GetTreeItemForResource(context, server, account, guid))
    ensures forall root <- GetRootChildren(context) :: !IsLeaf(root)
    ensures GetTreeItemForResource(context, server, account, guid) !in GetRootChildren(context)
  {
  }
}
