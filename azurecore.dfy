/**
 * The shapes the `azurecore` extension API gives to a discovered database
 * server and to the properties of an Azure account.  Only the fields the
 * CosmosDB NoSql tree data provider reads are kept.
 */
module Azurecore {
  import opened Wrappers

  /** `azureResource.AzureResourceDatabaseServer`, as read by the provider. */
  datatype AzureResourceDatabaseServer = AzureResourceDatabaseServer(
    name: string,
    id: Option<string>,   // the provider guards it with `??`, so it may be absent
    loginName: string,
    tenant: string
  )

  /** The environment endpoints of an Azure cloud. */
  datatype Settings = Settings(portalEndpoint: Option<string>)

  /** `AzureAccountProviderMetadata`: the provider settings bag of an account. */
  datatype AzureAccountProviderMetadata = AzureAccountProviderMetadata(settings: Settings)

  /** `AzureAccountProperties`: what `account.properties` is cast to. */
  datatype AzureAccountProperties = AzureAccountProperties(providerSettings: AzureAccountProviderMetadata)
}
