/**
 * The constants the provider imports from the extension's `constants` module.
 * Their values are defined in a file that is not part of this model, so each
 * is declared without a value: every property proved here holds whatever the
 * strings are.
 */
module Constants {

  /** `AzureResourcePrefixes.cosmosdb`: the node-id prefix of the CosmosDB category. */
  const CosmosDbPrefix: string

  /** `cosmosDBNoSqlProvider`: the connection driver tag of CosmosDB NoSql servers. */
  const CosmosDbNoSqlProvider: string

  /** `AzureResourceItemType.cosmosDBNoSqlAccount`: context tag of a CosmosDB NoSql leaf. */
  const CosmosDbNoSqlAccount: string

  /** `AzureResourceItemType.databaseServerContainer`: context tag of the container node. */
  const DatabaseServerContainer: string
}
