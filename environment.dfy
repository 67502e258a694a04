/**
 * The process environment the gallery consults. The application reads these
 * values from `process.env`; here they are one explicit record built at the
 * boundary and passed to every operation that needs it.
 */
module Environment {
  import opened Wrappers

  /**
   * AZURE_STORAGE_ACCOUNT_NAME, AZURE_STORAGE_CONTAINER_NAME and NODE_ENV.
   * `None` stands for a variable that is not set at all.
   */
  datatype Env = Env(accountName: Option<string>, containerName: Option<string>, nodeEnv: Option<string>)

  /** JavaScript truthiness of an environment value: it is set and is not the empty string. */
  predicate Truthy(v: Option<string>)
  {
    v.Some? && v.value != ""
  }
}
