/**
 * The values the demo reducers receive from outside: payloads they only pass
 * along, the loading-method table, the storage-provider handler and the
 * tokens the auth-token store hands back.
 */
module Externals {
  import opened Wrappers

  /** A sample-map descriptor fetched from the remote catalog. */
  type SampleMap
  /** One entry of a loading method's `options` list. */
  type LoadOption
  /** The raw body of a fetched remote file. */
  type Response
  /** A saved map configuration as it arrives with the action. */
  type RawConfig
  /** A saved configuration after kepler.gl's schema parser has validated it. */
  type ParsedConfig
  /** The payload produced by one of kepler.gl's data processors. */
  type ProcessedData
  /** The state of one mounted kepler.gl instance. */
  type MapInstance
  /** Metadata of a file being pushed to a storage provider. */
  type FileMetadata
  /** The sharing slice's `status` value (never written by these reducers). */
  type ShareStatus
  /** Error information kept in the app slice. */
  type ErrorInfo

  /** An entry of the LOADING_METHODS table: its `id` and its `options`. */
  datatype LoadingMethod = LoadingMethod(id: string, options: seq<LoadOption>)

  /** A cloud-storage provider handler; only its `name` is read here. */
  datatype Handler = Handler(name: string)

  /**
   * What the auth-token store returns: a stored token string, or null when
   * nothing is stored.
   */
  type Token = Option<string>

  /**
   * JavaScript truthiness of an optional string (a token, or a dataset id):
   * null, undefined and the empty string are falsy.
   */
  predicate Truthy(s: Option<string>) {
    s.Some? && s.value != ""
  }
}
