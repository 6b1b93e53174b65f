/**
 * Everything the reducer file imports, gathered into one value: the
 * loading-method settings, the Dropbox handler and the auth-token store,
 * the id generator, kepler.gl's processors, schema parser, reducer and
 * `addDataToMapComposed`, and the key under which the composed updater is
 * registered. Calls into the auth-token store read and write browser
 * storage; here each is the answer the store gives at the moment of the
 * dispatch.
 */
module Environment {
  import opened Wrappers
  import opened Externals
  import opened Actions

  /** The `keplerGl` slice: kepler.gl instances keyed by instance id. */
  type KeplerGlState = map<string, MapInstance>

  /** The id of the kepler.gl instance the demo app mounts. */
  const MapInstanceId: string := "map"

  datatype DatasetInfo = DatasetInfo(id: string)

  /** The dataset record handed to kepler.gl: `{info: {id}, data}`. */
  datatype Dataset = Dataset(info: DatasetInfo, data: ProcessedData)

  /** The `payload` of the action given to `addDataToMapComposed`. */
  datatype AddDataPayload = AddDataPayload(datasets: Dataset, config: Option<ParsedConfig>)

  datatype Env = Env(
    // constants/default-settings
    defaultLoadingMethod: LoadingMethod,
    loadingMethods: seq<LoadingMethod>,
    // utils/dropbox and utils/auth-token
    dropbox: Handler,
    retrieveAuthToken: Handler -> Token,
    validateAndStoreAuth: Handler -> Token,
    // the value generateHashId(6) yields for this dispatch
    generatedId: string,
    // kepler.gl processors, schema and reducers
    processCsvData: Response -> ProcessedData,
    processGeojson: Response -> ProcessedData,
    parseSavedConfig: RawConfig -> ParsedConfig,
    addDataToMapComposed: (Option<MapInstance>, AddDataPayload) -> MapInstance,
    keplerGlReducer: (Option<KeplerGlState>, Action) -> KeplerGlState,
    // the action type under which composedUpdaters registers the ingestion updater
    composedKey: Tag
  )
}
