/**
 * The action vocabulary the demo store dispatches. Each app action is one
 * constructor; any action type the app does not define (kepler.gl's own
 * actions, redux's initialisation action) is `Foreign`.
 */
module Actions {
  import opened Wrappers
  import opened Externals

  /** `options` of a LOAD_REMOTE_FILE_DATA_SUCCESS action: an optional dataset id and the file URL. */
  datatype LoadOptions = LoadOptions(id: Option<string>, dataUrl: string)

  datatype Action =
    | Init
    | SetLoadingMethod(methodId: string)
    | LoadMapSampleFile(samples: seq<SampleMap>)
    | LoadRemoteFileDataSuccess(response: Response, options: LoadOptions, config: Option<RawConfig>)
    | SetSampleLoadingStatus(isMapLoading: bool)
    | SetAuthToken
    | PropagateStorageEvent
    | PushingFile(isLoading: bool, metadata: Option<FileMetadata>)
    | Foreign(name: string)

  /**
   * The `type` field of an action. The imported action constants are
   * distinct from each other and from every foreign type.
   */
  datatype Tag =
    | InitType
    | SetLoadingMethodType
    | LoadMapSampleFileType
    | LoadRemoteFileDataSuccessType
    | SetSampleLoadingStatusType
    | SetAuthTokenType
    | PropagateStorageEventType
    | PushingFileType
    | ForeignType(name: string)

  function TypeOf(a: Action): Tag {
    match a
    case Init => InitType
    case SetLoadingMethod(_) => SetLoadingMethodType
    case LoadMapSampleFile(_) => LoadMapSampleFileType
    case LoadRemoteFileDataSuccess(_, _, _) => LoadRemoteFileDataSuccessType
    case SetSampleLoadingStatus(_) => SetSampleLoadingStatusType
    case SetAuthToken => SetAuthTokenType
    case PropagateStorageEvent => PropagateStorageEventType
    case PushingFile(_, _) => PushingFileType
    case Foreign(n) => ForeignType(n)
  }
}
