# kepler.gl demo app reducers, in Dafny

This project models the Redux state layer of the kepler.gl demo application,
`examples/demo-app/src/reducers.js`. That file does three things:

- It defines two slice reducers. `appReducer` holds the loading method, the
  sample-map catalog, the map-loading spinner and the error. `sharingReducer`
  holds the storage-provider auth tokens and the status of a file push.
- It mounts those two slices beside kepler.gl's own reducer with
  `combineReducers`.
- It wraps the result in `composedReducer`. That root reducer first looks the
  action type up in `composedUpdaters`. On a match, the cross-slice updater
  `loadRemoteFileDataSuccess` takes the whole state: it builds a dataset from
  a fetched file, merges it into the `map` kepler.gl instance and turns the
  spinner off.

Every handler builds a new object from the old one, so the model is made of
functions over datatypes, plus lemmas:

- `AppSlice`: `AppState`, `initialAppState`, one function per handler and
  `AppReducer`.
- `SharingSlice`: `SharingState`, `sharingInitialState`, `readAuthTokens`,
  one function per handler and `SharingReducer`.
- `DemoStore`: the aggregate `DemoState` and `demoReducer`, which is the
  `combineReducers` of the `keplerGl`, `app` and `sharing` slices.
- `Ingestion`: `loadRemoteFileDataSuccess` and its parts. These are the
  dataset id, the URL sniff that picks a processor, the saved-config parse and
  the payload given to `addDataToMapComposed`.
- `RootReducer`: `composedReducer`.

Everything the file imports is a field of one `Env` value (module
`Environment`). Each such field is a function or a value:

- the `LOADING_METHODS` table and `DEFAULT_LOADING_METHOD`;
- the Dropbox handler's `name`;
- `retrieveAuthToken` and `validateAndStoreAuth`, each giving the answer the
  browser's token store gives at the moment of the dispatch;
- the string `generateHashId(6)` yields;
- kepler.gl's `processCsvData`, `processGeojson`, `parseSavedConfig`,
  `addDataToMapComposed` and reducer;
- the action type under which `composedUpdaters` registers the ingestion
  updater.

Payloads that the reducers only pass along are abstract types: sample maps,
raw responses, configurations, kepler.gl instances and file metadata.

JavaScript details are written out:

- An undefined slice is `None`. `handleActions` then starts from the slice's
  initial state.
- A token is `Option<string>`. It is falsy when it is null or `""`.
- An optional dataset id is falsy when it is absent or `""`.
- `String.prototype.includes` is `Includes`. It is proved equal to "occurs at
  some position" (its contract, with the step lemma `OccursInTail`).
- `Array.prototype.find` is `FindLoadingMethod`. It returns the first entry
  with a matching id, or `None`, which stands for `undefined`.

Three facts about the code shape the model:

- The key registered in `composedUpdaters` (line 214) is
  `LOAD_REMOTE_RESOURCE_SUCCESS`, which the file never imports. The imported
  `LOAD_REMOTE_FILE_DATA_SUCCESS` (line 32) is used nowhere. So the key is
  the abstract `env.composedKey`, and both cases are proved:
  - `RegisteredActionBypassesSlices`: the key is the success action, and the
    ingestion updater alone produces the result.
  - `UnregisteredSuccessKeepsSpinner`: the key is some other type. The
    success action then goes through `combineReducers` to all three slice
    reducers. The app and sharing reducers have no handler for it and return
    their slices unchanged, so a running spinner stays on.
- `generateHashId(6)` returns the suffix of `Math.random().toString(36)`
  from index 6, not six characters. That suffix is a possibly empty run of
  base-36 digits. In the model the generated id is an arbitrary string, with
  no claim that it is non-empty.
- The sharing reducer's handler table has a `LOAD_REMOTE_RESOURCE_ERROR`
  entry (lines 119-124), and its action type is not imported either. That
  handler is left out (see "## Left out").

Failures that escape the root reducer are modelled as a `Result`:

- `MissingOptions`: an action carrying the registered key has no `options`.
  JavaScript throws a TypeError on `action.options.id`.
- `UndefinedState`: the store state is still undefined when the updater runs.

## Model

| member | source | states |
|---|---|---|
| `AppSlice.InitialAppState` | examples/demo-app/src/reducers.js:55-71 | the initial app slice: app name "example", not loaded, the default loading method, its first option as current option (absent when it has none), no previous method, no samples, spinner off, no tokens, no error |
| `AppSlice.FirstIndexOf` | examples/demo-app/src/reducers.js:91 | the index returned is the first whose entry has the searched id, or the length when no entry has it |
| `AppSlice.FindLoadingMethod` | examples/demo-app/src/reducers.js:91 | absent exactly when no LOADING_METHODS entry has the id; otherwise the first entry with that id |
| `AppSlice.OnInit` | examples/demo-app/src/reducers.js:84-87 | INIT sets `loaded` and changes no other app field |
| `AppSlice.OnSetLoadingMethod` | examples/demo-app/src/reducers.js:88-93 | `previousMethod` becomes the old `loadingMethod`; `loadingMethod` becomes the first table entry with the action's id, absent exactly when none has it; `error` is cleared; nothing else changes |
| `AppSlice.OnLoadMapSampleFile` | examples/demo-app/src/reducers.js:94-97 | `sampleMaps` becomes the action's samples; nothing else changes |
| `AppSlice.OnSetSampleLoadingStatus` | examples/demo-app/src/reducers.js:98-101 | `isMapLoading` becomes the action's flag; nothing else changes |
| `AppSlice.AppReducer` | examples/demo-app/src/reducers.js:83-102 | unhandled action types return the slice unchanged, an undefined slice is read as the initial state, and no handler touches `appName`, `currentOption` or `authTokens` |
| `AppSlice.InitialMethodFromTable` | examples/demo-app/src/reducers.js:55-59 | when the default loading method is a LOADING_METHODS entry, the initial slice's method is one |
| `AppSlice.MethodFromTablePreserved` | examples/demo-app/src/reducers.js:83-102 | every action keeps the selected loading method, when there is one, inside the LOADING_METHODS table |
| `AppSlice.InitIdempotent` | examples/demo-app/src/reducers.js:84-87 | dispatching INIT twice gives the same slice as once, with `loaded` true |
| `AppSlice.SetKnownLoadingMethod` | examples/demo-app/src/reducers.js:88-93 | for an id present in the table, the selected method is a table entry with that id and `previousMethod` is the method it replaced |
| `AppSlice.UndefinedAppSliceStartsInitial` | examples/demo-app/src/reducers.js:55-71 | an undefined app slice behaves as `initialAppState`: not loaded, no previous method, spinner off, no error, no tokens, no samples, the default loading method |
| `SharingSlice.InitialSharingState` | examples/demo-app/src/reducers.js:104-111 | the initial sharing slice: no tokens, not loading, null status and info, no error |
| `SharingSlice.CollectTokens` | examples/demo-app/src/reducers.js:76-79 | the reduce yields the old keys plus exactly one key per handler name; every handler name maps to the token retrieved for the Dropbox handler; other keys keep their values |
| `SharingSlice.ReadAuthTokens` | examples/demo-app/src/reducers.js:74-80 | the token map has exactly the Dropbox handler's name as key, holding the stored Dropbox token |
| `SharingSlice.OnReloadTokens` | examples/demo-app/src/reducers.js:115-118 | INIT replaces `authTokens` by the freshly read map and changes nothing else |
| `SharingSlice.OnSetAuthToken` | examples/demo-app/src/reducers.js:125-142 | a falsy validated token sets `error` to "AUTHENTICATION FAILED" and changes nothing else; a truthy one adds or overwrites only the Dropbox key, keeps every other key and leaves `error` as it was |
| `SharingSlice.OnPushingFile` | examples/demo-app/src/reducers.js:147-151 | `isLoading` and `info` take the action's values; nothing else changes |
| `SharingSlice.SharingReducer` | examples/demo-app/src/reducers.js:114-152 | unhandled action types return the slice unchanged, an undefined slice is read as the initial state, and no handler touches `status` |
| `SharingSlice.InitialTokensFromHandlers` | examples/demo-app/src/reducers.js:104-111 | the initial sharing slice keys every token by a provider handler's name (it holds none) |
| `SharingSlice.TokensFromHandlersPreserved` | examples/demo-app/src/reducers.js:114-152 | every action, from an undefined slice or one whose token keys are handler names, keeps the token keys among the handler names (only the Dropbox name) |
| `SharingSlice.ReloadActionsAgree` | examples/demo-app/src/reducers.js:143-146 | PROPAGATE_STORAGE_EVENT yields the same slice as INIT for the same token store, and reloading twice is the same as once |
| `SharingSlice.FailedAuthKeepsTokens` | examples/demo-app/src/reducers.js:126-134 | with a falsy validated token, SET_AUTH_TOKEN keeps `authTokens`, records the failure, and repeating it changes nothing more |
| `SharingSlice.UndefinedSharingSliceStartsInitial` | examples/demo-app/src/reducers.js:104-111 | an undefined sharing slice behaves as `sharingInitialState`: no tokens, not loading, null status and info |
| `DemoStore.CombineReducers` | examples/demo-app/src/reducers.js:156-161 | actions that the app or the sharing reducer does not handle leave that slice as it was |
| `DemoStore.SlicesIndependent` | examples/demo-app/src/reducers.js:156-161 | each combined slice depends only on its own previous slice and the action |
| `Ingestion.OccursInTail` | examples/demo-app/src/reducers.js:176 | when the substring does not start the string, it occurs in the string exactly when it occurs after the first character |
| `Ingestion.Includes` | examples/demo-app/src/reducers.js:176 | the left-to-right `includes` scan is true exactly when the substring occurs at some position |
| `Ingestion.Process` | examples/demo-app/src/reducers.js:174-184 | the dataset's data is the GeoJSON processor's output when the URL contains ".json" or ".geojson", the CSV processor's otherwise |
| `Ingestion.MapInstanceOf` | examples/demo-app/src/reducers.js:191 | `state.keplerGl.map` is present exactly when a `map` instance is mounted, and is then that instance |
| `Ingestion.ChooseProcessor` | examples/demo-app/src/reducers.js:174-178 | the GeoJSON processor is chosen exactly when the URL contains ".json" or ".geojson", the CSV processor otherwise |
| `Ingestion.DatasetId` | examples/demo-app/src/reducers.js:172 | a truthy `options.id` is the dataset id; otherwise the generated id is |
| `Ingestion.SavedConfig` | examples/demo-app/src/reducers.js:187-188 | a configuration is present exactly when the action carries one, and is then the schema parser's result |
| `Ingestion.IngestionPayload` | examples/demo-app/src/reducers.js:180-198 | the dataset id is the truthy `options.id` or else the generated id; the data is the GeoJSON processor's output when the URL contains ".json" or ".geojson" and the CSV processor's otherwise; the config is the parsed saved configuration when the action carries one and null otherwise |
| `Ingestion.LoadRemoteFileDataSuccessUpdater` | examples/demo-app/src/reducers.js:170-211 | only the `map` kepler.gl instance is replaced, by `addDataToMapComposed` of the old instance and the payload; other instances are kept; the spinner is off and the other app fields are kept; the sharing slice is untouched |
| `Ingestion.GeojsonUrlExamples` | examples/demo-app/src/reducers.js:176-178 | "foo.geojson", "foo.json" and "data.json.csv" go to the GeoJSON processor |
| `Ingestion.CsvUrlExample` | examples/demo-app/src/reducers.js:174 | "foo.csv" goes to the CSV processor |
| `Ingestion.DatasetIdExamples` | examples/demo-app/src/reducers.js:172 | id "abc" is kept; an absent or empty id yields the generated id |
| `RootReducer.ComposedUpdaters` | examples/demo-app/src/reducers.js:213-215 | the registry has exactly one entry, the ingestion updater under the registered key |
| `RootReducer.HasComposedUpdater` | examples/demo-app/src/reducers.js:213-218 | the registry lookup finds an updater exactly when the action's type is the registered key |
| `RootReducer.ComposedReducer` | examples/demo-app/src/reducers.js:217-222 | unregistered types always succeed; a registered type fails exactly when the action has no ingestion options or the state is undefined; a registered success turns the spinner off and leaves sharing untouched |
| `RootReducer.RegisteredActionBypassesSlices` | examples/demo-app/src/reducers.js:213-220 | for the registered type, the result is exactly the ingestion updater's output and no slice reducer runs |
| `RootReducer.UnregisteredActionFansOut` | examples/demo-app/src/reducers.js:221 | any other action reaches kepler.gl's reducer, the app reducer and the sharing reducer, each with its own previous slice |
| `RootReducer.ForeignActionKeepsAppSlices` | examples/demo-app/src/reducers.js:217-222 | an action type the app does not define, unless it is the registered key, leaves the app and sharing slices unchanged; this relies on the LOAD_REMOTE_RESOURCE_ERROR handler (lines 119-124) being left out, since under the assumption that its name resolves, a foreign action of that type would change the sharing slice |
| `RootReducer.UnregisteredSuccessKeepsSpinner` | examples/demo-app/src/reducers.js:213-215 | if the registered key is not LOAD_REMOTE_FILE_DATA_SUCCESS, that action leaves the app and sharing slices, and so the spinner, unchanged |

## Left out

- `generateHashId` (lines 48-52) uses `Math.random()`, a float, so the
  generated id is an arbitrary string in `Env`.
- kepler.gl's reducer, `addDataToMapComposed`, `processCsvData`,
  `processGeojson` and `parseSavedConfig` are library code outside this file.
  They are opaque functions in `Env`. Their exceptions on malformed input are
  not modelled; the file does not catch them.
- `retrieveAuthToken` and `validateAndStoreAuth` read and write browser
  storage and the OAuth redirect. They are opaque functions in `Env`, and the
  write done by `validateAndStoreAuth` is not modelled.
- The `LOAD_REMOTE_RESOURCE_ERROR` handler (lines 119-124) is left out,
  because its action type is never imported and nothing shows the handler can
  be reached.
- Module loading is not modelled. The model assumes that both
  `LOAD_REMOTE_RESOURCE_ERROR` (line 119) and `LOAD_REMOTE_RESOURCE_SUCCESS`
  (line 214) resolve to some action type. As written, neither name is
  imported. Computed keys are evaluated when the module loads. So unless a
  global binding of that name exists, building the `sharingReducer` table
  throws a ReferenceError at line 119. That happens before `sharingReducer`,
  `demoReducer` or `composedUpdaters` exist.
- Only the observable behaviour of `combineReducers` and `handleActions` is
  modelled: per-slice delegation, identity for unknown actions and a default
  state for an undefined slice. `combineReducers` handing back the very same
  object when no slice changed is not modelled; the model only gives
  structural equality.
- Action types are a datatype, so the imported constants are assumed
  distinct from each other and from every foreign type. A JavaScript lookup
  of `composedUpdaters` by an inherited property name such as "constructor"
  is not modelled.
- A foreign action that carries the registered key is treated as having no
  `options`.
- `options.dataUrl` is always a string in the model. The TypeError that an
  undefined `dataUrl` causes is not modelled.
- `null` and `undefined` are one value, `None`, in the model. For example,
  `previousMethod` in `initialAppState` (null) and `loadingMethod` after a
  lookup that found nothing (undefined) are both `None`.
