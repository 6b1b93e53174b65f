/**
 * The demo app's UI slice (`appReducer`): the loading method, the sample-map
 * catalog, the spinner flag and the error.
 */
module AppSlice {
  import opened Wrappers
  import opened Externals
  import opened Actions
  import opened Environment

  datatype AppState = AppState(
    appName: string,
    loaded: bool,
    loadingMethod: Option<LoadingMethod>,
    currentOption: Option<LoadOption>,
    previousMethod: Option<LoadingMethod>,
    sampleMaps: seq<SampleMap>,
    isMapLoading: bool,
    authTokens: map<string, Token>,
    error: Option<ErrorInfo>
  )

  /** Names of the app slice's fields, for saying which ones an update may change. */
  datatype AppField =
    | AppNameField | LoadedField | LoadingMethodField | CurrentOptionField
    | PreviousMethodField | SampleMapsField | IsMapLoadingField | AuthTokensField | ErrorField

  /** Every field of `r` outside `changed` equals the same field of `s`. */
  ghost predicate AppAgreeOutside(s: AppState, r: AppState, changed: set<AppField>) {
    && (AppNameField !in changed ==> r.appName == s.appName)
    && (LoadedField !in changed ==> r.loaded == s.loaded)
    && (LoadingMethodField !in changed ==> r.loadingMethod == s.loadingMethod)
    && (CurrentOptionField !in changed ==> r.currentOption == s.currentOption)
    && (PreviousMethodField !in changed ==> r.previousMethod == s.previousMethod)
    && (SampleMapsField !in changed ==> r.sampleMaps == s.sampleMaps)
    && (IsMapLoadingField !in changed ==> r.isMapLoading == s.isMapLoading)
    && (AuthTokensField !in changed ==> r.authTokens == s.authTokens)
    && (ErrorField !in changed ==> r.error == s.error)
  }

  /** `initialAppState`: the slice before any action has been handled. */
  function InitialAppState(env: Env): (s: AppState)
    ensures s.appName == "example" && !s.loaded
    ensures s.loadingMethod == Some(env.defaultLoadingMethod)
    ensures s.currentOption.Some? <==> |env.defaultLoadingMethod.options| > 0
    ensures s.currentOption.Some? ==> s.currentOption.value == env.defaultLoadingMethod.options[0]
    ensures s.previousMethod.None? && s.sampleMaps == [] && !s.isMapLoading
    ensures s.authTokens == map[] && s.error.None?
  {
    var options := env.defaultLoadingMethod.options;
    AppState(
      appName := "example",
      loaded := false,
      loadingMethod := Some(env.defaultLoadingMethod),
      currentOption := if |options| > 0 then Some(options[0]) else None,
      previousMethod := None,
      sampleMaps := [],
      isMapLoading := false,
      authTokens := map[],
      error := None)
  }

  /** Index of the first method whose id is `id`, or `|methods|` when there is none. */
  function FirstIndexOf(methods: seq<LoadingMethod>, id: string): (k: nat)
    ensures k <= |methods|
    ensures forall j :: 0 <= j < k ==> methods[j].id != id
    ensures k < |methods| ==> methods[k].id == id
  {
    if methods == [] then 0
    else if methods[0].id == id then 0
    else 1 + FirstIndexOf(methods[1..], id)
  }

  /** `LOADING_METHODS.find(({id}) => id === methodId)`. */
  function FindLoadingMethod(methods: seq<LoadingMethod>, id: string): (r: Option<LoadingMethod>)
    ensures r.None? <==> forall j :: 0 <= j < |methods| ==> methods[j].id != id
    ensures r.Some? ==> r.value.id == id && r.value in methods
    ensures r.Some? ==> exists k :: 0 <= k < |methods| && methods[k] == r.value
                                    && forall j :: 0 <= j < k ==> methods[j].id != id
  {
    var k := FirstIndexOf(methods, id);
    if k < |methods| then Some(methods[k]) else None
  }

  /** INIT handler. */
  function OnInit(s: AppState): (r: AppState)
    ensures r.loaded
    ensures AppAgreeOutside(s, r, {LoadedField})
  {
    s.(loaded := true)
  }

  /** SET_LOADING_METHOD handler. */
  function OnSetLoadingMethod(env: Env, s: AppState, methodId: string): (r: AppState)
    ensures r.previousMethod == s.loadingMethod
    ensures r.loadingMethod.None? <==> forall m :: m in env.loadingMethods ==> m.id != methodId
    ensures r.loadingMethod.Some? ==>
              exists k :: 0 <= k < |env.loadingMethods| && env.loadingMethods[k] == r.loadingMethod.value
                          && r.loadingMethod.value.id == methodId
                          && forall j :: 0 <= j < k ==> env.loadingMethods[j].id != methodId
    ensures r.error.None?
    ensures AppAgreeOutside(s, r, {PreviousMethodField, LoadingMethodField, ErrorField})
  {
    s.(previousMethod := s.loadingMethod,
       loadingMethod := FindLoadingMethod(env.loadingMethods, methodId),
       error := None)
  }

  /** LOAD_MAP_SAMPLE_FILE handler. */
  function OnLoadMapSampleFile(s: AppState, samples: seq<SampleMap>): (r: AppState)
    ensures r.sampleMaps == samples
    ensures AppAgreeOutside(s, r, {SampleMapsField})
  {
    s.(sampleMaps := samples)
  }

  /** SET_SAMPLE_LOADING_STATUS handler. */
  function OnSetSampleLoadingStatus(s: AppState, isMapLoading: bool): (r: AppState)
    ensures r.isMapLoading == isMapLoading
    ensures AppAgreeOutside(s, r, {IsMapLoadingField})
  {
    s.(isMapLoading := isMapLoading)
  }

  /** The action types `appReducer` has a handler for. */
  predicate AppHandles(a: Action) {
    a.Init? || a.SetLoadingMethod? || a.LoadMapSampleFile? || a.SetSampleLoadingStatus?
  }

  /**
   * `appReducer`: an undefined slice (`None`) starts from the initial state;
   * an action without a handler returns the slice as it was.
   */
  function AppReducer(env: Env, state: Option<AppState>, a: Action): (r: AppState)
    ensures !AppHandles(a) ==> r == state.GetOr(InitialAppState(env))
    ensures AppAgreeOutside(state.GetOr(InitialAppState(env)), r,
                            {LoadedField, LoadingMethodField, PreviousMethodField, SampleMapsField,
                             IsMapLoadingField, ErrorField})
  {
    var s := state.GetOr(InitialAppState(env));
    match a
    case Init => OnInit(s)
    case SetLoadingMethod(methodId) => OnSetLoadingMethod(env, s, methodId)
    case LoadMapSampleFile(samples) => OnLoadMapSampleFile(s, samples)
    case SetSampleLoadingStatus(flag) => OnSetSampleLoadingStatus(s, flag)
    case _ => s
  }

  /** The selected loading method, when there is one, is an entry of LOADING_METHODS. */
  ghost predicate MethodFromTable(env: Env, s: AppState) {
    s.loadingMethod.Some? ==> s.loadingMethod.value in env.loadingMethods
  }

  /** The initial slice selects from the table when the default method is one of its entries. */
  lemma InitialMethodFromTable(env: Env)
    requires env.defaultLoadingMethod in env.loadingMethods
    ensures MethodFromTable(env, InitialAppState(env))
  {
  }

  /**
   * Every action keeps the selected method inside the table: SET_LOADING_METHOD
   * picks a table entry or nothing (an unknown id), the other handlers leave
   * the method alone.
   */
  lemma MethodFromTablePreserved(env: Env, s: AppState, a: Action)
    requires MethodFromTable(env, s)
    ensures MethodFromTable(env, AppReducer(env, Some(s), a))
  {
  }

  /** Dispatching INIT twice gives the same slice as dispatching it once. */
  lemma InitIdempotent(env: Env, state: Option<AppState>)
    ensures AppReducer(env, Some(AppReducer(env, state, Init)), Init) == AppReducer(env, state, Init)
    ensures AppReducer(env, state, Init).loaded
  {
  }

  /**
   * For a method id present in LOADING_METHODS, SET_LOADING_METHOD selects
   * an entry with that id and remembers the method it replaces.
   */
  lemma SetKnownLoadingMethod(env: Env, s: AppState, methodId: string)
    requires exists m :: m in env.loadingMethods && m.id == methodId
    ensures var r := AppReducer(env, Some(s), SetLoadingMethod(methodId));
            && r.loadingMethod.Some? && r.loadingMethod.value in env.loadingMethods
            && r.loadingMethod.value.id == methodId
            && r.previousMethod == s.loadingMethod
  {
  }

  /** An undefined slice is handled exactly as the initial state would be. */
  lemma UndefinedAppSliceStartsInitial(env: Env, a: Action)
    ensures AppReducer(env, None, a) == AppReducer(env, Some(InitialAppState(env)), a)
    ensures !AppHandles(a) ==>
              var r := AppReducer(env, None, a);
              && !r.loaded && r.previousMethod.None? && !r.isMapLoading && r.error.None?
              && r.authTokens == map[] && r.sampleMaps == []
              && r.loadingMethod == Some(env.defaultLoadingMethod)
  {
  }
}
