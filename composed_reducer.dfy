/**
 * `composedReducer`, the store's root reducer: an action whose type is the
 * key registered in `composedUpdaters` goes to the ingestion updater alone;
 * every other action fans out to the three slice reducers.
 */
module RootReducer {
  import opened Wrappers
  import opened Externals
  import opened Actions
  import opened Environment
  import opened AppSlice
  import opened SharingSlice
  import opened DemoStore
  import opened Ingestion

  /**
   * How the registered updater can throw: the action has no `options`
   * (reading `action.options.id` fails), or the store state is still
   * undefined (reading `state.keplerGl` fails).
   */
  datatype Failure = MissingOptions | UndefinedState

  /** The updaters `composedUpdaters` can hold. */
  datatype Updater = LoadRemoteFileDataSuccessEntry

  /** `composedUpdaters`: the ingestion updater under the registered key. */
  function ComposedUpdaters(env: Env): (m: map<Tag, Updater>)
    ensures m.Keys == {env.composedKey}
    ensures m[env.composedKey] == LoadRemoteFileDataSuccessEntry
  {
    map[env.composedKey := LoadRemoteFileDataSuccessEntry]
  }

  /** `composedUpdaters[action.type]` is set exactly when the action's type is the registered key. */
  predicate HasComposedUpdater(env: Env, a: Action): (b: bool)
    ensures b <==> TypeOf(a) == env.composedKey
  {
    TypeOf(a) in ComposedUpdaters(env)
  }

  function ComposedReducer(env: Env, state: Option<DemoState>, a: Action): (r: Result<DemoState, Failure>)
    ensures !HasComposedUpdater(env, a) ==> r.Success?
    ensures r.Failure? <==> HasComposedUpdater(env, a) && (!a.LoadRemoteFileDataSuccess? || state.None?)
    ensures r.Failure? ==> (r.error == MissingOptions <==> !a.LoadRemoteFileDataSuccess?)
    ensures r.Success? && HasComposedUpdater(env, a) ==>
              r.value.sharing == state.value.sharing && !r.value.app.isMapLoading
  {
    if HasComposedUpdater(env, a) then
      match a
      case LoadRemoteFileDataSuccess(response, options, config) =>
        (match state
         case None => Failure(UndefinedState)
         case Some(s) => Success(LoadRemoteFileDataSuccessUpdater(env, s, response, options, config)))
      case _ => Failure(MissingOptions)
    else
      Success(CombineReducers(env, state, a))
  }

  /**
   * First tier: for the registered key the result is exactly the updater's
   * output, and no slice reducer runs (kepler.gl's reducer never sees the
   * action; the app and sharing handlers are not consulted).
   */
  lemma RegisteredActionBypassesSlices(env: Env, s: DemoState, response: Response, options: LoadOptions,
                                       config: Option<RawConfig>)
    requires env.composedKey == LoadRemoteFileDataSuccessType
    ensures var r := ComposedReducer(env, Some(s), LoadRemoteFileDataSuccess(response, options, config));
            && r == Success(LoadRemoteFileDataSuccessUpdater(env, s, response, options, config))
            && !r.value.app.isMapLoading
            && r.value.sharing == s.sharing
            && r.value.keplerGl[MapInstanceId]
               == env.addDataToMapComposed(MapInstanceOf(s.keplerGl), IngestionPayload(env, response, options, config))
  {
  }

  /**
   * Second tier: any other action reaches each slice reducer with that
   * slice's previous value, so each new slice is a function of its own old
   * slice and the action.
   */
  lemma UnregisteredActionFansOut(env: Env, state: Option<DemoState>, a: Action)
    requires !HasComposedUpdater(env, a)
    ensures var r := ComposedReducer(env, state, a);
            && r.Success?
            && r.value.keplerGl == env.keplerGlReducer(if state.Some? then Some(state.value.keplerGl) else None, a)
            && r.value.app == AppReducer(env, if state.Some? then Some(state.value.app) else None, a)
            && r.value.sharing == SharingReducer(env, if state.Some? then Some(state.value.sharing) else None, a)
  {
  }

  /**
   * An action the app does not define (a kepler.gl action, say) and that is
   * not the registered key leaves the app and sharing slices as they were.
   * This holds because the LOAD_REMOTE_RESOURCE_ERROR handler of the sharing
   * reducer is not modelled: if that name resolves to a foreign action type,
   * the code changes the sharing slice for that type.
   */
  lemma ForeignActionKeepsAppSlices(env: Env, s: DemoState, name: string)
    requires env.composedKey != ForeignType(name)
    ensures var r := ComposedReducer(env, Some(s), Foreign(name));
            r.Success? && r.value.app == s.app && r.value.sharing == s.sharing
  {
  }

  /**
   * When the registered key is not LOAD_REMOTE_FILE_DATA_SUCCESS, a
   * successful fetch never reaches the ingestion updater: the app and
   * sharing slices do not handle it, so a running spinner stays on.
   */
  lemma UnregisteredSuccessKeepsSpinner(env: Env, s: DemoState, response: Response, options: LoadOptions,
                                        config: Option<RawConfig>)
    requires env.composedKey != LoadRemoteFileDataSuccessType
    ensures var r := ComposedReducer(env, Some(s), LoadRemoteFileDataSuccess(response, options, config));
            && r.Success?
            && r.value.app == s.app && r.value.sharing == s.sharing
            && r.value.app.isMapLoading == s.app.isMapLoading
  {
  }
}
