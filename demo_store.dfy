/**
 * The aggregate store state and `demoReducer`, the `combineReducers` of the
 * `keplerGl`, `app` and `sharing` slices.
 */
module DemoStore {
  import opened Wrappers
  import opened Actions
  import opened Environment
  import opened AppSlice
  import opened SharingSlice

  datatype DemoState = DemoState(keplerGl: KeplerGlState, app: AppState, sharing: SharingState)

  /**
   * `demoReducer`: each slice reducer receives its own previous slice
   * (undefined when the whole state is) and the action.
   */
  function CombineReducers(env: Env, state: Option<DemoState>, a: Action): (r: DemoState)
    ensures !AppHandles(a) && state.Some? ==> r.app == state.value.app
    ensures !SharingHandles(a) && state.Some? ==> r.sharing == state.value.sharing
  {
    match state
    case None =>
      DemoState(env.keplerGlReducer(None, a), AppReducer(env, None, a), SharingReducer(env, None, a))
    case Some(s) =>
      DemoState(env.keplerGlReducer(Some(s.keplerGl), a), AppReducer(env, Some(s.app), a),
                SharingReducer(env, Some(s.sharing), a))
  }

  /**
   * Slice isolation: each slice of the result depends only on the same slice
   * of the previous state and the action, never on its siblings.
   */
  lemma SlicesIndependent(env: Env, s1: DemoState, s2: DemoState, a: Action)
    ensures s1.keplerGl == s2.keplerGl ==>
              CombineReducers(env, Some(s1), a).keplerGl == CombineReducers(env, Some(s2), a).keplerGl
    ensures s1.app == s2.app ==> CombineReducers(env, Some(s1), a).app == CombineReducers(env, Some(s2), a).app
    ensures s1.sharing == s2.sharing ==>
              CombineReducers(env, Some(s1), a).sharing == CombineReducers(env, Some(s2), a).sharing
  {
  }
}
