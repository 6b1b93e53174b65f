/**
 * The demo app's sharing slice (`sharingReducer`): the provider auth tokens
 * and the status of a file being pushed to a storage provider.
 */
module SharingSlice {
  import opened Wrappers
  import opened Externals
  import opened Actions
  import opened Environment

  /**
   * `error` is absent (`None`) in the initial state; SET_AUTH_TOKEN adds it
   * when authentication fails.
   */
  datatype SharingState = SharingState(
    authTokens: map<string, Token>,
    isLoading: bool,
    status: Option<ShareStatus>,
    info: Option<FileMetadata>,
    error: Option<string>
  )

  datatype SharingField = AuthTokensField | IsLoadingField | StatusField | InfoField | ErrorField

  /** Every field of `r` outside `changed` equals the same field of `s`. */
  ghost predicate SharingAgreeOutside(s: SharingState, r: SharingState, changed: set<SharingField>) {
    && (AuthTokensField !in changed ==> r.authTokens == s.authTokens)
    && (IsLoadingField !in changed ==> r.isLoading == s.isLoading)
    && (StatusField !in changed ==> r.status == s.status)
    && (InfoField !in changed ==> r.info == s.info)
    && (ErrorField !in changed ==> r.error == s.error)
  }

  /** `sharingInitialState`. */
  function InitialSharingState(): (s: SharingState)
    ensures s.authTokens == map[] && !s.isLoading
    ensures s.status.None? && s.info.None? && s.error.None?
  {
    SharingState(authTokens := map[], isLoading := false, status := None, info := None, error := None)
  }

  /** The message SET_AUTH_TOKEN stores when validation yields no token. */
  const AuthFailedMessage: string := "AUTHENTICATION FAILED"

  ghost function HandlerNames(handlers: seq<Handler>): set<string> {
    set h | h in handlers :: h.name
  }

  /**
   * The `reduce` inside `readAuthTokens`: each handler in turn adds (or
   * overwrites) the key `handler.name`. The token stored is always the one
   * retrieved for the Dropbox handler, whatever handler the step is for.
   */
  function CollectTokens(env: Env, handlers: seq<Handler>, acc: map<string, Token>): (r: map<string, Token>)
    ensures r.Keys == acc.Keys + HandlerNames(handlers)
    ensures forall k :: k in HandlerNames(handlers) ==> r[k] == env.retrieveAuthToken(env.dropbox)
    ensures forall k :: k in acc && k !in HandlerNames(handlers) ==> r[k] == acc[k]
  {
    if handlers == [] then acc
    else
      var rest := CollectTokens(env, handlers[1..], acc[handlers[0].name := env.retrieveAuthToken(env.dropbox)]);
      assert HandlerNames(handlers) == {handlers[0].name} + HandlerNames(handlers[1..]) by {
        assert forall h :: h in handlers <==> h == handlers[0] || h in handlers[1..];
      }
      rest
  }

  /** `readAuthTokens`: the tokens for the handler list `[DropboxHandler]`. */
  function ReadAuthTokens(env: Env): (r: map<string, Token>)
    ensures r.Keys == {env.dropbox.name}
    ensures r[env.dropbox.name] == env.retrieveAuthToken(env.dropbox)
  {
    assert HandlerNames([env.dropbox]) == {env.dropbox.name};
    CollectTokens(env, [env.dropbox], map[])
  }

  /** INIT and PROPAGATE_STORAGE_EVENT handler: reload the tokens from the store. */
  function OnReloadTokens(env: Env, s: SharingState): (r: SharingState)
    ensures r.authTokens.Keys == {env.dropbox.name}
    ensures r.authTokens[env.dropbox.name] == env.retrieveAuthToken(env.dropbox)
    ensures SharingAgreeOutside(s, r, {AuthTokensField})
  {
    s.(authTokens := ReadAuthTokens(env))
  }

  /**
   * SET_AUTH_TOKEN handler: a falsy token from `validateAndStoreAuth` records
   * the failure and keeps the tokens; a truthy one is stored under the
   * Dropbox handler's name, keeping every other provider's token and leaving
   * any earlier error in place.
   */
  function OnSetAuthToken(env: Env, s: SharingState): (r: SharingState)
    ensures var token := env.validateAndStoreAuth(env.dropbox);
            !Truthy(token) ==> r.error == Some(AuthFailedMessage) && SharingAgreeOutside(s, r, {ErrorField})
    ensures var token, name := env.validateAndStoreAuth(env.dropbox), env.dropbox.name;
            Truthy(token) ==>
              && r.authTokens.Keys == s.authTokens.Keys + {name}
              && r.authTokens[name] == token
              && (forall k :: k in s.authTokens && k != name ==> r.authTokens[k] == s.authTokens[k])
              && SharingAgreeOutside(s, r, {AuthTokensField})
  {
    var token := env.validateAndStoreAuth(env.dropbox);
    if !Truthy(token) then
      s.(error := Some(AuthFailedMessage))
    else
      s.(authTokens := s.authTokens[env.dropbox.name := token])
  }

  /** PUSHING_FILE handler. */
  function OnPushingFile(s: SharingState, isLoading: bool, metadata: Option<FileMetadata>): (r: SharingState)
    ensures r.isLoading == isLoading && r.info == metadata
    ensures SharingAgreeOutside(s, r, {IsLoadingField, InfoField})
  {
    s.(isLoading := isLoading, info := metadata)
  }

  /** The action types `sharingReducer` has a handler for. */
  predicate SharingHandles(a: Action) {
    a.Init? || a.SetAuthToken? || a.PropagateStorageEvent? || a.PushingFile?
  }

  /**
   * `sharingReducer`: an undefined slice starts from the initial state; an
   * action without a handler returns the slice as it was.
   */
  function SharingReducer(env: Env, state: Option<SharingState>, a: Action): (r: SharingState)
    ensures !SharingHandles(a) ==> r == state.GetOr(InitialSharingState())
    ensures SharingAgreeOutside(state.GetOr(InitialSharingState()), r,
                                {AuthTokensField, IsLoadingField, InfoField, ErrorField})
  {
    var s := state.GetOr(InitialSharingState());
    match a
    case Init => OnReloadTokens(env, s)
    case SetAuthToken => OnSetAuthToken(env, s)
    case PropagateStorageEvent => OnReloadTokens(env, s)
    case PushingFile(isLoading, metadata) => OnPushingFile(s, isLoading, metadata)
    case _ => s
  }

  /** Every stored token is keyed by the name of a provider handler (here only Dropbox). */
  ghost predicate TokensFromHandlers(env: Env, s: SharingState) {
    s.authTokens.Keys <= {env.dropbox.name}
  }

  /** The initial slice holds no token, so every key is a handler name. */
  lemma InitialTokensFromHandlers(env: Env)
    ensures TokensFromHandlers(env, InitialSharingState())
  {
  }

  /**
   * Every action keeps the token keys among the handler names: the reload
   * handlers write only the Dropbox key, SET_AUTH_TOKEN adds only that key,
   * and the other handlers leave the tokens alone.
   */
  lemma TokensFromHandlersPreserved(env: Env, state: Option<SharingState>, a: Action)
    requires state.Some? ==> TokensFromHandlers(env, state.value)
    ensures TokensFromHandlers(env, SharingReducer(env, state, a))
  {
  }

  /**
   * INIT and PROPAGATE_STORAGE_EVENT give the same slice for the same token
   * store, and dispatching either twice is the same as once.
   */
  lemma ReloadActionsAgree(env: Env, state: Option<SharingState>)
    ensures SharingReducer(env, state, Init) == SharingReducer(env, state, PropagateStorageEvent)
    ensures var once := SharingReducer(env, state, Init);
            SharingReducer(env, Some(once), Init) == once
  {
  }

  /** A rejected token never touches the stored tokens, however often it is retried. */
  lemma FailedAuthKeepsTokens(env: Env, s: SharingState)
    requires !Truthy(env.validateAndStoreAuth(env.dropbox))
    ensures var r := SharingReducer(env, Some(s), SetAuthToken);
            r.authTokens == s.authTokens && r.error == Some(AuthFailedMessage)
            && SharingReducer(env, Some(r), SetAuthToken) == r
  {
  }

  /** An undefined slice starts from `sharingInitialState`. */
  lemma UndefinedSharingSliceStartsInitial(env: Env, a: Action)
    ensures SharingReducer(env, None, a) == SharingReducer(env, Some(InitialSharingState()), a)
    ensures !SharingHandles(a) ==>
              var r := SharingReducer(env, None, a);
              && r.authTokens == map[] && !r.isLoading && r.status.None? && r.info.None? && r.error.None?
  {
  }
}
