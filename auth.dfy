/**
 * The authentication hook: the signed-in user, a loading flag, and the
 * bearer token mirrored into local storage from the identity provider's
 * session, along with the navigations the hook asks of the router.
 */
module Auth {
  import opened Wrappers
  import opened Storage

  /** The provider's user; `role` is `user_metadata.role` when the metadata holds one. */
  datatype AuthUser = AuthUser(id: string, role: Option<string>)

  /** A provider session: its user and its access token, when it has one. */
  datatype Session = Session(user: AuthUser, accessToken: Option<string>)

  /** How `getSession` came out: an error in its answer, a throw, or the current session (or none). */
  datatype SessionLookup = LookupError | LookupThrew | LookupOk(session: Option<Session>)

  /** The event kinds the provider reports; only `SIGNED_OUT` is treated specially. */
  datatype AuthEvent = SignedOut | OtherEvent(name: string)

  /** What the hook does outside its own state, in the order it does it. */
  datatype Effect = TokenRemoved | TokenStored(token: string) | ProviderSignOut | PushLogin | RefreshPage

  /** `(user?.user_metadata?.role as string) || 'staff'`. */
  function UserRole(user: Option<AuthUser>): (r: string)
    ensures r != ""
    ensures user.Some? && user.value.role.Some? && user.value.role.value != "" ==> r == user.value.role.value
    ensures user.None? || user.value.role.None? || user.value.role.value == "" ==> r == "staff"
  {
    if user.Some? && user.value.role.Some? && user.value.role.value != "" then user.value.role.value else "staff"
  }

  /** `getUserRole() === 'admin'`. */
  predicate IsAdmin(user: Option<AuthUser>) {
    UserRole(user) == "admin"
  }

  /** Only a user whose metadata says "admin" is an administrator; no user and no role mean staff. */
  lemma AdminIffAdminMetadata(user: Option<AuthUser>)
    ensures IsAdmin(user) <==> user.Some? && user.value.role == Some("admin")
    ensures user.None? ==> UserRole(user) == "staff" && !IsAdmin(user)
  {
  }

  /** `session?.user ?? null`. */
  function SessionUser(session: Option<Session>): (r: Option<AuthUser>)
    ensures r.Some? <==> session.Some?
    ensures r.Some? ==> r.value == session.value.user
  {
    if session.Some? then Some(session.value.user) else None
  }

  /** The stored token after mirroring a session: its access token when truthy, otherwise removed. */
  function MirroredToken(session: Option<Session>): (r: Option<string>)
    ensures r.Some? <==> session.Some? && session.value.accessToken.Some? && session.value.accessToken.value != ""
    ensures r.Some? ==> r == session.value.accessToken
  {
    if session.Some? && session.value.accessToken.Some? && session.value.accessToken.value != "" then
      session.value.accessToken
    else None
  }

  /** The storage effect of mirroring a session. */
  function MirrorEffect(session: Option<Session>): (e: Effect)
    ensures e.TokenStored? <==> MirroredToken(session).Some?
    ensures e.TokenStored? ==> Some(e.token) == MirroredToken(session)
    ensures !e.TokenStored? ==> e == TokenRemoved
  {
    match MirroredToken(session)
    case Some(t) => TokenStored(t)
    case None => TokenRemoved
  }

  /** The effects of one `handleSignOut`, given whether the provider's sign-out throws. */
  function SignOutEffects(providerFails: bool): seq<Effect> {
    if providerFails then [TokenRemoved, ProviderSignOut, TokenRemoved, PushLogin]
    else [TokenRemoved, ProviderSignOut, PushLogin, RefreshPage]
  }

  /**
   * Sign-out removes the token before it calls the provider, goes to the
   * login page whether or not the provider fails, and refreshes only after
   * a successful provider sign-out.
   */
  lemma SignOutOrder(providerFails: bool)
    ensures var effects := SignOutEffects(providerFails);
            && effects[0] == TokenRemoved && effects[1] == ProviderSignOut
            && PushLogin in effects && (forall e :: e in effects ==> !e.TokenStored?)
            && (RefreshPage in effects <==> !providerFails)
  {
  }

  class AuthHook {
    const store: TokenStore
    var user: Option<AuthUser>
    var loading: bool
    /** The effect's `mounted` flag; also whether the provider subscription is live. */
    var mounted: bool
    var effects: seq<Effect>

    /** The hook mounts: no user yet, loading, subscribed. */
    constructor (store: TokenStore)
      ensures this.store == store && user.None? && loading && mounted && effects == []
    {
      this.store := store;
      user := None;
      loading := true;
      mounted := true;
      effects := [];
    }

    /**
     * `initAuth` once `getSession` settles. After unmount nothing changes;
     * an error or a throw clears the user and leaves the token alone; a
     * session sets the user and mirrors its token.
     */
    method InitAuth(lookup: SessionLookup)
      modifies this, store
      ensures mounted == old(mounted)
      ensures !old(mounted) ==> user == old(user) && loading == old(loading)
                                && store.token == old(store.token) && effects == old(effects)
      ensures old(mounted) && !lookup.LookupOk? ==>
                user.None? && !loading && store.token == old(store.token) && effects == old(effects)
      ensures old(mounted) && lookup.LookupOk? ==>
                user == SessionUser(lookup.session) && !loading
                && store.token == MirroredToken(lookup.session)
                && effects == old(effects) + [MirrorEffect(lookup.session)]
    {
      if !mounted {
        return;
      }
      if !lookup.LookupOk? {
        user := None;
        loading := false;
        return;
      }
      user := SessionUser(lookup.session);
      loading := false;
      MirrorSession(lookup.session);
    }

    /** Store the session's token when it has a truthy one, otherwise remove the stored token. */
    method MirrorSession(session: Option<Session>)
      modifies this, store
      ensures store.token == MirroredToken(session) && effects == old(effects) + [MirrorEffect(session)]
      ensures user == old(user) && loading == old(loading) && mounted == old(mounted)
    {
      if session.Some? && session.value.accessToken.Some? && session.value.accessToken.value != "" {
        store.Set(session.value.accessToken.value);
      } else {
        store.Remove();
      }
      effects := effects + [MirrorEffect(session)];
    }

    /**
     * The `onAuthStateChange` callback: ignored after unmount; otherwise the
     * user follows the session and the token is mirrored, and a sign-out
     * event also removes the token and goes to the login page.
     */
    method OnAuthStateChange(event: AuthEvent, session: Option<Session>)
      modifies this, store
      ensures mounted == old(mounted)
      ensures !old(mounted) ==> user == old(user) && loading == old(loading)
                                && store.token == old(store.token) && effects == old(effects)
      ensures old(mounted) ==> user == SessionUser(session) && !loading
      ensures old(mounted) && event.OtherEvent? ==>
                store.token == MirroredToken(session) && effects == old(effects) + [MirrorEffect(session)]
      ensures old(mounted) && event.SignedOut? ==>
                store.token.None? && effects == old(effects) + [MirrorEffect(session), TokenRemoved, PushLogin]
    {
      if !mounted {
        return;
      }
      user := SessionUser(session);
      loading := false;
      MirrorSession(session);
      if event.SignedOut? {
        store.Remove();
        effects := effects + [TokenRemoved, PushLogin];
      }
    }

    /** The effect's cleanup: later events are ignored and the subscription is cancelled. */
    method Unmount()
      modifies this
      ensures !mounted
      ensures user == old(user) && loading == old(loading) && effects == old(effects)
    {
      mounted := false;
    }

    /** `handleSignOut`, given whether the provider's sign-out throws. */
    method SignOut(providerFails: bool)
      modifies this, store
      ensures store.token.None?
      ensures effects == old(effects) + SignOutEffects(providerFails)
      ensures user == old(user) && loading == old(loading) && mounted == old(mounted)
    {
      store.Remove();
      effects := effects + [TokenRemoved, ProviderSignOut];
      if providerFails {
        store.Remove();
        effects := effects + [TokenRemoved, PushLogin];
      } else {
        effects := effects + [PushLogin, RefreshPage];
      }
    }
  }
}
