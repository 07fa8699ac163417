/**
 * The client-side session provider of src/lib/auth.tsx. It holds two pieces
 * of state: the signed-in user and the loading flag. Each operation takes the
 * outcomes of the requests it makes as parameters, so the model is a
 * sequence of pure transitions.
 */
module Auth {
  import opened Wrappers
  import opened Types
  import opened Db
  import Api

  /** The provider's state: the user as the server last sent it (or as merged locally), and whether the first fetch is pending. */
  datatype AuthState = AuthState(currentUser: Option<PublicUser>, loading: bool)

  /** Before the mount effect has finished. */
  const START: AuthState := AuthState(None, true)

  /**
   * How a `fetch` ends, as the provider sees it. It either throws, or it
   * resolves with a status outside 200-299, or it resolves ok with the
   * payload's `user` member. That member is `None` when the body has no user.
   */
  datatype Reply<+T> = Threw | NotOk | Ok(data: T)

  /** What a handler's response looks like to `fetch`: `response.ok` is a 2xx status. */
  function Received(r: Api.Response): (reply: Reply<Option<PublicUser>>)
    ensures reply.Ok? <==> 200 <= r.status <= 299
    ensures reply.Ok? && r.body.UserBody? ==> reply.data == Some(r.body.user)
  {
    if 200 <= r.status <= 299 then Ok(if r.body.UserBody? then Some(r.body.user) else None) else NotOk
  }

  /** The mount effect: GET /api/auth/me; whatever happens, loading ends. */
  function Mount(s: AuthState, me: Reply<Option<PublicUser>>): (s': AuthState)
    ensures !s'.loading
    ensures me.Ok? ==> s'.currentUser == me.data
    ensures !me.Ok? ==> s'.currentUser == s.currentUser
  {
    AuthState(if me.Ok? then me.data else s.currentUser, false)
  }

  /**
   * `signup` and `login`, which differ only in the route they post to. The
   * reply is that route's answer. It gives true exactly on an ok response,
   * whose user is then adopted.
   */
  function Enter(s: AuthState, reply: Reply<Option<PublicUser>>): (r: (AuthState, bool))
    ensures r.1 <==> reply.Ok?
    ensures r.0.loading == s.loading
    ensures r.0.currentUser == if reply.Ok? then reply.data else s.currentUser
  {
    match reply
    case Ok(user) => (s.(currentUser := user), true)
    case _ => (s, false)
  }

  /** `logout`: once the request resolves, with any status, the user is dropped; if it throws, nothing changes. */
  function Logout(s: AuthState, reply: Reply<()>): (s': AuthState)
    ensures reply.Threw? ==> s' == s
    ensures !reply.Threw? ==> s'.currentUser.None? && s'.loading == s.loading
  {
    if reply.Threw? then s else s.(currentUser := None)
  }

  /** `getUser`: the public profile of a username, or nothing on any failure. */
  function GetUser(reply: Reply<Option<PublicUser>>): (r: Option<PublicUser>)
    ensures reply.Ok? ==> r == reply.data
    ensures !reply.Ok? ==> r.None?
  {
    if reply.Ok? then reply.data else None
  }

  function PickText(prior: string, patch: Patch, f: Field): string
    requires WellTyped(patch) && KindOf(f) == TextKind
  {
    if Named(f) in patch then patch[Named(f)].s else prior
  }

  function PickInt(prior: int, patch: Patch, f: Field): int
    requires WellTyped(patch) && KindOf(f) == IntKind
  {
    if Named(f) in patch then patch[Named(f)].n else prior
  }

  function PickBool(prior: bool, patch: Patch, f: Field): bool
    requires WellTyped(patch) && KindOf(f) == BoolKind
  {
    if Named(f) in patch then patch[Named(f)].b else prior
  }

  function PickLinks(prior: seq<SocialLink>, patch: Patch, f: Field): seq<SocialLink>
    requires WellTyped(patch) && KindOf(f) == LinksKind
  {
    if Named(f) in patch then patch[Named(f)].links else prior
  }

  /** The text fields of a profile after the spread. */
  function MergeText(p: Profile, patch: Patch): (r: Profile)
    requires WellTyped(patch)
  {
    p.(
      description := PickText(p.description, patch, Description),
      location := PickText(p.location, patch, Location),
      backgroundImage := PickText(p.backgroundImage, patch, BackgroundImage),
      audioUrl := PickText(p.audioUrl, patch, AudioUrl),
      avatarUrl := PickText(p.avatarUrl, patch, AvatarUrl),
      customCursor := PickText(p.customCursor, patch, CustomCursor),
      backgroundEffect := PickText(p.backgroundEffect, patch, BackgroundEffect),
      usernameEffect := PickText(p.usernameEffect, patch, UsernameEffect),
      accentColor := PickText(p.accentColor, patch, AccentColor),
      textColor := PickText(p.textColor, patch, TextColor),
      backgroundColor := PickText(p.backgroundColor, patch, BackgroundColor),
      iconColor := PickText(p.iconColor, patch, IconColor))
  }

  /** The number, toggle and link fields of a profile after the spread. */
  function MergeRest(p: Profile, patch: Patch): (r: Profile)
    requires WellTyped(patch)
  {
    p.(
      profileOpacity := PickInt(p.profileOpacity, patch, ProfileOpacity),
      profileBlur := PickInt(p.profileBlur, patch, ProfileBlur),
      monochromeIcons := PickBool(p.monochromeIcons, patch, MonochromeIcons),
      animatedTitle := PickBool(p.animatedTitle, patch, AnimatedTitle),
      swapBoxColors := PickBool(p.swapBoxColors, patch, SwapBoxColors),
      volumeControl := PickBool(p.volumeControl, patch, VolumeControl),
      useDiscordAvatar := PickBool(p.useDiscordAvatar, patch, UseDiscordAvatar),
      discordAvatarDecoration := PickBool(p.discordAvatarDecoration, patch, DiscordAvatarDecoration),
      links := PickLinks(p.links, patch, Links))
  }

  /** One field of the spread below, read from the three parts it builds. */
  lemma SpreadField(u: PublicUser, patch: Patch, r: PublicUser, f: Field)
    requires WellTyped(patch) && f != Password
    requires r.uid == PickInt(u.uid, patch, Uid)
    requires r.username == PickText(u.username, patch, Username)
    requires r.profile == MergeRest(MergeText(u.profile, patch), patch)
    ensures PublicValue(r, f) == if Named(f) in patch then Some(patch[Named(f)]) else PublicValue(u, f)
  {
    if Named(f) in patch {
      assert HasKind(patch[Named(f)], KindOf(f));
    }
  }

  /**
   * `{ ...prev, ...updates }`: the merged user shows each field the update
   * names as given, including `uid` and `username`, which the server would
   * ignore, and every other field as before.
   */
  function Merge(u: PublicUser, patch: Patch): (r: PublicUser)
    requires WellTyped(patch)
    ensures forall f {:trigger PublicValue(r, f)} :: f != Password ==>
      PublicValue(r, f) == if Named(f) in patch then Some(patch[Named(f)]) else PublicValue(u, f)
  {
    var r := PublicUser(
      uid := PickInt(u.uid, patch, Uid),
      username := PickText(u.username, patch, Username),
      profile := MergeRest(MergeText(u.profile, patch), patch));
    assert forall f {:trigger PublicValue(r, f)} :: f != Password ==>
      PublicValue(r, f) == if Named(f) in patch then Some(patch[Named(f)]) else PublicValue(u, f)
    by {
      forall f | f != Password
        ensures PublicValue(r, f) == if Named(f) in patch then Some(patch[Named(f)]) else PublicValue(u, f)
      {
        SpreadField(u, patch, r, f);
      }
    }
    r
  }

  /** The user as shown right after `updateProfile` merges locally, before the server answers. */
  function Optimistic(s: AuthState, patch: Patch): (s': AuthState)
    requires WellTyped(patch)
    ensures s'.loading == s.loading
    ensures s.currentUser.None? ==> s' == s
    ensures s.currentUser.Some? ==> s'.currentUser == Some(Merge(s.currentUser.value, patch))
  {
    match s.currentUser
    case None => s
    case Some(u) => s.(currentUser := Some(Merge(u, patch)))
  }

  /**
   * The answer of GET /api/auth/me inside `updateProfile`'s catch block. It
   * runs when the PUT throws, or when the PUT is not ok and the first /me
   * throws. An ok answer is adopted. If it throws too, the error escapes and
   * the merged user stays.
   */
  function Recover(shown: AuthState, caught: Reply<Option<PublicUser>>): AuthState {
    match caught
    case Ok(user) => shown.(currentUser := user)
    case _ => shown
  }

  /**
   * `updateProfile`. With no user nothing happens. Otherwise the merged user is
   * shown at once. It is then replaced by the PUT's user when the PUT is ok.
   * When the PUT is not ok, /me is fetched: an ok answer replaces it, a not-ok
   * answer keeps it, and a throw leads to the catch block. When the PUT
   * throws, the catch block fetches /me a second time (`caught`). So the
   * merged user remains exactly when no request answers ok.
   */
  function UpdateProfile(s: AuthState, patch: Patch, put: Reply<Option<PublicUser>>,
                         me: Reply<Option<PublicUser>>, caught: Reply<Option<PublicUser>>): (s': AuthState)
    requires WellTyped(patch)
    ensures s.currentUser.None? ==> s' == s
    ensures s'.loading == s.loading
    ensures s.currentUser.Some? && put.Ok? ==> s'.currentUser == put.data
    ensures s.currentUser.Some? && put.NotOk? && me.Ok? ==> s'.currentUser == me.data
    ensures s.currentUser.Some? && put.NotOk? && me.Threw? && caught.Ok? ==> s'.currentUser == caught.data
    ensures s.currentUser.Some? && put.Threw? && caught.Ok? ==> s'.currentUser == caught.data
    ensures s.currentUser.Some? && put.NotOk? && me.NotOk? ==> s' == Optimistic(s, patch)
    ensures s.currentUser.Some? && (put.Threw? || (put.NotOk? && me.Threw?)) && !caught.Ok? ==>
      s' == Optimistic(s, patch)
  {
    if s.currentUser.None? then s
    else
      var shown := Optimistic(s, patch);
      match put
      case Ok(user) => shown.(currentUser := user)
      case NotOk =>
        (match me
         case Ok(user) => shown.(currentUser := user)
         case NotOk => shown
         case Threw => Recover(shown, caught))
      case Threw => Recover(shown, caught)
  }

  /**
   * When every request of `updateProfile` fails, the merged value stays on
   * screen although the server never confirmed it: the PUT is not ok and /me
   * is not ok, or one of them throws and the catch block's /me fails too.
   */
  lemma FailedUpdateKeepsMerge(u: PublicUser, patch: Patch, f: Field,
                               put: Reply<Option<PublicUser>>, me: Reply<Option<PublicUser>>, caught: Reply<Option<PublicUser>>)
    requires WellTyped(patch) && f != Password && Named(f) in patch
    requires !put.Ok? && !me.Ok? && !caught.Ok?
    ensures var s' := UpdateProfile(AuthState(Some(u), false), patch, put, me, caught);
      && s'.currentUser.Some?
      && PublicValue(s'.currentUser.value, f) == Some(patch[Named(f)])
  {
  }

  /** A PUT that is not ok followed by a /me that throws is rescued by the catch block's /me. */
  lemma CatchRefetchesMe(u: PublicUser, patch: Patch, recovered: Option<PublicUser>)
    requires WellTyped(patch)
    ensures UpdateProfile(AuthState(Some(u), false), patch, NotOk, Threw, Ok(recovered)).currentUser == recovered
  {
  }

  /** Server and client agree on a field when the server stores what the client merges. */
  lemma ReadsAgree(before: UserProfile, after: UserProfile, merged: PublicUser, patch: Patch, f: Field)
    requires f != Password && Named(Uid) !in patch && Named(Username) !in patch
    requires UserValue(after, f) == if f in Filtered(patch) then patch[Named(f)] else UserValue(before, f)
    requires PublicValue(merged, f) == if Named(f) in patch then Some(patch[Named(f)]) else PublicValue(Strip(before), f)
    ensures PublicValue(Strip(after), f) == PublicValue(merged, f)
  {
    StripHidesOnlyPassword(after, f);
    StripHidesOnlyPassword(before, f);
  }

  /** One field at a time: the stored row rewritten by an update without identity keys reads as the local merge. */
  lemma MergeFieldAgrees(row: Row, patch: Patch, f: Field)
    requires WellTyped(patch)
    requires Named(Uid) !in patch && Named(Username) !in patch
    ensures PublicValue(Strip(Decode(Rewrite(row, patch, Filtered(patch)))), f) ==
      PublicValue(Merge(Strip(Decode(row)), patch), f)
  {
    if f != Password {
      var before := Decode(row);
      RowReadBack(row, patch, f);
      ReadsAgree(before, Decode(Rewrite(row, patch, Filtered(patch))), Merge(Strip(before), patch), patch, f);
    }
  }

  /** The stored row, rewritten by an update without identity keys and sent out, is the local merge of what was sent out before. */
  lemma MergeMatchesRewrite(row: Row, patch: Patch)
    requires WellTyped(patch)
    requires Named(Uid) !in patch && Named(Username) !in patch
    ensures Strip(Decode(Rewrite(row, patch, Filtered(patch)))) == Merge(Strip(Decode(row)), patch)
  {
    forall f ensures PublicValue(Strip(Decode(Rewrite(row, patch, Filtered(patch)))), f) ==
      PublicValue(Merge(Strip(Decode(row)), patch), f)
    {
      MergeFieldAgrees(row, patch, f);
    }
    PublicExtensionality(Strip(Decode(Rewrite(row, patch, Filtered(patch)))), Merge(Strip(Decode(row)), patch));
  }

  /**
   * A client in sync with the table sends an update with at least one
   * allowlisted key and none of the identity keys, for the session the
   * cookie names. The server then answers 200 with exactly the user the
   * client merged locally, so the reconciliation leaves the screen as it was.
   */
  lemma OptimisticAgreesWithServer(s: Store, cookie: Option<string>, patch: Patch,
                                   me: Reply<Option<PublicUser>>, caught: Reply<Option<PublicUser>>)
    requires Valid(s) && WellTyped(patch) && Filtered(patch) != {}
    requires Named(Uid) !in patch && Named(Username) !in patch && Named(Password) !in patch
    requires Api.Present(cookie)
    requires Api.ParseInt(cookie.value).Some? && Api.ParseInt(cookie.value).value in s.rows
    ensures var uid := Api.ParseInt(cookie.value).value;
      var client := AuthState(Some(Strip(UserAt(s, uid))), false);
      var r := Api.ProfilePut(s, cookie, patch).1;
      && r.status == Api.OK
      && UpdateProfile(client, patch, Received(r), me, caught) == Optimistic(client, patch)
  {
    var uid := Api.ParseInt(cookie.value).value;
    MergeMatchesRewrite(s.rows[uid], patch);
  }

  /** A failed first fetch leaves the provider signed out and no longer loading, so `updateProfile` then does nothing. */
  lemma FailedMountSignsOut(me: Reply<Option<PublicUser>>, patch: Patch,
                            put: Reply<Option<PublicUser>>, again: Reply<Option<PublicUser>>, caught: Reply<Option<PublicUser>>)
    requires WellTyped(patch) && !me.Ok?
    ensures Mount(START, me) == AuthState(None, false)
    ensures UpdateProfile(Mount(START, me), patch, put, again, caught) == Mount(START, me)
  {
  }

  /** After a logout that resolved, `updateProfile` does nothing, whatever its requests would answer. */
  lemma LogoutEndsUpdates(s: AuthState, reply: Reply<()>, patch: Patch,
                          put: Reply<Option<PublicUser>>, me: Reply<Option<PublicUser>>, caught: Reply<Option<PublicUser>>)
    requires WellTyped(patch) && !reply.Threw?
    ensures UpdateProfile(Logout(s, reply), patch, put, me, caught) == Logout(s, reply)
  {
  }

  /** `getUser` against a route answer: the body's user exactly for a 2xx answer carrying one, otherwise nothing. */
  lemma GetUserReadsBody(r: Api.Response)
    ensures GetUser(Received(r)).Some? <==> 200 <= r.status <= 299 && r.body.UserBody?
    ensures GetUser(Received(r)).Some? ==> GetUser(Received(r)).value == r.body.user
  {
  }

  /** Signing up through the client against the signup route: true exactly on 201, and then the new account is shown. */
  lemma ClientSignup(a: AuthState, s: Store, c: Api.Credentials, production: bool)
    requires Valid(s)
    ensures var (s', r) := Api.Signup(s, c, production);
      var (a', ok) := Enter(a, Received(r));
      && (ok <==> r.status == Api.CREATED)
      && (ok ==> a'.currentUser == Some(Strip(UserAt(s', s'.lastUid))))
      && (!ok ==> a' == a)
  {
  }

  /** Logging in through the client against the login route: true exactly when a row matches, whose user is then shown. */
  lemma ClientLogin(a: AuthState, s: Store, c: Api.Credentials, production: bool)
    requires Valid(s)
    ensures var r := Api.Login(s, c, production);
      var (a', ok) := Enter(a, Received(r));
      && (ok <==> Api.Present(c.username) && Api.Present(c.password)
                  && Authenticate(s, c.username.value, c.password.value).Some?)
      && (ok ==> a'.currentUser == Some(Strip(Authenticate(s, c.username.value, c.password.value).value)))
      && (!ok ==> a' == a)
  {
  }
}
