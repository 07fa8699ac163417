/**
 * The shapes of src/lib/types.ts: the user record, its links, the defaults a
 * new profile starts from and the catalogue of link platforms.
 */
module Types {
  import opened Wrappers

  /** One entry of a profile's link list. */
  datatype SocialLink = SocialLink(id: string, platform: string, url: string, icon: string)

  /**
   * Every customizable field of a user record, that is every field except
   * `uid`, `username` and `password` (the type of DEFAULT_USER).
   * JavaScript numbers are modelled as integers.
   */
  datatype Profile = Profile(
    description: string,
    location: string,
    backgroundImage: string,
    audioUrl: string,
    avatarUrl: string,
    customCursor: string,
    backgroundEffect: string,
    usernameEffect: string,
    profileOpacity: int,
    profileBlur: int,
    accentColor: string,
    textColor: string,
    backgroundColor: string,
    iconColor: string,
    monochromeIcons: bool,
    animatedTitle: bool,
    swapBoxColors: bool,
    volumeControl: bool,
    useDiscordAvatar: bool,
    discordAvatarDecoration: bool,
    links: seq<SocialLink>)

  /** A stored user: identity, plaintext password and profile. */
  datatype UserProfile = UserProfile(uid: int, username: string, password: string, profile: Profile)

  /** A user as the server sends it out: the record without its `password` field. */
  datatype PublicUser = PublicUser(uid: int, username: string, profile: Profile)

  /** The fields of UserProfile, one constructor per property name (and per SQL column). */
  datatype Field =
    | Uid | Username | Password
    | Description | Location
    | BackgroundImage | AudioUrl | AvatarUrl | CustomCursor
    | BackgroundEffect | UsernameEffect | ProfileOpacity | ProfileBlur
    | AccentColor | TextColor | BackgroundColor | IconColor
    | MonochromeIcons | AnimatedTitle | SwapBoxColors | VolumeControl
    | UseDiscordAvatar | DiscordAvatarDecoration
    | Links

  /** The identity fields; every other field is a customizable one. */
  predicate IsIdentity(f: Field) {
    f == Uid || f == Username || f == Password
  }

  /** A JSON value a client sends for one field of a partial update. */
  datatype Value = Str(s: string) | Num(n: int) | Bool(b: bool) | List(links: seq<SocialLink>)

  /** The declared TypeScript type of a field. */
  datatype Kind = TextKind | IntKind | BoolKind | LinksKind

  function KindOf(f: Field): Kind {
    match f
    case Uid | ProfileOpacity | ProfileBlur => IntKind
    case MonochromeIcons | AnimatedTitle | SwapBoxColors | VolumeControl
       | UseDiscordAvatar | DiscordAvatarDecoration => BoolKind
    case Links => LinksKind
    case _ => TextKind
  }

  predicate HasKind(v: Value, k: Kind) {
    match k
    case TextKind => v.Str?
    case IntKind => v.Num?
    case BoolKind => v.Bool?
    case LinksKind => v.List?
  }

  /**
   * A key of a JSON request object: either the name of a UserProfile field
   * or some other name, which no part of the system knows.
   */
  datatype Key = Named(field: Field) | Unknown(name: string)

  /** A partial update `Partial<UserProfile>`; it may carry unknown keys. */
  type Patch = map<Key, Value>

  /** The property name of a field in the JSON request object (and its SQL column name). */
  function FieldName(f: Field): string {
    match f
    case Uid => "uid"
    case Username => "username"
    case Password => "password"
    case Description => "description"
    case Location => "location"
    case BackgroundImage => "backgroundImage"
    case AudioUrl => "audioUrl"
    case AvatarUrl => "avatarUrl"
    case CustomCursor => "customCursor"
    case BackgroundEffect => "backgroundEffect"
    case UsernameEffect => "usernameEffect"
    case ProfileOpacity => "profileOpacity"
    case ProfileBlur => "profileBlur"
    case AccentColor => "accentColor"
    case TextColor => "textColor"
    case BackgroundColor => "backgroundColor"
    case IconColor => "iconColor"
    case MonochromeIcons => "monochromeIcons"
    case AnimatedTitle => "animatedTitle"
    case SwapBoxColors => "swapBoxColors"
    case VolumeControl => "volumeControl"
    case UseDiscordAvatar => "useDiscordAvatar"
    case DiscordAvatarDecoration => "discordAvatarDecoration"
    case Links => "links"
  }

  /**
   * A patch read from a JSON object. Each key that names a field carries a
   * value of that field's declared type. A key spelled like a field is that
   * field, so no unknown key has a field's name.
   */
  predicate WellTyped(patch: Patch) {
    && (forall f :: Named(f) in patch ==> HasKind(patch[Named(f)], KindOf(f)))
    && (forall k, f :: k in patch && k.Unknown? ==> k.name != FieldName(f))
  }

  /** Reads a customizable field by name; identity fields are not part of a Profile. */
  function ProfileValue(p: Profile, f: Field): Option<Value> {
    match f
    case Uid | Username | Password => None
    case Description => Some(Str(p.description))
    case Location => Some(Str(p.location))
    case BackgroundImage => Some(Str(p.backgroundImage))
    case AudioUrl => Some(Str(p.audioUrl))
    case AvatarUrl => Some(Str(p.avatarUrl))
    case CustomCursor => Some(Str(p.customCursor))
    case BackgroundEffect => Some(Str(p.backgroundEffect))
    case UsernameEffect => Some(Str(p.usernameEffect))
    case ProfileOpacity => Some(Num(p.profileOpacity))
    case ProfileBlur => Some(Num(p.profileBlur))
    case AccentColor => Some(Str(p.accentColor))
    case TextColor => Some(Str(p.textColor))
    case BackgroundColor => Some(Str(p.backgroundColor))
    case IconColor => Some(Str(p.iconColor))
    case MonochromeIcons => Some(Bool(p.monochromeIcons))
    case AnimatedTitle => Some(Bool(p.animatedTitle))
    case SwapBoxColors => Some(Bool(p.swapBoxColors))
    case VolumeControl => Some(Bool(p.volumeControl))
    case UseDiscordAvatar => Some(Bool(p.useDiscordAvatar))
    case DiscordAvatarDecoration => Some(Bool(p.discordAvatarDecoration))
    case Links => Some(List(p.links))
  }

  /** Reads any field of a stored user. */
  function UserValue(u: UserProfile, f: Field): Value {
    match f
    case Uid => Num(u.uid)
    case Username => Str(u.username)
    case Password => Str(u.password)
    case _ => ProfileValue(u.profile, f).value
  }

  /** Reads any field of an outgoing user; there is no `password` to read. */
  function PublicValue(u: PublicUser, f: Field): Option<Value> {
    match f
    case Uid => Some(Num(u.uid))
    case Username => Some(Str(u.username))
    case Password => None
    case _ => ProfileValue(u.profile, f)
  }

  /** Removes the password, as `const { password: _, ...userWithoutPassword } = user` does. */
  function Strip(u: UserProfile): PublicUser {
    PublicUser(u.uid, u.username, u.profile)
  }

  /** The outgoing user shows every field of the stored one, and the password is not among them. */
  lemma StripHidesOnlyPassword(u: UserProfile, f: Field)
    ensures PublicValue(Strip(u), f) == if f == Password then None else Some(UserValue(u, f))
  {
  }

  /** A customizable field is present in a Profile exactly when it is not an identity field, and it has its declared type. */
  lemma ProfileFieldsTyped(p: Profile, f: Field)
    ensures ProfileValue(p, f).Some? <==> !IsIdentity(f)
    ensures ProfileValue(p, f).Some? ==> HasKind(ProfileValue(p, f).value, KindOf(f))
  {
  }

  /** Every field of a stored user, identity fields included, holds a value of its declared type. */
  lemma UserFieldsTyped(u: UserProfile, f: Field)
    ensures HasKind(UserValue(u, f), KindOf(f))
  {
    ProfileFieldsTyped(u.profile, f);
  }

  /** The text fields of two profiles that read alike are equal. */
  lemma TextFieldsAgree(a: Profile, b: Profile)
    requires forall f :: ProfileValue(a, f) == ProfileValue(b, f)
    ensures a.description == b.description && a.location == b.location && a.backgroundImage == b.backgroundImage && a.audioUrl == b.audioUrl && a.avatarUrl == b.avatarUrl && a.customCursor == b.customCursor && a.backgroundEffect == b.backgroundEffect && a.usernameEffect == b.usernameEffect
  {
    assert ProfileValue(a, Description) == ProfileValue(b, Description);
    assert ProfileValue(a, Location) == ProfileValue(b, Location);
    assert ProfileValue(a, BackgroundImage) == ProfileValue(b, BackgroundImage);
    assert ProfileValue(a, AudioUrl) == ProfileValue(b, AudioUrl);
    assert ProfileValue(a, AvatarUrl) == ProfileValue(b, AvatarUrl);
    assert ProfileValue(a, CustomCursor) == ProfileValue(b, CustomCursor);
    assert ProfileValue(a, BackgroundEffect) == ProfileValue(b, BackgroundEffect);
    assert ProfileValue(a, UsernameEffect) == ProfileValue(b, UsernameEffect);
  }

  /** The number and colour fields of two profiles that read alike are equal. */
  lemma StyleFieldsAgree(a: Profile, b: Profile)
    requires forall f :: ProfileValue(a, f) == ProfileValue(b, f)
    ensures a.profileOpacity == b.profileOpacity && a.profileBlur == b.profileBlur && a.accentColor == b.accentColor && a.textColor == b.textColor && a.backgroundColor == b.backgroundColor && a.iconColor == b.iconColor
  {
    assert ProfileValue(a, ProfileOpacity) == ProfileValue(b, ProfileOpacity);
    assert ProfileValue(a, ProfileBlur) == ProfileValue(b, ProfileBlur);
    assert ProfileValue(a, AccentColor) == ProfileValue(b, AccentColor);
    assert ProfileValue(a, TextColor) == ProfileValue(b, TextColor);
    assert ProfileValue(a, BackgroundColor) == ProfileValue(b, BackgroundColor);
    assert ProfileValue(a, IconColor) == ProfileValue(b, IconColor);
  }

  /** The toggles and links of two profiles that read alike are equal. */
  lemma ToggleFieldsAgree(a: Profile, b: Profile)
    requires forall f :: ProfileValue(a, f) == ProfileValue(b, f)
    ensures a.monochromeIcons == b.monochromeIcons && a.animatedTitle == b.animatedTitle && a.swapBoxColors == b.swapBoxColors && a.volumeControl == b.volumeControl && a.useDiscordAvatar == b.useDiscordAvatar && a.discordAvatarDecoration == b.discordAvatarDecoration && a.links == b.links
  {
    assert ProfileValue(a, MonochromeIcons) == ProfileValue(b, MonochromeIcons);
    assert ProfileValue(a, AnimatedTitle) == ProfileValue(b, AnimatedTitle);
    assert ProfileValue(a, SwapBoxColors) == ProfileValue(b, SwapBoxColors);
    assert ProfileValue(a, VolumeControl) == ProfileValue(b, VolumeControl);
    assert ProfileValue(a, UseDiscordAvatar) == ProfileValue(b, UseDiscordAvatar);
    assert ProfileValue(a, DiscordAvatarDecoration) == ProfileValue(b, DiscordAvatarDecoration);
    assert ProfileValue(a, Links) == ProfileValue(b, Links);
  }

  /** A profile is determined by what its fields read. */
  lemma ProfileExtensionality(a: Profile, b: Profile)
    requires forall f :: ProfileValue(a, f) == ProfileValue(b, f)
    ensures a == b
  {
    TextFieldsAgree(a, b);
    StyleFieldsAgree(a, b);
    ToggleFieldsAgree(a, b);
  }

  /** An outgoing user is determined by what its fields read. */
  lemma PublicExtensionality(a: PublicUser, b: PublicUser)
    requires forall f :: PublicValue(a, f) == PublicValue(b, f)
    ensures a == b
  {
    assert PublicValue(a, Uid) == PublicValue(b, Uid);
    assert PublicValue(a, Username) == PublicValue(b, Username);
    forall f ensures ProfileValue(a.profile, f) == ProfileValue(b.profile, f) {
      if !IsIdentity(f) {
        assert PublicValue(a, f) == PublicValue(b, f);
      }
    }
    ProfileExtensionality(a.profile, b.profile);
  }

  const DEFAULT_USER: Profile := Profile(
    description := "",
    location := "",
    backgroundImage := "",
    audioUrl := "",
    avatarUrl := "",
    customCursor := "",
    backgroundEffect := "none",
    usernameEffect := "",
    profileOpacity := 50,
    profileBlur := 0,
    accentColor := "#1b1b1b",
    textColor := "#ffffff",
    backgroundColor := "#080808",
    iconColor := "#ffffff",
    monochromeIcons := false,
    animatedTitle := false,
    swapBoxColors := false,
    volumeControl := false,
    useDiscordAvatar := false,
    discordAvatarDecoration := false,
    links := [])

  /** Every toggle of a new profile is off. */
  lemma DefaultTogglesOff(f: Field)
    requires KindOf(f) == BoolKind
    ensures ProfileValue(DEFAULT_USER, f) == Some(Bool(false))
  {
  }

  /** A new profile is half opaque, unblurred, without background effect and without links. */
  lemma DefaultUserShape()
    ensures ProfileValue(DEFAULT_USER, ProfileOpacity) == Some(Num(50))
    ensures ProfileValue(DEFAULT_USER, ProfileBlur) == Some(Num(0))
    ensures ProfileValue(DEFAULT_USER, BackgroundEffect) == Some(Str("none"))
    ensures ProfileValue(DEFAULT_USER, Links) == Some(List([]))
  {
  }
}
