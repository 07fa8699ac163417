/**
 * The user table of src/lib/db.ts. The SQLite table is a map from uid to row,
 * a row holds one value per column in the column's storage type, and
 * `lastUid` is the table's AUTOINCREMENT counter (its sqlite_sequence entry).
 */
module Db {
  import opened Wrappers
  import opened Types

  /** TEXT holding `JSON.stringify` of a link list; the text is represented by the list it denotes. */
  datatype JsonText = JsonOf(links: seq<SocialLink>)

  /**
   * One row of the `users` table, in the order of the CREATE TABLE statement
   * (the creation timestamp left aside). Toggles are INTEGER columns holding 0 or 1.
   */
  datatype Row = Row(
    uid: int,
    username: string,
    password: string,
    description: string,
    location: string,
    backgroundImage: string,
    audioUrl: string,
    avatarUrl: string,
    customCursor: string,
    backgroundEffect: string,
    usernameEffect: string,
    profileOpacity: int,
    profileBlur: int,
    accentColor: string,
    textColor: string,
    backgroundColor: string,
    iconColor: string,
    monochromeIcons: int,
    animatedTitle: int,
    swapBoxColors: int,
    volumeControl: int,
    useDiscordAvatar: int,
    discordAvatarDecoration: int,
    links: JsonText)

  /** A stored value of any column: INTEGER, TEXT, or TEXT holding JSON. */
  datatype Cell = IntCell(i: int) | TextCell(t: string) | JsonCell(json: JsonText)

  /** The cell of the column named by a field. */
  function CellAt(row: Row, f: Field): Cell {
    match f
    case Uid => IntCell(row.uid)
    case Username => TextCell(row.username)
    case Password => TextCell(row.password)
    case Description => TextCell(row.description)
    case Location => TextCell(row.location)
    case BackgroundImage => TextCell(row.backgroundImage)
    case AudioUrl => TextCell(row.audioUrl)
    case AvatarUrl => TextCell(row.avatarUrl)
    case CustomCursor => TextCell(row.customCursor)
    case BackgroundEffect => TextCell(row.backgroundEffect)
    case UsernameEffect => TextCell(row.usernameEffect)
    case ProfileOpacity => IntCell(row.profileOpacity)
    case ProfileBlur => IntCell(row.profileBlur)
    case AccentColor => TextCell(row.accentColor)
    case TextColor => TextCell(row.textColor)
    case BackgroundColor => TextCell(row.backgroundColor)
    case IconColor => TextCell(row.iconColor)
    case MonochromeIcons => IntCell(row.monochromeIcons)
    case AnimatedTitle => IntCell(row.animatedTitle)
    case SwapBoxColors => IntCell(row.swapBoxColors)
    case VolumeControl => IntCell(row.volumeControl)
    case UseDiscordAvatar => IntCell(row.useDiscordAvatar)
    case DiscordAvatarDecoration => IntCell(row.discordAvatarDecoration)
    case Links => JsonCell(row.links)
  }

  /** The largest rowid SQLite hands out; once it is used, AUTOINCREMENT inserts fail. */
  const MAX_ROWID: int := 0x7FFF_FFFF_FFFF_FFFF

  datatype Store = Store(rows: map<int, Row>, lastUid: int)

  /** The table as first created: no rows, counter at zero. */
  const EMPTY: Store := Store(map[], 0)

  /** Why an INSERT is refused: the UNIQUE username constraint, or rowids exhausted. */
  datatype DbError = UniqueViolation | Full

  /** The invariant the schema and the AUTOINCREMENT counter maintain. */
  predicate Valid(s: Store) {
    && 0 <= s.lastUid <= MAX_ROWID
    && (forall u :: u in s.rows ==> 1 <= u <= s.lastUid && s.rows[u].uid == u)
    && (forall u, v :: u in s.rows && v in s.rows && s.rows[u].username == s.rows[v].username ==> u == v)
  }

  lemma EmptyIsValid()
    ensures Valid(EMPTY)
  {
  }

  /** The field names `update` accepts, in the order the allowlist gives them. */
  const ALLOWED_FIELDS: seq<Field> := [
    Description, Location, BackgroundImage, AudioUrl, AvatarUrl,
    CustomCursor, BackgroundEffect, UsernameEffect, ProfileOpacity,
    ProfileBlur, AccentColor, TextColor, BackgroundColor, IconColor,
    MonochromeIcons, AnimatedTitle, SwapBoxColors, VolumeControl,
    UseDiscordAvatar, DiscordAvatarDecoration, Links]

  /** The allowlist is exactly the customizable part of a user: DEFAULT_USER's fields. */
  lemma AllowlistIsProfile(f: Field)
    ensures f in ALLOWED_FIELDS <==> !IsIdentity(f)
    ensures f in ALLOWED_FIELDS <==> ProfileValue(DEFAULT_USER, f).Some?
  {
    ProfileFieldsTyped(DEFAULT_USER, f);
  }

  /** The cell a column of the given declared type holds: booleans live in INTEGER columns. */
  predicate Fits(c: Cell, k: Kind) {
    match k
    case TextKind => c.TextCell?
    case IntKind | BoolKind => c.IntCell?
    case LinksKind => c.JsonCell?
  }

  /** Every column holds a cell of its field's storage class. */
  lemma CellFits(row: Row, f: Field)
    ensures Fits(CellAt(row, f), KindOf(f))
  {
  }

  /** How a row reader turns a cell into a field value: `Boolean(n)` for toggles, `JSON.parse` for links. */
  function ReadCell(c: Cell, k: Kind): (v: Value)
    requires Fits(c, k)
    ensures HasKind(v, k)
  {
    match k
    case TextKind => Str(c.t)
    case IntKind => Num(c.i)
    case BoolKind => Bool(c.i != 0)
    case LinksKind => List(c.json.links)
  }

  /** How `update` binds a value: JSON text for links, 1/0 for booleans, the value itself otherwise. */
  function EncodeValue(f: Field, v: Value): (c: Cell)
    requires HasKind(v, KindOf(f))
  {
    if f == Links then JsonCell(JsonOf(v.links))
    else match v
      case Bool(b) => IntCell(if b then 1 else 0)
      case Num(n) => IntCell(n)
      case Str(s) => TextCell(s)
      case List(l) => assert false; JsonCell(JsonOf(l))
  }

  /** What is written reads back unchanged: booleans through 0/1 and `Boolean()`, links through JSON. */
  lemma EncodeRoundTrip(f: Field, v: Value)
    requires HasKind(v, KindOf(f))
    ensures Fits(EncodeValue(f, v), KindOf(f))
    ensures ReadCell(EncodeValue(f, v), KindOf(f)) == v
  {
  }

  /** The row readers' result: the raw row with toggles through `Boolean()` and links parsed. */
  function Decode(row: Row): UserProfile {
    UserProfile(
      uid := row.uid,
      username := row.username,
      password := row.password,
      profile := Profile(
        description := row.description,
        location := row.location,
        backgroundImage := row.backgroundImage,
        audioUrl := row.audioUrl,
        avatarUrl := row.avatarUrl,
        customCursor := row.customCursor,
        backgroundEffect := row.backgroundEffect,
        usernameEffect := row.usernameEffect,
        profileOpacity := row.profileOpacity,
        profileBlur := row.profileBlur,
        accentColor := row.accentColor,
        textColor := row.textColor,
        backgroundColor := row.backgroundColor,
        iconColor := row.iconColor,
        monochromeIcons := row.monochromeIcons != 0,
        animatedTitle := row.animatedTitle != 0,
        swapBoxColors := row.swapBoxColors != 0,
        volumeControl := row.volumeControl != 0,
        useDiscordAvatar := row.useDiscordAvatar != 0,
        discordAvatarDecoration := row.discordAvatarDecoration != 0,
        links := row.links.links))
  }

  /** Each field of a decoded row is its column's cell read as that field's type. */
  lemma DecodeReadsCells(row: Row, f: Field)
    ensures Fits(CellAt(row, f), KindOf(f))
    ensures UserValue(Decode(row), f) == ReadCell(CellAt(row, f), KindOf(f))
  {
  }

  /** SQLite's built-in LOWER(): ASCII letters only, every other character unchanged. */
  function LowerChar(c: char): char {
    if 'A' <= c <= 'Z' then (c as int + 32) as char else c
  }

  function Lower(s: string): (r: string)
    ensures |r| == |s|
    ensures forall i :: 0 <= i < |s| ==> r[i] == LowerChar(s[i])
  {
    seq(|s|, i requires 0 <= i < |s| => LowerChar(s[i]))
  }

  /** `LOWER(a) = LOWER(b)`: equality up to ASCII case. */
  predicate SameFold(a: string, b: string) {
    Lower(a) == Lower(b)
  }

  /** Folding reaches ASCII letters only: "Bob" and "bob" collide, "Ä" and "ä" do not. */
  lemma FoldingIsAsciiOnly()
    ensures SameFold("Bob", "bob")
    ensures !SameFold("Ä", "ä")
  {
    assert Lower("Bob")[0] == 'b';
    assert Lower("Ä")[0] == 'Ä';
  }

  /** The WHERE clause of a username lookup, with or without the password. */
  datatype Query = ByName(name: string) | ByCredentials(name: string, password: string)

  predicate Matches(row: Row, q: Query) {
    && SameFold(row.username, q.name)
    && (q.ByCredentials? ==> row.password == q.password)
  }

  /** The first row in uid order within [lo, hi] that satisfies the query: a table scan. */
  function FirstMatch(rows: map<int, Row>, q: Query, lo: int, hi: int): (r: Option<int>)
    decreases hi - lo
    ensures r.Some? ==> lo <= r.value <= hi && r.value in rows && Matches(rows[r.value], q)
    ensures r.Some? ==> forall u :: lo <= u < r.value && u in rows ==> !Matches(rows[u], q)
    ensures r.None? ==> forall u :: lo <= u <= hi && u in rows ==> !Matches(rows[u], q)
  {
    if lo > hi then None
    else if lo in rows && Matches(rows[lo], q) then Some(lo)
    else FirstMatch(rows, q, lo + 1, hi)
  }

  /** The user stored under a uid, as the row readers return it. */
  function UserAt(s: Store, uid: int): (u: UserProfile)
    requires Valid(s) && uid in s.rows
    ensures u.uid == uid
  {
    Decode(s.rows[uid])
  }

  /** `findByUid`: exact match on the primary key. */
  function FindByUid(s: Store, uid: int): (r: Option<UserProfile>)
    requires Valid(s)
    ensures r.Some? <==> uid in s.rows
    ensures r.Some? ==> r.value == UserAt(s, uid) && r.value.uid == uid
  {
    if uid in s.rows then Some(UserAt(s, uid)) else None
  }

  /** Runs a username query: the first matching row in uid order. */
  function Lookup(s: Store, q: Query): (r: Option<UserProfile>)
    requires Valid(s)
    ensures r.Some? ==> r.value.uid in s.rows && r.value == UserAt(s, r.value.uid)
    ensures r.Some? ==> Matches(s.rows[r.value.uid], q)
    ensures r.Some? ==> forall u :: u in s.rows && u < r.value.uid ==> !Matches(s.rows[u], q)
    ensures r.None? <==> forall u :: u in s.rows ==> !Matches(s.rows[u], q)
  {
    match FirstMatch(s.rows, q, 1, s.lastUid)
    case None => None
    case Some(uid) => Some(UserAt(s, uid))
  }

  /** `findByUsername`: a user iff some stored username equals the query up to ASCII case. */
  function FindByUsername(s: Store, name: string): (r: Option<UserProfile>)
    requires Valid(s)
    ensures r.Some? ==> r.value.uid in s.rows && r.value == UserAt(s, r.value.uid) && SameFold(r.value.username, name)
    ensures r.None? <==> forall u :: u in s.rows ==> !SameFold(s.rows[u].username, name)
  {
    Lookup(s, ByName(name))
  }

  /** `authenticate`: a user iff the username matches up to ASCII case and the password exactly. */
  function Authenticate(s: Store, name: string, password: string): (r: Option<UserProfile>)
    requires Valid(s)
    ensures r.Some? ==> r.value.uid in s.rows && r.value == UserAt(s, r.value.uid)
    ensures r.Some? ==> SameFold(r.value.username, name) && r.value.password == password
    ensures r.None? <==> forall u :: u in s.rows ==> !(SameFold(s.rows[u].username, name) && s.rows[u].password == password)
  {
    Lookup(s, ByCredentials(name, password))
  }

  /** Some row already holds exactly this username (the column's UNIQUE check is case-sensitive). */
  predicate UsernameTaken(s: Store, name: string) {
    exists u :: u in s.rows && s.rows[u].username == name
  }

  /** The row `INSERT INTO users (username, password)` produces: every other column takes its DEFAULT. */
  function NewRow(uid: int, username: string, password: string): Row {
    Row(
      uid := uid,
      username := username,
      password := password,
      description := "",
      location := "",
      backgroundImage := "",
      audioUrl := "",
      avatarUrl := "",
      customCursor := "",
      backgroundEffect := "none",
      usernameEffect := "",
      profileOpacity := 50,
      profileBlur := 0,
      accentColor := "#1b1b1b",
      textColor := "#ffffff",
      backgroundColor := "#080808",
      iconColor := "#ffffff",
      monochromeIcons := 0,
      animatedTitle := 0,
      swapBoxColors := 0,
      volumeControl := 0,
      useDiscordAvatar := 0,
      discordAvatarDecoration := 0,
      links := JsonOf([]))
  }

  /** The SQL column defaults and DEFAULT_USER describe the same profile. */
  lemma DefaultsAgree(uid: int, username: string, password: string)
    ensures Decode(NewRow(uid, username, password)) == UserProfile(uid, username, password, DEFAULT_USER)
  {
  }

  /** Adding a fresh row above the counter keeps the table's invariant. */
  lemma InsertKeepsValid(s: Store, username: string, password: string)
    requires Valid(s) && s.lastUid < MAX_ROWID && !UsernameTaken(s, username)
    ensures Valid(Store(s.rows[s.lastUid + 1 := NewRow(s.lastUid + 1, username, password)], s.lastUid + 1))
  {
  }

  /** `create`: inserts a row with a fresh uid and every other column at its default. */
  function Create(s: Store, username: string, password: string): (r: Result<(Store, int), DbError>)
    requires Valid(s)
    ensures r.Failure? <==> s.lastUid == MAX_ROWID || UsernameTaken(s, username)
    ensures r.Failure? ==> (r.error == UniqueViolation <==> s.lastUid < MAX_ROWID)
    ensures r.Failure? ==> r.error == Full || UsernameTaken(s, username)
    ensures r.Success? ==> Valid(r.value.0)
    ensures r.Success? ==>
      var (s', uid) := r.value;
      && uid > s.lastUid
      && (forall u :: u in s.rows ==> uid > u)
      && s'.rows.Keys == s.rows.Keys + {uid}
      && (forall u :: u in s.rows ==> s'.rows[u] == s.rows[u])
      && UserAt(s', uid) == UserProfile(uid, username, password, DEFAULT_USER)
  {
    if s.lastUid == MAX_ROWID then Failure(Full)
    else if UsernameTaken(s, username) then Failure(UniqueViolation)
    else
      var uid := s.lastUid + 1;
      DefaultsAgree(uid, username, password);
      InsertKeepsValid(s, username, password);
      Success((Store(s.rows[uid := NewRow(uid, username, password)], uid), uid))
  }

  /** The allowlisted fields a partial update names; unknown keys and identity fields fall out. */
  function Filtered(patch: Patch): (fields: set<Field>)
    ensures forall f :: f in fields <==> Named(f) in patch && !IsIdentity(f)
  {
    AllowlistFacts();
    set k | k in patch.Keys && k.Named? && k.field in ALLOWED_FIELDS :: k.field
  }

  lemma AllowlistFacts()
    ensures forall f :: f in ALLOWED_FIELDS <==> !IsIdentity(f)
  {
    forall f ensures f in ALLOWED_FIELDS <==> !IsIdentity(f) {
      AllowlistIsProfile(f);
    }
  }

  /** The fields a SET clause may name: each supplied, none an identity field. */
  predicate SetClause(patch: Patch, fields: set<Field>) {
    forall g :: g in fields ==> Named(g) in patch && !IsIdentity(g)
  }

  /** What the SET clause leaves in a TEXT column. */
  function PutText(prior: string, patch: Patch, fields: set<Field>, f: Field): string
    requires WellTyped(patch) && SetClause(patch, fields) && KindOf(f) == TextKind
  {
    if f in fields then EncodeValue(f, patch[Named(f)]).t else prior
  }

  /** What the SET clause leaves in an INTEGER column (numbers, and booleans as 1/0). */
  function PutInt(prior: int, patch: Patch, fields: set<Field>, f: Field): int
    requires WellTyped(patch) && SetClause(patch, fields) && (KindOf(f) == IntKind || KindOf(f) == BoolKind)
  {
    if f in fields then EncodeValue(f, patch[Named(f)]).i else prior
  }

  /** What the SET clause leaves in the JSON `links` column. */
  function PutJson(prior: JsonText, patch: Patch, fields: set<Field>, f: Field): JsonText
    requires WellTyped(patch) && SetClause(patch, fields) && KindOf(f) == LinksKind
  {
    if f in fields then EncodeValue(f, patch[Named(f)]).json else prior
  }

  /** The TEXT columns of a row after the SET clause. */
  function RewriteText(row: Row, patch: Patch, fields: set<Field>): Row
    requires WellTyped(patch) && SetClause(patch, fields)
  {
    row.(
      description := PutText(row.description, patch, fields, Description),
      location := PutText(row.location, patch, fields, Location),
      backgroundImage := PutText(row.backgroundImage, patch, fields, BackgroundImage),
      audioUrl := PutText(row.audioUrl, patch, fields, AudioUrl),
      avatarUrl := PutText(row.avatarUrl, patch, fields, AvatarUrl),
      customCursor := PutText(row.customCursor, patch, fields, CustomCursor),
      backgroundEffect := PutText(row.backgroundEffect, patch, fields, BackgroundEffect),
      usernameEffect := PutText(row.usernameEffect, patch, fields, UsernameEffect),
      accentColor := PutText(row.accentColor, patch, fields, AccentColor),
      textColor := PutText(row.textColor, patch, fields, TextColor),
      backgroundColor := PutText(row.backgroundColor, patch, fields, BackgroundColor),
      iconColor := PutText(row.iconColor, patch, fields, IconColor))
  }

  /** The INTEGER columns and the JSON `links` column of a row after the SET clause. */
  function RewriteNumbers(row: Row, patch: Patch, fields: set<Field>): Row
    requires WellTyped(patch) && SetClause(patch, fields)
  {
    row.(
      profileOpacity := PutInt(row.profileOpacity, patch, fields, ProfileOpacity),
      profileBlur := PutInt(row.profileBlur, patch, fields, ProfileBlur),
      monochromeIcons := PutInt(row.monochromeIcons, patch, fields, MonochromeIcons),
      animatedTitle := PutInt(row.animatedTitle, patch, fields, AnimatedTitle),
      swapBoxColors := PutInt(row.swapBoxColors, patch, fields, SwapBoxColors),
      volumeControl := PutInt(row.volumeControl, patch, fields, VolumeControl),
      useDiscordAvatar := PutInt(row.useDiscordAvatar, patch, fields, UseDiscordAvatar),
      discordAvatarDecoration := PutInt(row.discordAvatarDecoration, patch, fields, DiscordAvatarDecoration),
      links := PutJson(row.links, patch, fields, Links))
  }

  /** The row after `UPDATE users SET <fields> WHERE uid = ?`; the identity columns are never in the SET clause. */
  function Rewrite(row: Row, patch: Patch, fields: set<Field>): Row
    requires WellTyped(patch) && SetClause(patch, fields)
  {
    RewriteNumbers(RewriteText(row, patch, fields), patch, fields)
  }

  /** Column by column: a rewritten row holds the bound value where the SET clause names the column, the old cell elsewhere. */
  lemma RewriteCell(row: Row, patch: Patch, fields: set<Field>, f: Field)
    requires WellTyped(patch) && SetClause(patch, fields)
    ensures CellAt(Rewrite(row, patch, fields), f) ==
      if f in fields then EncodeValue(f, patch[Named(f)]) else CellAt(row, f)
  {
  }

  /**
   * `update`: false when no allowlisted key is present; otherwise true, whether
   * or not a row has that uid, and only that row's allowlisted columns change.
   */
  function Update(s: Store, uid: int, patch: Patch): (r: (Store, bool))
    requires Valid(s) && WellTyped(patch)
    ensures r.1 <==> Filtered(patch) != {}
    ensures !r.1 || uid !in s.rows ==> r.0 == s
    ensures Valid(r.0)
    ensures r.0.lastUid == s.lastUid && r.0.rows.Keys == s.rows.Keys
    ensures forall u :: u in s.rows && u != uid ==> r.0.rows[u] == s.rows[u]
    ensures uid in s.rows ==> r.0.rows[uid].uid == s.rows[uid].uid && r.0.rows[uid].username == s.rows[uid].username
    ensures uid in s.rows ==> r.0.rows[uid].password == s.rows[uid].password
  {
    var fields := Filtered(patch);
    if fields == {} then (s, false)
    else if uid !in s.rows then (s, true)
    else (s.(rows := s.rows[uid := Rewrite(s.rows[uid], patch, fields)]), true)
  }

  /** A rewritten row reads back each field of the SET clause as the value supplied, and every other field as it was. */
  lemma RowReadBack(row: Row, patch: Patch, f: Field)
    requires WellTyped(patch)
    ensures UserValue(Decode(Rewrite(row, patch, Filtered(patch))), f) ==
      if f in Filtered(patch) then patch[Named(f)] else UserValue(Decode(row), f)
  {
    var fields := Filtered(patch);
    var rewritten := Rewrite(row, patch, fields);
    RewriteCell(row, patch, fields, f);
    DecodeReadsCells(rewritten, f);
    DecodeReadsCells(row, f);
    if f in fields {
      EncodeRoundTrip(f, patch[Named(f)]);
    }
  }

  /**
   * After an update that names at least one allowlisted field, every such field
   * reads back as the value supplied, and every other field as it was.
   */
  lemma UpdateReadBack(s: Store, uid: int, patch: Patch, f: Field)
    requires Valid(s) && WellTyped(patch) && uid in s.rows
    requires Filtered(patch) != {}
    ensures Update(s, uid, patch).1
    ensures var s' := Update(s, uid, patch).0;
      UserValue(UserAt(s', uid), f) ==
        if f in Filtered(patch) then patch[Named(f)] else UserValue(UserAt(s, uid), f)
  {
    RowReadBack(s.rows[uid], patch, f);
  }
}
