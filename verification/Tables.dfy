/**
 The database tables as values, and the queries the service layer runs on them.
 A junction table is a set inside the row it hangs off (`Member.roles`), so a
 cascade from that row needs no statement of its own.
 */
module Tables {
  import opened Common
  import opened Permissions

  datatype Visibility = Private | Unlisted | Public

  datatype Server = Server(owner: AccountId, visibility: Visibility)

  datatype Member = Member(isOwner: bool, roles: set<RoleId>, timeoutUntil: Option<Time>)

  datatype Role = Role(
    server: ServerId,
    name: string,
    color: Option<string>,
    permissions: Mask,
    position: int,
    isDefault: bool,
    mentionable: bool)

  datatype Kind = Text | Voice | Thread | Dm | GroupDm

  datatype Channel = Channel(
    server: Option<ServerId>,
    kind: Kind,
    parent: Option<ChannelId>,
    visibility: Option<Visibility>,
    restricted: bool,
    slug: Option<string>,
    deleted: bool,
    tombstone: Option<bool>)

  datatype Db = Db(
    servers: map<ServerId, Server>,
    members: map<(ServerId, AccountId), Member>,
    roles: map<RoleId, Role>,
    bans: set<(ServerId, AccountId)>,
    channels: map<ChannelId, Channel>,
    grants: map<(ChannelId, RoleId), Mask>,
    participants: set<(ChannelId, AccountId)>)

  const EMPTY := Db(map[], map[], map[], {}, map[], map[], {})

  const MAX_ROLES_PER_SERVER := 250
  const MAX_CHANNELS_PER_SERVER := 500

  // ---- roles ----

  function ServerRoles(roles: map<RoleId, Role>, s: ServerId): set<RoleId> {
    set r | r in roles && roles[r].server == s
  }

  /** `roles_for_membership`: the explicit assignments that exist on the server, plus its default role. */
  function Held(roles: map<RoleId, Role>, s: ServerId, explicit: set<RoleId>): set<RoleId> {
    set r | r in roles && roles[r].server == s && (roles[r].isDefault || r in explicit)
  }

  /** The OR of the masks of `ids`. */
  function AllBits(roles: map<RoleId, Role>, ids: set<RoleId>): Mask {
    set r, b | r in ids && r in roles && b in roles[r].permissions :: b
  }

  /** The highest position among `ids`, or 0 when there is none. */
  ghost function MaxPosition(roles: map<RoleId, Role>, ids: set<RoleId>): (m: int)
    requires ids <= roles.Keys
    ensures ids == {} ==> m == 0
    ensures ids != {} ==> exists r :: r in ids && roles[r].position == m
    ensures forall r :: r in ids ==> roles[r].position <= m
  {
    if ids == {} then 0
    else
      var r := Pick(ids);
      var rest := ids - {r};
      if rest == {} then
        assert ids == {r};
        roles[r].position
      else
        var m := MaxPosition(roles, rest);
        assert ids == rest + {r};
        if m < roles[r].position then roles[r].position else m
  }

  /** What `member_context` knows about one member. */
  datatype MemberContext = MemberContext(
    isOwner: bool,
    permissions: Mask,
    topPosition: int,
    roleIds: set<RoleId>)
  {
    predicate Bypasses() {
      isOwner || ADMIN in permissions
    }
  }

  ghost function Context(db: Db, s: ServerId, a: AccountId): MemberContext
    requires (s, a) in db.members
  {
    var member := db.members[(s, a)];
    var held := Held(db.roles, s, member.roles);
    MemberContext(member.isOwner, AllBits(db.roles, held), MaxPosition(db.roles, held), held)
  }

  ghost function TopPosition(db: Db, s: ServerId, a: AccountId): int
    requires (s, a) in db.members
  {
    Context(db, s, a).topPosition
  }

  // ---- channels ----

  predicate IsServerKind(kind: Kind) {
    kind == Text || kind == Voice || kind == Thread
  }

  predicate ParentDeleted(channels: map<ChannelId, Channel>, c: ChannelId)
    requires c in channels
  {
    channels[c].parent.Some? && channels[c].parent.value in channels &&
    channels[channels[c].parent.value].deleted
  }

  /** A channel is gone once it, or the channel it is a thread of, has been soft-deleted. */
  predicate Gone(channels: map<ChannelId, Channel>, c: ChannelId)
    requires c in channels
  {
    channels[c].deleted || ParentDeleted(channels, c)
  }

  predicate Live(channels: map<ChannelId, Channel>, c: ChannelId) {
    c in channels && !Gone(channels, c)
  }

  predicate ParentRestricted(channels: map<ChannelId, Channel>, c: ChannelId)
    requires c in channels
  {
    channels[c].parent.Some? && channels[c].parent.value in channels &&
    channels[channels[c].parent.value].restricted
  }

  function ParentVisibility(channels: map<ChannelId, Channel>, c: ChannelId): Option<Visibility>
    requires c in channels
  {
    if channels[c].parent.Some? && channels[c].parent.value in channels
    then channels[channels[c].parent.value].visibility
    else None
  }

  /** `ChannelAccessRow`: `restricted` is already resolved through the parent. */
  datatype AccessRow = AccessRow(
    server: Option<ServerId>,
    kind: Kind,
    restricted: bool,
    parent: Option<ChannelId>)

  /** `lookup_channel` on top of `find_access_by_id`. */
  function LookupChannel(db: Db, c: ChannelId): Result<AccessRow> {
    if Live(db.channels, c) then
      var row := db.channels[c];
      Ok(AccessRow(row.server, row.kind, row.restricted || ParentRestricted(db.channels, c), row.parent))
    else
      Err(ChannelNotFound)
  }

  /** `role_has_channel_permission`, as the set of grants that carry the bit. */
  predicate Grants(grants: map<(ChannelId, RoleId), Mask>, c: ChannelId, r: RoleId) {
    (c, r) in grants && VIEW_CHANNEL in grants[(c, r)]
  }

  ghost predicate MemberCanView(db: Db, s: ServerId, a: AccountId, grantChannel: ChannelId)
    requires (s, a) in db.members
  {
    var ctx := Context(db, s, a);
    ctx.Bypasses() || exists r :: r in ctx.roleIds && Grants(db.grants, grantChannel, r)
  }

  /** The one access gate every message operation goes through. */
  ghost function RequireChannelAccess(db: Db, a: AccountId, c: ChannelId): Result<AccessRow> {
    var row :- LookupChannel(db, c);
    :- Need(if IsServerKind(row.kind) then row.server.Some? && (row.server.value, a) in db.members
            else (c, a) in db.participants, ChannelNotFound);
    if row.restricted then
      :- Need(row.server.Some?, ChannelNotFound);
      :- Need((row.server.value, a) in db.members, ServerNotFound);
      :- Need(MemberCanView(db, row.server.value, a, row.parent.GetOr(c)), ChannelNotFound);
      Ok(row)
    else
      Ok(row)
  }

  /** Live text and voice channels, the ones the per-server limit counts. */
  function CountedChannels(channels: map<ChannelId, Channel>, s: ServerId): set<ChannelId> {
    set c | c in channels && channels[c].server == Some(s) &&
            (channels[c].kind == Text || channels[c].kind == Voice) && !channels[c].deleted
  }

  // ---- visibility ----

  function Rank(v: Visibility): int {
    match v
    case Public => 2
    case Unlisted => 1
    case Private => 0
  }

  /** One level of containment: an absent or broader override takes the enclosing visibility. */
  function Contained(override: Option<Visibility>, enclosing: Visibility): Visibility {
    if override.Some? && Rank(override.value) <= Rank(enclosing) then override.value else enclosing
  }

  function EffectiveVisibility(
    own: Option<Visibility>, parent: Option<Visibility>, server: Visibility): Visibility
  {
    Contained(own, Contained(parent, server))
  }

  function Min(x: int, y: int): int {
    if x < y then x else y
  }

  /**
   Containment takes the narrowest of the overrides that are set and the
   server's visibility, whatever was stored and in whatever order.
   */
  lemma EffectiveIsNarrowest(own: Option<Visibility>, parent: Option<Visibility>, server: Visibility)
    ensures Rank(EffectiveVisibility(own, parent, server)) ==
            Min(Rank(own.GetOr(Public)), Min(Rank(parent.GetOr(Public)), Rank(server)))
  {
  }
}
