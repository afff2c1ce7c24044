/** The relational schema the application's backend declares: one row shape and
    one insert shape per table, the foreign keys between tables (including the
    composite `(child_id, room_id) -> (parent_id, room_id)` couplings), and the
    signatures of the four server functions.

    A database is a record of row sets. `Valid` is the conjunction of the declared
    keys; every insert checks exactly those keys, fails with the name of a
    constraint the new row would break, and otherwise keeps `Valid`. */
module Schema {
  import opened Wrappers

  // ---------------------------------------------------------------- rows

  datatype RoomRow = RoomRow(
    createdAt: string, createdBy: string, description: Option<string>,
    id: string, name: string, updatedAt: string)

  datatype GroupRow = GroupRow(
    createdAt: string, createdBy: string, id: string, name: string, roomId: string)

  datatype GroupMemberRow = GroupMemberRow(
    createdAt: string, groupId: string, id: string, roomId: string, userId: string)

  datatype InviteRow = InviteRow(
    createdAt: string, createdBy: string, expiresAt: Option<string>, groupId: string,
    id: string, isRevoked: bool, redeemedAt: Option<string>, redeemedBy: Option<string>,
    roomId: string, token: string)

  datatype MediaRow = MediaRow(
    createdAt: string, id: string, roomId: string, thumbnailUrl: Option<string>,
    mediaType: string, uploaderId: string, url: string)

  datatype CommentRow = CommentRow(
    body: string, createdAt: string, groupId: string, id: string,
    mediaId: string, roomId: string, userId: string)

  datatype ReactionRow = ReactionRow(
    createdAt: string, groupId: string, id: string, mediaId: string,
    roomId: string, reactionType: string, userId: string)

  datatype RoomAdminRow = RoomAdminRow(
    createdAt: string, id: string, roomId: string, userId: string)

  datatype RoomSettingsRow = RoomSettingsRow(
    allowDownloads: bool, isArchived: bool, roomId: string, updatedAt: string)

  // ------------------------------------------------------ insert shapes
  // A column the insert shape marks optional is an `Option`; leaving it out
  // (None) lets the database fill it in. For a nullable column an omitted value
  // and an explicit null both store null.

  datatype RoomInsert = RoomInsert(
    createdAt: Option<string>, createdBy: string, description: Option<string>,
    id: Option<string>, name: string, updatedAt: Option<string>)

  datatype GroupInsert = GroupInsert(
    createdAt: Option<string>, createdBy: string, id: Option<string>, name: string, roomId: string)

  datatype GroupMemberInsert = GroupMemberInsert(
    createdAt: Option<string>, groupId: string, id: Option<string>, roomId: string, userId: string)

  datatype InviteInsert = InviteInsert(
    createdAt: Option<string>, createdBy: string, expiresAt: Option<string>, groupId: string,
    id: Option<string>, isRevoked: Option<bool>, redeemedAt: Option<string>,
    redeemedBy: Option<string>, roomId: string, token: string)

  datatype MediaInsert = MediaInsert(
    createdAt: Option<string>, id: Option<string>, roomId: string,
    thumbnailUrl: Option<string>, mediaType: string, uploaderId: string, url: string)

  datatype CommentInsert = CommentInsert(
    body: string, createdAt: Option<string>, groupId: string, id: Option<string>,
    mediaId: string, roomId: string, userId: string)

  datatype ReactionInsert = ReactionInsert(
    createdAt: Option<string>, groupId: string, id: Option<string>, mediaId: string,
    roomId: string, reactionType: string, userId: string)

  datatype RoomAdminInsert = RoomAdminInsert(
    createdAt: Option<string>, id: Option<string>, roomId: string, userId: string)

  datatype RoomSettingsInsert = RoomSettingsInsert(
    allowDownloads: Option<bool>, isArchived: Option<bool>, roomId: string, updatedAt: Option<string>)

  /** What the database supplies for omitted columns: a generated id, the current
      time, and the column defaults of the boolean flags. */
  datatype Defaults = Defaults(
    id: string, now: string, isRevoked: bool, allowDownloads: bool, isArchived: bool)

  function Or<T>(o: Option<T>, default: T): T {
    match o
    case Some(v) => v
    case None => default
  }

  function RoomOf(ins: RoomInsert, d: Defaults): RoomRow {
    RoomRow(Or(ins.createdAt, d.now), ins.createdBy, ins.description,
            Or(ins.id, d.id), ins.name, Or(ins.updatedAt, d.now))
  }

  function GroupOf(ins: GroupInsert, d: Defaults): GroupRow {
    GroupRow(Or(ins.createdAt, d.now), ins.createdBy, Or(ins.id, d.id), ins.name, ins.roomId)
  }

  function GroupMemberOf(ins: GroupMemberInsert, d: Defaults): GroupMemberRow {
    GroupMemberRow(Or(ins.createdAt, d.now), ins.groupId, Or(ins.id, d.id), ins.roomId, ins.userId)
  }

  /** The row an `invites` insert stores. The redemption columns and the expiry
      stay null unless supplied; an omitted revocation flag takes the column default. */
  function InviteOf(ins: InviteInsert, d: Defaults): (row: InviteRow)
    ensures row.groupId == ins.groupId && row.roomId == ins.roomId && row.token == ins.token
    ensures ins.redeemedBy == None ==> row.redeemedBy == None
    ensures ins.redeemedAt == None ==> row.redeemedAt == None
    ensures ins.expiresAt == None ==> row.expiresAt == None
    ensures row.isRevoked == (if ins.isRevoked.Some? then ins.isRevoked.value else d.isRevoked)
  {
    InviteRow(Or(ins.createdAt, d.now), ins.createdBy, ins.expiresAt, ins.groupId,
              Or(ins.id, d.id), Or(ins.isRevoked, d.isRevoked), ins.redeemedAt,
              ins.redeemedBy, ins.roomId, ins.token)
  }

  /** The row a `media` insert stores. Only room, uploader, type and url must be
      supplied; id and creation time come from the database when omitted, and an
      omitted thumbnail is null. */
  function MediaOf(ins: MediaInsert, d: Defaults): (row: MediaRow)
    ensures row.roomId == ins.roomId && row.uploaderId == ins.uploaderId
    ensures row.mediaType == ins.mediaType && row.url == ins.url
    ensures row.id == (if ins.id.Some? then ins.id.value else d.id)
    ensures row.createdAt == (if ins.createdAt.Some? then ins.createdAt.value else d.now)
    ensures ins.thumbnailUrl == None ==> row.thumbnailUrl == None
  {
    MediaRow(Or(ins.createdAt, d.now), Or(ins.id, d.id), ins.roomId, ins.thumbnailUrl,
             ins.mediaType, ins.uploaderId, ins.url)
  }

  function CommentOf(ins: CommentInsert, d: Defaults): CommentRow {
    CommentRow(ins.body, Or(ins.createdAt, d.now), ins.groupId, Or(ins.id, d.id),
               ins.mediaId, ins.roomId, ins.userId)
  }

  function ReactionOf(ins: ReactionInsert, d: Defaults): ReactionRow {
    ReactionRow(Or(ins.createdAt, d.now), ins.groupId, Or(ins.id, d.id), ins.mediaId,
                ins.roomId, ins.reactionType, ins.userId)
  }

  function RoomAdminOf(ins: RoomAdminInsert, d: Defaults): RoomAdminRow {
    RoomAdminRow(Or(ins.createdAt, d.now), Or(ins.id, d.id), ins.roomId, ins.userId)
  }

  function RoomSettingsOf(ins: RoomSettingsInsert, d: Defaults): RoomSettingsRow {
    RoomSettingsRow(Or(ins.allowDownloads, d.allowDownloads), Or(ins.isArchived, d.isArchived),
                    ins.roomId, Or(ins.updatedAt, d.now))
  }

  // ------------------------------------------------------------ database

  datatype Db = Db(
    rooms: set<RoomRow>,
    groups: set<GroupRow>,
    groupMembers: set<GroupMemberRow>,
    invites: set<InviteRow>,
    media: set<MediaRow>,
    comments: set<CommentRow>,
    reactions: set<ReactionRow>,
    roomAdmins: set<RoomAdminRow>,
    roomSettings: set<RoomSettingsRow>)

  const Empty := Db({}, {}, {}, {}, {}, {}, {}, {}, {})

  datatype DbError = ForeignKeyViolation(constraint: string) | UniqueViolation(column: string)

  predicate RoomExists(db: Db, rid: string) {
    exists r :: r in db.rooms && r.id == rid
  }

  predicate GroupExists(db: Db, gid: string) {
    exists g :: g in db.groups && g.id == gid
  }

  /** The target of a `(group_id, room_id) -> groups(id, room_id)` key. */
  predicate GroupInRoom(db: Db, gid: string, rid: string) {
    exists g :: g in db.groups && g.id == gid && g.roomId == rid
  }

  /** The target of a `(media_id, room_id) -> media(id, room_id)` key. */
  predicate MediaInRoom(db: Db, mid: string, rid: string) {
    exists m :: m in db.media && m.id == mid && m.roomId == rid
  }

  predicate HasSettings(db: Db, rid: string) {
    exists s :: s in db.roomSettings && s.roomId == rid
  }

  // Each table's `id` is taken as its key: the model refuses a second row with the same id.
  predicate RoomIdFree(db: Db, id: string) { forall r :: r in db.rooms ==> r.id != id }
  predicate GroupIdFree(db: Db, id: string) { forall g :: g in db.groups ==> g.id != id }
  predicate GroupMemberIdFree(db: Db, id: string) { forall m :: m in db.groupMembers ==> m.id != id }
  predicate InviteIdFree(db: Db, id: string) { forall i :: i in db.invites ==> i.id != id }
  predicate MediaIdFree(db: Db, id: string) { forall m :: m in db.media ==> m.id != id }
  predicate CommentIdFree(db: Db, id: string) { forall c :: c in db.comments ==> c.id != id }
  predicate ReactionIdFree(db: Db, id: string) { forall x :: x in db.reactions ==> x.id != id }
  predicate RoomAdminIdFree(db: Db, id: string) { forall a :: a in db.roomAdmins ==> a.id != id }

  // Each table's `id` is unique: two rows with the same id are the same row.
  predicate UniqueRooms(t: set<RoomRow>) { forall a, b :: a in t && b in t && a.id == b.id ==> a == b }
  predicate UniqueGroups(t: set<GroupRow>) { forall a, b :: a in t && b in t && a.id == b.id ==> a == b }
  predicate UniqueGroupMembers(t: set<GroupMemberRow>) { forall a, b :: a in t && b in t && a.id == b.id ==> a == b }
  predicate UniqueInvites(t: set<InviteRow>) { forall a, b :: a in t && b in t && a.id == b.id ==> a == b }
  predicate UniqueMedia(t: set<MediaRow>) { forall a, b :: a in t && b in t && a.id == b.id ==> a == b }
  predicate UniqueComments(t: set<CommentRow>) { forall a, b :: a in t && b in t && a.id == b.id ==> a == b }
  predicate UniqueReactions(t: set<ReactionRow>) { forall a, b :: a in t && b in t && a.id == b.id ==> a == b }
  predicate UniqueRoomAdmins(t: set<RoomAdminRow>) { forall a, b :: a in t && b in t && a.id == b.id ==> a == b }
  /** room_settings_room_id_fkey is one-to-one: one settings row per room. */
  predicate OneSettingsPerRoom(t: set<RoomSettingsRow>) {
    forall a, b :: a in t && b in t && a.roomId == b.roomId ==> a == b
  }

  predicate KeysUnique(db: Db) {
    && UniqueRooms(db.rooms)
    && UniqueGroups(db.groups)
    && UniqueGroupMembers(db.groupMembers)
    && UniqueInvites(db.invites)
    && UniqueMedia(db.media)
    && UniqueComments(db.comments)
    && UniqueReactions(db.reactions)
    && UniqueRoomAdmins(db.roomAdmins)
    && OneSettingsPerRoom(db.roomSettings)
  }

  /** Every declared foreign key holds. */
  predicate ForeignKeys(db: Db) {
    // groups_room_id_fkey
    && (forall g :: g in db.groups ==> RoomExists(db, g.roomId))
    // group_members_group_room_fk, group_members_room_id_fkey
    && (forall m :: m in db.groupMembers ==>
          GroupInRoom(db, m.groupId, m.roomId) && RoomExists(db, m.roomId))
    // invites_group_id_fkey, invites_room_id_fkey: two independent keys
    && (forall i :: i in db.invites ==> GroupExists(db, i.groupId) && RoomExists(db, i.roomId))
    // media_room_id_fkey
    && (forall m :: m in db.media ==> RoomExists(db, m.roomId))
    // comments_group_room_fk, comments_media_room_fk, comments_room_id_fkey
    && (forall c :: c in db.comments ==>
          GroupInRoom(db, c.groupId, c.roomId) && MediaInRoom(db, c.mediaId, c.roomId)
          && RoomExists(db, c.roomId))
    // reactions_group_room_fk, reactions_media_room_fk, reactions_room_id_fkey
    && (forall x :: x in db.reactions ==>
          GroupInRoom(db, x.groupId, x.roomId) && MediaInRoom(db, x.mediaId, x.roomId)
          && RoomExists(db, x.roomId))
    // room_admins_room_id_fkey
    && (forall a :: a in db.roomAdmins ==> RoomExists(db, a.roomId))
    // room_settings_room_id_fkey
    && (forall s :: s in db.roomSettings ==> RoomExists(db, s.roomId))
  }

  predicate Valid(db: Db) {
    KeysUnique(db) && ForeignKeys(db)
  }

  lemma EmptyValid()
    ensures Valid(Empty)
  {
  }

  // ------------------------------------------------------------- inserts

  function InsertRoom(db: Db, ins: RoomInsert, d: Defaults): (r: Result<Db, DbError>)
    ensures r.Success? <==> RoomIdFree(db, RoomOf(ins, d).id)
    ensures r.Failure? ==> r.error == UniqueViolation("id")
    ensures r.Success? ==> r.value == db.(rooms := db.rooms + {RoomOf(ins, d)})
    ensures Valid(db) && r.Success? ==> Valid(r.value)
  {
    var row := RoomOf(ins, d);
    if !RoomIdFree(db, row.id) then Failure(UniqueViolation("id"))
    else
      var db' := db.(rooms := db.rooms + {row});
      assert Valid(db) ==> Valid(db') by {
        if Valid(db) { GrowRooms(db, db', row); }
      }
      Success(db')
  }

  function InsertGroup(db: Db, ins: GroupInsert, d: Defaults): (r: Result<Db, DbError>)
    ensures r.Success? <==> GroupIdFree(db, GroupOf(ins, d).id) && RoomExists(db, ins.roomId)
    ensures r.Failure? ==>
      || (r.error == UniqueViolation("id") && !GroupIdFree(db, GroupOf(ins, d).id))
      || (r.error == ForeignKeyViolation("groups_room_id_fkey") && !RoomExists(db, ins.roomId))
    ensures r.Success? ==> r.value == db.(groups := db.groups + {GroupOf(ins, d)})
    ensures Valid(db) && r.Success? ==> Valid(r.value)
  {
    var row := GroupOf(ins, d);
    if !GroupIdFree(db, row.id) then Failure(UniqueViolation("id"))
    else if !RoomExists(db, row.roomId) then Failure(ForeignKeyViolation("groups_room_id_fkey"))
    else
      var db' := db.(groups := db.groups + {row});
      assert Valid(db) ==> Valid(db') by {
        if Valid(db) { GrowGroups(db, db', row); }
      }
      Success(db')
  }

  function InsertGroupMember(db: Db, ins: GroupMemberInsert, d: Defaults): (r: Result<Db, DbError>)
    ensures r.Success? <==>
      && GroupMemberIdFree(db, GroupMemberOf(ins, d).id)
      && GroupInRoom(db, ins.groupId, ins.roomId)
      && RoomExists(db, ins.roomId)
    ensures r.Failure? ==>
      || (r.error == UniqueViolation("id") && !GroupMemberIdFree(db, GroupMemberOf(ins, d).id))
      || (r.error == ForeignKeyViolation("group_members_group_room_fk")
          && !GroupInRoom(db, ins.groupId, ins.roomId))
      || (r.error == ForeignKeyViolation("group_members_room_id_fkey") && !RoomExists(db, ins.roomId))
    ensures r.Success? ==> r.value == db.(groupMembers := db.groupMembers + {GroupMemberOf(ins, d)})
    ensures Valid(db) && r.Success? ==> Valid(r.value)
  {
    var row := GroupMemberOf(ins, d);
    if !GroupMemberIdFree(db, row.id) then Failure(UniqueViolation("id"))
    else if !GroupInRoom(db, row.groupId, row.roomId) then
      Failure(ForeignKeyViolation("group_members_group_room_fk"))
    else if !RoomExists(db, row.roomId) then Failure(ForeignKeyViolation("group_members_room_id_fkey"))
    else
      var db' := db.(groupMembers := db.groupMembers + {row});
      assert Valid(db) ==> Valid(db') by {
        if Valid(db) { GrowGroupMembers(db, db', row); }
      }
      Success(db')
  }

  function InsertInvite(db: Db, ins: InviteInsert, d: Defaults): (r: Result<Db, DbError>)
    ensures r.Success? <==>
      && InviteIdFree(db, InviteOf(ins, d).id)
      && GroupExists(db, ins.groupId)
      && RoomExists(db, ins.roomId)
    ensures r.Failure? ==>
      || (r.error == UniqueViolation("id") && !InviteIdFree(db, InviteOf(ins, d).id))
      || (r.error == ForeignKeyViolation("invites_group_id_fkey") && !GroupExists(db, ins.groupId))
      || (r.error == ForeignKeyViolation("invites_room_id_fkey") && !RoomExists(db, ins.roomId))
    ensures r.Success? ==> r.value == db.(invites := db.invites + {InviteOf(ins, d)})
    ensures Valid(db) && r.Success? ==> Valid(r.value)
  {
    var row := InviteOf(ins, d);
    if !InviteIdFree(db, row.id) then Failure(UniqueViolation("id"))
    else if !GroupExists(db, row.groupId) then Failure(ForeignKeyViolation("invites_group_id_fkey"))
    else if !RoomExists(db, row.roomId) then Failure(ForeignKeyViolation("invites_room_id_fkey"))
    else
      var db' := db.(invites := db.invites + {row});
      assert Valid(db) ==> Valid(db') by {
        if Valid(db) { GrowInvites(db, db', row); }
      }
      Success(db')
  }

  function InsertMedia(db: Db, ins: MediaInsert, d: Defaults): (r: Result<Db, DbError>)
    ensures r.Success? <==> MediaIdFree(db, MediaOf(ins, d).id) && RoomExists(db, ins.roomId)
    ensures r.Failure? ==>
      || (r.error == UniqueViolation("id") && !MediaIdFree(db, MediaOf(ins, d).id))
      || (r.error == ForeignKeyViolation("media_room_id_fkey") && !RoomExists(db, ins.roomId))
    ensures r.Success? ==> r.value == db.(media := db.media + {MediaOf(ins, d)})
    ensures Valid(db) && r.Success? ==> Valid(r.value)
  {
    var row := MediaOf(ins, d);
    if !MediaIdFree(db, row.id) then Failure(UniqueViolation("id"))
    else if !RoomExists(db, row.roomId) then Failure(ForeignKeyViolation("media_room_id_fkey"))
    else
      var db' := db.(media := db.media + {row});
      assert Valid(db) ==> Valid(db') by {
        if Valid(db) { GrowMedia(db, db', row); }
      }
      Success(db')
  }

  function InsertComment(db: Db, ins: CommentInsert, d: Defaults): (r: Result<Db, DbError>)
    ensures r.Success? <==>
      && CommentIdFree(db, CommentOf(ins, d).id)
      && GroupInRoom(db, ins.groupId, ins.roomId)
      && MediaInRoom(db, ins.mediaId, ins.roomId)
      && RoomExists(db, ins.roomId)
    ensures r.Failure? ==>
      || (r.error == UniqueViolation("id") && !CommentIdFree(db, CommentOf(ins, d).id))
      || (r.error == ForeignKeyViolation("comments_group_room_fk")
          && !GroupInRoom(db, ins.groupId, ins.roomId))
      || (r.error == ForeignKeyViolation("comments_media_room_fk")
          && !MediaInRoom(db, ins.mediaId, ins.roomId))
      || (r.error == ForeignKeyViolation("comments_room_id_fkey") && !RoomExists(db, ins.roomId))
    ensures r.Success? ==> r.value == db.(comments := db.comments + {CommentOf(ins, d)})
    ensures Valid(db) && r.Success? ==> Valid(r.value)
  {
    var row := CommentOf(ins, d);
    if !CommentIdFree(db, row.id) then Failure(UniqueViolation("id"))
    else if !GroupInRoom(db, row.groupId, row.roomId) then
      Failure(ForeignKeyViolation("comments_group_room_fk"))
    else if !MediaInRoom(db, row.mediaId, row.roomId) then
      Failure(ForeignKeyViolation("comments_media_room_fk"))
    else if !RoomExists(db, row.roomId) then Failure(ForeignKeyViolation("comments_room_id_fkey"))
    else
      var db' := db.(comments := db.comments + {row});
      assert Valid(db) ==> Valid(db') by {
        if Valid(db) { GrowComments(db, db', row); }
      }
      Success(db')
  }

  function InsertReaction(db: Db, ins: ReactionInsert, d: Defaults): (r: Result<Db, DbError>)
    ensures r.Success? <==>
      && ReactionIdFree(db, ReactionOf(ins, d).id)
      && GroupInRoom(db, ins.groupId, ins.roomId)
      && MediaInRoom(db, ins.mediaId, ins.roomId)
      && RoomExists(db, ins.roomId)
    ensures r.Failure? ==>
      || (r.error == UniqueViolation("id") && !ReactionIdFree(db, ReactionOf(ins, d).id))
      || (r.error == ForeignKeyViolation("reactions_group_room_fk")
          && !GroupInRoom(db, ins.groupId, ins.roomId))
      || (r.error == ForeignKeyViolation("reactions_media_room_fk")
          && !MediaInRoom(db, ins.mediaId, ins.roomId))
      || (r.error == ForeignKeyViolation("reactions_room_id_fkey") && !RoomExists(db, ins.roomId))
    ensures r.Success? ==> r.value == db.(reactions := db.reactions + {ReactionOf(ins, d)})
    ensures Valid(db) && r.Success? ==> Valid(r.value)
  {
    var row := ReactionOf(ins, d);
    if !ReactionIdFree(db, row.id) then Failure(UniqueViolation("id"))
    else if !GroupInRoom(db, row.groupId, row.roomId) then
      Failure(ForeignKeyViolation("reactions_group_room_fk"))
    else if !MediaInRoom(db, row.mediaId, row.roomId) then
      Failure(ForeignKeyViolation("reactions_media_room_fk"))
    else if !RoomExists(db, row.roomId) then Failure(ForeignKeyViolation("reactions_room_id_fkey"))
    else
      var db' := db.(reactions := db.reactions + {row});
      assert Valid(db) ==> Valid(db') by {
        if Valid(db) { GrowReactions(db, db', row); }
      }
      Success(db')
  }

  function InsertRoomAdmin(db: Db, ins: RoomAdminInsert, d: Defaults): (r: Result<Db, DbError>)
    ensures r.Success? <==> RoomAdminIdFree(db, RoomAdminOf(ins, d).id) && RoomExists(db, ins.roomId)
    ensures r.Failure? ==>
      || (r.error == UniqueViolation("id") && !RoomAdminIdFree(db, RoomAdminOf(ins, d).id))
      || (r.error == ForeignKeyViolation("room_admins_room_id_fkey") && !RoomExists(db, ins.roomId))
    ensures r.Success? ==> r.value == db.(roomAdmins := db.roomAdmins + {RoomAdminOf(ins, d)})
    ensures Valid(db) && r.Success? ==> Valid(r.value)
  {
    var row := RoomAdminOf(ins, d);
    if !RoomAdminIdFree(db, row.id) then Failure(UniqueViolation("id"))
    else if !RoomExists(db, row.roomId) then Failure(ForeignKeyViolation("room_admins_room_id_fkey"))
    else
      var db' := db.(roomAdmins := db.roomAdmins + {row});
      assert Valid(db) ==> Valid(db') by {
        if Valid(db) { GrowRoomAdmins(db, db', row); }
      }
      Success(db')
  }

  /** room_settings is keyed by room_id (one-to-one with rooms): a second row for a room is refused. */
  function InsertRoomSettings(db: Db, ins: RoomSettingsInsert, d: Defaults): (r: Result<Db, DbError>)
    ensures r.Success? <==> !HasSettings(db, ins.roomId) && RoomExists(db, ins.roomId)
    ensures r.Failure? ==>
      || (r.error == UniqueViolation("room_id") && HasSettings(db, ins.roomId))
      || (r.error == ForeignKeyViolation("room_settings_room_id_fkey") && !RoomExists(db, ins.roomId))
    ensures r.Success? ==> r.value == db.(roomSettings := db.roomSettings + {RoomSettingsOf(ins, d)})
    ensures Valid(db) && r.Success? ==> Valid(r.value)
  {
    var row := RoomSettingsOf(ins, d);
    if HasSettings(db, row.roomId) then Failure(UniqueViolation("room_id"))
    else if !RoomExists(db, row.roomId) then Failure(ForeignKeyViolation("room_settings_room_id_fkey"))
    else
      var db' := db.(roomSettings := db.roomSettings + {row});
      assert Valid(db) ==> Valid(db') by {
        if Valid(db) { GrowRoomSettings(db, db', row); }
      }
      Success(db')
  }

  // ------------------------------------------- preservation, table by table
  // Adding rows never removes the target of a key, so the existing rows keep
  // their keys; the new row brings its own.

  /** Key targets only grow when the referenced tables grow. */
  lemma TargetsGrow(db: Db, db': Db)
    requires db.rooms <= db'.rooms && db.groups <= db'.groups && db.media <= db'.media
    ensures forall rid :: RoomExists(db, rid) ==> RoomExists(db', rid)
    ensures forall gid :: GroupExists(db, gid) ==> GroupExists(db', gid)
    ensures forall gid, rid :: GroupInRoom(db, gid, rid) ==> GroupInRoom(db', gid, rid)
    ensures forall mid, rid :: MediaInRoom(db, mid, rid) ==> MediaInRoom(db', mid, rid)
  {
  }

  /** The foreign keys survive any growth of the tables in which every added row has
      its keys' targets in the database before the growth. */
  lemma ForeignKeysGrow(db: Db, db': Db)
    requires ForeignKeys(db)
    requires db.rooms <= db'.rooms && db.groups <= db'.groups && db.media <= db'.media
    requires forall g :: g in db'.groups ==> g in db.groups || RoomExists(db, g.roomId)
    requires forall m :: m in db'.groupMembers ==>
               m in db.groupMembers || (GroupInRoom(db, m.groupId, m.roomId) && RoomExists(db, m.roomId))
    requires forall i :: i in db'.invites ==>
               i in db.invites || (GroupExists(db, i.groupId) && RoomExists(db, i.roomId))
    requires forall m :: m in db'.media ==> m in db.media || RoomExists(db, m.roomId)
    requires forall c :: c in db'.comments ==>
               c in db.comments || (GroupInRoom(db, c.groupId, c.roomId) &&
                                    MediaInRoom(db, c.mediaId, c.roomId) && RoomExists(db, c.roomId))
    requires forall x :: x in db'.reactions ==>
               x in db.reactions || (GroupInRoom(db, x.groupId, x.roomId) &&
                                     MediaInRoom(db, x.mediaId, x.roomId) && RoomExists(db, x.roomId))
    requires forall a :: a in db'.roomAdmins ==> a in db.roomAdmins || RoomExists(db, a.roomId)
    requires forall s :: s in db'.roomSettings ==> s in db.roomSettings || RoomExists(db, s.roomId)
    ensures ForeignKeys(db')
  {
    TargetsGrow(db, db');
  }

  lemma GrowRooms(db: Db, db': Db, row: RoomRow)
    requires Valid(db) && RoomIdFree(db, row.id)
    requires db' == db.(rooms := db.rooms + {row})
    ensures Valid(db')
  {
    assert KeysUnique(db');
    ForeignKeysGrow(db, db');
  }

  lemma GrowGroups(db: Db, db': Db, row: GroupRow)
    requires Valid(db) && GroupIdFree(db, row.id) && RoomExists(db, row.roomId)
    requires db' == db.(groups := db.groups + {row})
    ensures Valid(db')
  {
    assert KeysUnique(db');
    ForeignKeysGrow(db, db');
  }

  lemma GrowGroupMembers(db: Db, db': Db, row: GroupMemberRow)
    requires Valid(db) && GroupMemberIdFree(db, row.id)
    requires GroupInRoom(db, row.groupId, row.roomId) && RoomExists(db, row.roomId)
    requires db' == db.(groupMembers := db.groupMembers + {row})
    ensures Valid(db')
  {
    assert KeysUnique(db');
    ForeignKeysGrow(db, db');
  }

  lemma GrowInvites(db: Db, db': Db, row: InviteRow)
    requires Valid(db) && InviteIdFree(db, row.id)
    requires GroupExists(db, row.groupId) && RoomExists(db, row.roomId)
    requires db' == db.(invites := db.invites + {row})
    ensures Valid(db')
  {
    assert KeysUnique(db');
    ForeignKeysGrow(db, db');
  }

  lemma GrowMedia(db: Db, db': Db, row: MediaRow)
    requires Valid(db) && MediaIdFree(db, row.id) && RoomExists(db, row.roomId)
    requires db' == db.(media := db.media + {row})
    ensures Valid(db')
  {
    assert KeysUnique(db');
    ForeignKeysGrow(db, db');
  }

  lemma GrowComments(db: Db, db': Db, row: CommentRow)
    requires Valid(db) && CommentIdFree(db, row.id)
    requires GroupInRoom(db, row.groupId, row.roomId) && MediaInRoom(db, row.mediaId, row.roomId)
    requires RoomExists(db, row.roomId)
    requires db' == db.(comments := db.comments + {row})
    ensures Valid(db')
  {
    assert KeysUnique(db');
    ForeignKeysGrow(db, db');
  }

  lemma GrowReactions(db: Db, db': Db, row: ReactionRow)
    requires Valid(db) && ReactionIdFree(db, row.id)
    requires GroupInRoom(db, row.groupId, row.roomId) && MediaInRoom(db, row.mediaId, row.roomId)
    requires RoomExists(db, row.roomId)
    requires db' == db.(reactions := db.reactions + {row})
    ensures Valid(db')
  {
    assert KeysUnique(db');
    ForeignKeysGrow(db, db');
  }

  lemma GrowRoomAdmins(db: Db, db': Db, row: RoomAdminRow)
    requires Valid(db) && RoomAdminIdFree(db, row.id) && RoomExists(db, row.roomId)
    requires db' == db.(roomAdmins := db.roomAdmins + {row})
    ensures Valid(db')
  {
    assert KeysUnique(db');
    ForeignKeysGrow(db, db');
  }

  lemma GrowRoomSettings(db: Db, db': Db, row: RoomSettingsRow)
    requires Valid(db) && !HasSettings(db, row.roomId) && RoomExists(db, row.roomId)
    requires db' == db.(roomSettings := db.roomSettings + {row})
    ensures Valid(db')
  {
    assert KeysUnique(db');
    ForeignKeysGrow(db, db');
  }

  // ------------------------------------------------- what the keys promise

  /** A membership row always names a group of its own room: every group row with
      the member's group id lies in the member's room. */
  lemma MembershipStaysInRoom(db: Db, m: GroupMemberRow, g: GroupRow)
    requires Valid(db) && m in db.groupMembers && g in db.groups && g.id == m.groupId
    ensures g.roomId == m.roomId
  {
    var w :| w in db.groups && w.id == m.groupId && w.roomId == m.roomId;
    assert w == g;
  }

  /** A comment's group and media item both belong to the comment's room, which exists. */
  lemma CommentStaysInRoom(db: Db, c: CommentRow)
    requires Valid(db) && c in db.comments
    ensures forall g :: g in db.groups && g.id == c.groupId ==> g.roomId == c.roomId
    ensures forall m :: m in db.media && m.id == c.mediaId ==> m.roomId == c.roomId
    ensures RoomExists(db, c.roomId)
  {
    var wg :| wg in db.groups && wg.id == c.groupId && wg.roomId == c.roomId;
    var wm :| wm in db.media && wm.id == c.mediaId && wm.roomId == c.roomId;
    forall g | g in db.groups && g.id == c.groupId ensures g.roomId == c.roomId {
      assert g == wg;
    }
    forall m | m in db.media && m.id == c.mediaId ensures m.roomId == c.roomId {
      assert m == wm;
    }
  }

  /** Reactions are coupled exactly like comments. */
  lemma ReactionStaysInRoom(db: Db, x: ReactionRow)
    requires Valid(db) && x in db.reactions
    ensures forall g :: g in db.groups && g.id == x.groupId ==> g.roomId == x.roomId
    ensures forall m :: m in db.media && m.id == x.mediaId ==> m.roomId == x.roomId
    ensures RoomExists(db, x.roomId)
  {
    var wg :| wg in db.groups && wg.id == x.groupId && wg.roomId == x.roomId;
    var wm :| wm in db.media && wm.id == x.mediaId && wm.roomId == x.roomId;
    forall g | g in db.groups && g.id == x.groupId ensures g.roomId == x.roomId {
      assert g == wg;
    }
    forall m | m in db.media && m.id == x.mediaId ensures m.roomId == x.roomId {
      assert m == wm;
    }
  }

  /** In a valid database the composite group key already implies the single-column room key. */
  lemma {:induction false} CompositeKeyImpliesRoom(db: Db, gid: string, rid: string)
    requires Valid(db) && GroupInRoom(db, gid, rid)
    ensures RoomExists(db, rid)
  {
    var g :| g in db.groups && g.id == gid && g.roomId == rid;
    assert RoomExists(db, g.roomId);
  }

  /** After a successful settings insert the room has exactly one settings row: the new one. */
  lemma SettingsOneToOne(db: Db, ins: RoomSettingsInsert, d: Defaults)
    requires InsertRoomSettings(db, ins, d).Success?
    ensures var db' := InsertRoomSettings(db, ins, d).value;
      forall s :: s in db'.roomSettings && s.roomId == ins.roomId ==> s == RoomSettingsOf(ins, d)
  {
    var db' := InsertRoomSettings(db, ins, d).value;
    assert !HasSettings(db, ins.roomId);
    forall s | s in db'.roomSettings && s.roomId == ins.roomId
      ensures s == RoomSettingsOf(ins, d)
    {
      assert s !in db.roomSettings;
    }
  }

  /** Invites carry two independent keys: an invite whose group lies in another room
      than the invite's own room_id is accepted and leaves the database valid. */
  lemma InviteKeysIndependent(db: Db, ins: InviteInsert, d: Defaults, g: GroupRow)
    requires Valid(db) && g in db.groups && ins.groupId == g.id
    requires RoomExists(db, ins.roomId) && ins.roomId != g.roomId
    requires InviteIdFree(db, InviteOf(ins, d).id)
    ensures InsertInvite(db, ins, d).Success?
    ensures var db' := InsertInvite(db, ins, d).value;
      Valid(db') && exists i :: i in db'.invites && i.groupId == g.id && i.roomId != g.roomId
  {
    var db' := InsertInvite(db, ins, d).value;
    assert InviteOf(ins, d) in db'.invites;
  }

  // ---------------------------------------------------- server functions

  datatype GroupRoom = GroupRoom(groupId: string, roomId: string)

  /** The database's four functions as one signed-in caller sees them. Only their
      signatures are declared, so each is an arbitrary function of its one argument;
      the caller's identity is implicit in which `ServerFunctions` value is used. */
  datatype ServerFunctions = ServerFunctions(
    acceptInvite: string -> seq<GroupRoom>,
    isGroupMember: string -> bool,
    isRoomAdmin: string -> bool,
    isRoomMember: string -> bool)

  datatype RpcCall =
    | AcceptInvite(inviteToken: string)
    | IsGroupMember(gid: string)
    | IsRoomAdmin(rid: string)
    | IsRoomMember(rid: string)

  datatype RpcReply = Grants(rows: seq<GroupRoom>) | Flag(holds: bool)

  /** A call names only its one argument; `accept_invite` answers with a list of
      (group_id, room_id) pairs and each membership or admin check with a boolean.
      The server functions are uninterpreted, so the ensures record only which reply
      shape each call gets and which function produces it. */
  function Rpc(fns: ServerFunctions, call: RpcCall): (r: RpcReply)
    ensures r.Grants? <==> call.AcceptInvite?
    ensures call.AcceptInvite? ==> r.rows == fns.acceptInvite(call.inviteToken)
    ensures call.IsGroupMember? ==> r.holds == fns.isGroupMember(call.gid)
    ensures call.IsRoomAdmin? ==> r.holds == fns.isRoomAdmin(call.rid)
    ensures call.IsRoomMember? ==> r.holds == fns.isRoomMember(call.rid)
  {
    match call
    case AcceptInvite(token) => Grants(fns.acceptInvite(token))
    case IsGroupMember(gid) => Flag(fns.isGroupMember(gid))
    case IsRoomAdmin(rid) => Flag(fns.isRoomAdmin(rid))
    case IsRoomMember(rid) => Flag(fns.isRoomMember(rid))
  }
}
