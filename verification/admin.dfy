/**
 * The administrator's commands (src/admin.rs): add a user, remove a user,
 * list the users, each answered with a reply to the command message.
 */
module Admin {
  import opened Wrappers
  import opened External
  import opened Text
  import opened Decimal
  import opened Registry
  import opened Misc

  const InvalidIdText: string := "Неверный ID пользователя.\nВоспользуйся ботом @UserBotInfoBot :)"
  const AddedText: string := "Пользователь добавлен :)"
  const RemovedText: string := "Пользователь удалён :("
  const NoUsersHeading: string := "Пользователей нету! :0"
  const UsersHeading: string := "Пользователи:"

  /** A text message sent to `chat` as a reply to message `replyTo`. */
  datatype Reply = Reply(chat: ChatId, text: string, replyTo: MessageId)

  function ReplyTo(msg: Message, text: string): Reply
  {
    Reply(msg.chat, text, msg.id)
  }

  /** `is_admin_texting`: the message has a sender and that sender is the administrator. */
  function IsAdminTexting(msg: Message, adminId: UserId): (b: bool)
    ensures b <==> msg.from.Some? && msg.from.value.id == adminId
  {
    match msg.from
    case Some(user) => user.id == adminId
    case None => false
  }

  /**
   * `get_user_id_from_string`: the id when the argument parses as a `u64`;
   * otherwise no id and an error reply to the command.
   */
  method UserIdFromString(msg: Message, text: string) returns (id: Option<UserId>, replies: seq<Reply>)
    ensures id.Some? <==> ParseU64(text).Some?
    ensures id.Some? ==> id.value == ParseU64(text).value && replies == []
    ensures id.None? ==> replies == [ReplyTo(msg, InvalidIdText)]
  {
    match ParseU64(text)
    case None =>
      id, replies := None, [ReplyTo(msg, InvalidIdText)];
    case Some(n) =>
      id, replies := Some(n), [];
  }

  /**
   * `add_user`: a malformed id is refused with a reply; an id already present
   * is left alone without a reply; otherwise a fresh record for the alias is
   * inserted, the registry saved, and the addition confirmed.
   */
  method AddUser(db: Db, file: SnapshotFile, created: bool, msg: Message, userId: string, alias: string)
    returns (replies: seq<Reply>)
    modifies db, file
    ensures ParseU64(userId).None? ==>
      db.users == old(db.users) && file.saved == old(file.saved) && replies == [ReplyTo(msg, InvalidIdText)]
    ensures ParseU64(userId).Some? && ParseU64(userId).value in old(db.users) ==>
      db.users == old(db.users) && file.saved == old(file.saved) && replies == []
    ensures ParseU64(userId).Some? && ParseU64(userId).value !in old(db.users) ==>
      var id: UserId := ParseU64(userId).value;
      && db.users == old(db.users)[id := Aliased(alias)]
      && file.saved == (if created then Some(Encode(db.users)) else old(file.saved))
      && replies == [ReplyTo(msg, AddedText)]
  {
    var parsed;
    parsed, replies := UserIdFromString(msg, userId);
    if parsed.Some? {
      var id := parsed.value;
      var unknown := IsUnknownUser(db, id);
      if unknown {
        db.users := db.users[id := Aliased(alias)];
        db.Save(file, created);
        replies := [ReplyTo(msg, AddedText)];
      }
    }
  }

  /**
   * `remove_user`: a malformed id is refused with a reply; an absent id is left
   * alone without a reply; otherwise its record is deleted, the registry
   * saved, and the removal confirmed.
   */
  method RemoveUser(db: Db, file: SnapshotFile, created: bool, msg: Message, userId: string)
    returns (replies: seq<Reply>)
    modifies db, file
    ensures ParseU64(userId).None? ==>
      db.users == old(db.users) && file.saved == old(file.saved) && replies == [ReplyTo(msg, InvalidIdText)]
    ensures ParseU64(userId).Some? && ParseU64(userId).value !in old(db.users) ==>
      db.users == old(db.users) && file.saved == old(file.saved) && replies == []
    ensures ParseU64(userId).Some? && ParseU64(userId).value in old(db.users) ==>
      var id: UserId := ParseU64(userId).value;
      && db.users == old(db.users) - {id}
      && file.saved == (if created then Some(Encode(db.users)) else old(file.saved))
      && replies == [ReplyTo(msg, RemovedText)]
  {
    var parsed;
    parsed, replies := UserIdFromString(msg, userId);
    if parsed.Some? {
      var id := parsed.value;
      var unknown := IsUnknownUser(db, id);
      if !unknown {
        db.users := db.users - {id};
        db.Save(file, created);
        replies := [ReplyTo(msg, RemovedText)];
      }
    }
  }

  /** Adding or removing touches the record of the one id involved and no other. */
  lemma OnlyOneEntryChanges(users: map<UserId, UserData>, id: UserId, alias: string, other: UserId)
    requires other != id
    ensures other in users[id := Aliased(alias)] <==> other in users
    ensures other in users - {id} <==> other in users
    ensures other in users ==> users[id := Aliased(alias)][other] == users[other] && (users - {id})[other] == users[other]
    ensures id in users[id := Aliased(alias)] && id !in users - {id}
  {
  }

  /** One line of the user list: "alias (id): [counters]". */
  function UserLine(id: UserId, data: UserData): string
  {
    data.alias + (" (" + (ShowNat(id) + ("): [" + (DownloadsText(data.downloads) + "]"))))
  }

  predicate Distinct(order: seq<UserId>)
  {
    forall i, j | 0 <= i < j < |order| :: order[i] != order[j]
  }

  /**
   * `list_users`: a heading ("no users" exactly when the registry is empty)
   * followed by one line per user, in the registry's iteration order; the
   * reply joins them with newlines. `order` is that iteration order: every
   * registered id exactly once.
   */
  method ListUsers(db: Db, msg: Message) returns (order: seq<UserId>, lines: seq<string>, reply: Reply)
    ensures Distinct(order) && |order| == |db.users|
    ensures forall id :: id in order <==> id in db.users
    ensures |lines| == |db.users| + 1
    ensures lines[0] == if |db.users| == 0 then NoUsersHeading else UsersHeading
    ensures forall i | 0 <= i < |order| :: order[i] in db.users && lines[i + 1] == UserLine(order[i], db.users[order[i]])
    ensures reply == ReplyTo(msg, Join(lines, "\n"))
  {
    var users := db.users;
    var remaining := users.Keys;
    var userLines: seq<string> := [];
    order := [];
    while remaining != {}
      invariant remaining <= users.Keys
      invariant forall id :: id in order <==> id in users && id !in remaining
      invariant Distinct(order)
      invariant |order| + |remaining| == |users|
      invariant |userLines| == |order|
      invariant forall i | 0 <= i < |order| :: order[i] in users && userLines[i] == UserLine(order[i], users[order[i]])
      decreases remaining
    {
      var id :| id in remaining;
      order := order + [id];
      userLines := userLines + [UserLine(id, users[id])];
      remaining := remaining - {id};
    }
    var heading := if |userLines| == 0 then NoUsersHeading else UsersHeading;
    lines := [heading] + userLines;
    reply := ReplyTo(msg, Join(lines, "\n"));
  }
}
