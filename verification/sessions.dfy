/**
 * How the two handlers combine over a user's session: the single pending
 * URL slot is written by a link, overwritten by a newer link, and taken by
 * exactly one button press. Also the administrator's add / list / remove
 * cycle, composed end to end on a fresh registry.
 */
module Sessions {
  import opened Wrappers
  import opened External
  import opened Decimal
  import opened Formats
  import opened Strings
  import opened Requests
  import opened Registry
  import opened Admin
  import opened Coordinator

  /** A message from a registered user whose text parses as a URL. */
  predicate LinkFrom(users: map<UserId, UserData>, msg: Message, parse: string -> Option<Url>, id: UserId)
  {
    FromKnownUser(users, msg) && msg.from.value.id == id && msg.text.Some? && parse(msg.text.value).Some?
  }

  /**
   * A link followed by a decodable press downloads that link; a second press
   * afterwards finds the slot empty and gets "broken session" without a download.
   */
  lemma PendingUrlTakenOnce(
    users: map<UserId, UserData>, msg: Message, parse: string -> Option<Url>,
    q1: CallbackQuery, r1: DownloadRequest, q2: CallbackQuery, r2: DownloadRequest,
    engine: Engine, delivery: Result<(), string>)
    requires LinkFrom(users, msg, parse, q1.from.id)
    requires q2.from.id == q1.from.id && q1.message.Some? && q2.message.Some?
    ensures var s1 := MessageUsers(users, msg, parse);
      && Resolves(s1, q1, Some(r1))
      && CallbackActions(s1, q1, Some(r1), engine, delivery)[2] == StartDownload(parse(msg.text.value).value, r1.format)
    ensures var s2 := CallbackUsers(MessageUsers(users, msg, parse), q1, Some(r1), engine);
      var second := CallbackActions(s2, q2, Some(r2), engine, delivery);
      && second[1] == EditText(q2.message.value.chat, r2.id, ErrorBrokenSession)
      && forall i | 0 <= i < |second| :: !second[i].StartDownload?
  {
    var s1 := MessageUsers(users, msg, parse);
    PendingUrlConsumed(s1, q1, Some(r1), engine, delivery);
    var s2 := CallbackUsers(s1, q1, Some(r1), engine);
    BrokenSession(s2, q2, Some(r2), engine, delivery);
  }

  /**
   * Overwrite: after links A then B from the same user, a press downloads B,
   * whatever prompt the pressed button belonged to, and A is no longer held.
   */
  lemma NewerLinkWins(
    users: map<UserId, UserData>, m1: Message, m2: Message, parse: string -> Option<Url>,
    q: CallbackQuery, r: DownloadRequest, engine: Engine, delivery: Result<(), string>)
    requires LinkFrom(users, m1, parse, q.from.id) && m2.from == m1.from && m2.text.Some? && parse(m2.text.value).Some?
    requires q.message.Some?
    ensures var s := MessageUsers(MessageUsers(users, m1, parse), m2, parse);
      && s[q.from.id].url == parse(m2.text.value)
      && CallbackActions(s, q, Some(r), engine, delivery)[2] == StartDownload(parse(m2.text.value).value, r.format)
  {
    var s1 := MessageUsers(users, m1, parse);
    LinkSetsPendingUrl(users, m1, parse, 0);
    LinkSetsPendingUrl(s1, m2, parse, 0);
    var s := MessageUsers(s1, m2, parse);
    PendingUrlConsumed(s, q, Some(r), engine, delivery);
  }

  lemma ParsesAs123()
    ensures ParseU64("123") == Some(123)
  {
    assert ShowNat(1) == "1";
    assert ShowNat(12) == ShowNat(1) + "2";
    assert ShowNat(123) == "123";
    ParseU64ShowNat(123);
  }

  /**
   * The administrator adds user 123 as "alice" to an empty registry; the
   * list then shows that one user with zero counters; after removing 123 a
   * link from that user is dropped without an answer.
   */
  method AddListRemove(command: Message, link: Message, parse: string -> Option<Url>, prompt: MessageId)
    returns (added: seq<Reply>, lines: seq<string>, removed: seq<Reply>, answer: seq<Action>)
    requires link.from.Some? && link.from.value.id == 123
    ensures added == [ReplyTo(command, AddedText)]
    ensures lines == [UsersHeading, UserLine(123, Aliased("alice"))]
    ensures removed == [ReplyTo(command, RemovedText)]
    ensures answer == []
  {
    var file := new SnapshotFile(None);
    var db := new Db.LoadOrInit(file);
    ParsesAs123();
    added := AddUser(db, file, true, command, "123", "alice");
    lines := ListSingle(db, command);
    removed := RemoveUser(db, file, true, command, "123");
    answer := ReceiveDownloadRequest(db, link, parse, prompt);
  }

  /** Listing a registry that holds exactly one user. */
  method ListSingle(db: Db, command: Message) returns (lines: seq<string>)
    requires db.users == map[123 := Aliased("alice")]
    ensures lines == [UsersHeading, UserLine(123, Aliased("alice"))]
  {
    var order, reply;
    order, lines, reply := ListUsers(db, command);
    assert |lines| == 2 && order[0] in db.users;
  }
}
