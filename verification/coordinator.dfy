/**
 * The two handlers that drive a download (src/main.rs): a link from a
 * registered user becomes that user's pending URL and a format prompt; a
 * press on a format button takes the pending URL, runs the engine, counts a
 * successful download and delivers the media. What the handlers send to
 * Telegram and ask of the engine is returned as a list of actions.
 */
module Coordinator {
  import opened Wrappers
  import opened External
  import opened Formats
  import opened Strings
  import opened Requests
  import opened Registry
  import opened Misc

  datatype Action =
    | SendResponse(chat: ChatId, response: Response, replyTo: Option<MessageId>)
    | EditMarkup(chat: ChatId, message: MessageId, keyboard: seq<seq<Button>>)
    | AnswerCallback(query: string)
    | EditText(chat: ChatId, message: MessageId, response: Response)
    | StartDownload(url: Url, format: Format)
    | EditMedia(chat: ChatId, message: MessageId, media: InputMedia)
    | RemoveFile(path: string)

  /** The message has a sender, and the sender is registered. */
  predicate FromKnownUser(users: map<UserId, UserData>, msg: Message)
  {
    msg.from.Some? && msg.from.value.id in users
  }

  /** A successful download counts once: audio only as an audio, every other format as a video. */
  function CountDownload(d: Downloads, f: Format): (e: Downloads)
    ensures f == AudioOnly ==> e.audios == d.audios + 1 && e.videos == d.videos
    ensures f != AudioOnly ==> e.videos == d.videos + 1 && e.audios == d.audios
  {
    if f.AudioOnly? then d.(audios := d.audios + 1) else d.(videos := d.videos + 1)
  }

  /** Counting never lowers a counter and raises the total by exactly one. */
  lemma CountDownloadMonotone(d: Downloads, f: Format)
    ensures CountDownload(d, f).videos >= d.videos && CountDownload(d, f).audios >= d.audios
    ensures CountDownload(d, f).videos + CountDownload(d, f).audios == d.videos + d.audios + 1
  {
  }

  /** The registry after an inbound message: a URL from a registered sender becomes that sender's pending URL. */
  function MessageUsers(users: map<UserId, UserData>, msg: Message, parse: string -> Option<Url>): map<UserId, UserData>
  {
    if FromKnownUser(users, msg) && msg.text.Some? && parse(msg.text.value).Some? then
      var id := msg.from.value.id;
      users[id := users[id].(url := parse(msg.text.value))]
    else users
  }

  /** What the bot sends for an inbound message; `prompt` is the id Telegram gives the format prompt. */
  function MessageActions(users: map<UserId, UserData>, msg: Message, parse: string -> Option<Url>, prompt: MessageId): seq<Action>
  {
    if !FromKnownUser(users, msg) || msg.text.None? then []
    else if parse(msg.text.value).None? then [SendResponse(msg.chat, ErrorSendALink, None)]
    else [SendResponse(msg.chat, ChooseFormat, Some(msg.id)),
          EditMarkup(msg.chat, prompt, PromptKeyboard(prompt, LanguageOfUser(msg.from)))]
  }

  /**
   * `receive_download_request`. A message without a sender, from an unknown
   * user or without text is dropped silently. Text that is not a URL gets the
   * "send a link" reply. A URL becomes the sender's pending URL, replacing any
   * earlier one, and the format prompt is sent with its keyboard.
   */
  method ReceiveDownloadRequest(db: Db, msg: Message, parse: string -> Option<Url>, prompt: MessageId)
    returns (actions: seq<Action>)
    modifies db
    ensures db.users == MessageUsers(old(db.users), msg, parse)
    ensures actions == MessageActions(old(db.users), msg, parse, prompt)
  {
    actions := [];
    if msg.from.None? {
      return;
    }
    var id := msg.from.value.id;
    var unknown := IsUnknownUser(db, id);
    if unknown || msg.text.None? {
      return;
    }
    match parse(msg.text.value)
    case None =>
      actions := [SendResponse(msg.chat, ErrorSendALink, None)];
    case Some(url) =>
      db.users := db.users[id := db.users[id].(url := Some(url))];
      actions := [SendResponse(msg.chat, ChooseFormat, Some(msg.id))];
      actions := actions + [EditMarkup(msg.chat, prompt, PromptKeyboard(prompt, LanguageOfUser(msg.from)))];
  }

  /** Messages from outside the registry, and messages without text, change nothing and get no answer. */
  lemma UnknownSenderIgnored(users: map<UserId, UserData>, msg: Message, parse: string -> Option<Url>, prompt: MessageId)
    requires msg.from.None? || msg.from.value.id !in users || msg.text.None?
    ensures MessageUsers(users, msg, parse) == users
    ensures MessageActions(users, msg, parse, prompt) == []
  {
  }

  /** Text that is not a URL leaves the registry alone and asks for a link. */
  lemma NotALink(users: map<UserId, UserData>, msg: Message, parse: string -> Option<Url>, prompt: MessageId)
    requires FromKnownUser(users, msg) && msg.text.Some? && parse(msg.text.value).None?
    ensures MessageUsers(users, msg, parse) == users
    ensures MessageActions(users, msg, parse, prompt) == [SendResponse(msg.chat, ErrorSendALink, None)]
  {
  }

  /**
   * A URL from a registered user overwrites that user's pending URL, keeps
   * the user's alias and counters, leaves every other user as it was, and
   * answers with a prompt whose buttons all point back at that prompt.
   */
  lemma LinkSetsPendingUrl(users: map<UserId, UserData>, msg: Message, parse: string -> Option<Url>, prompt: MessageId)
    requires FromKnownUser(users, msg) && msg.text.Some? && parse(msg.text.value).Some?
    ensures var after := MessageUsers(users, msg, parse);
      && after.Keys == users.Keys
      && after[msg.from.value.id].url == parse(msg.text.value)
      && after[msg.from.value.id].alias == users[msg.from.value.id].alias
      && after[msg.from.value.id].downloads == users[msg.from.value.id].downloads
      && (forall id | id in users && id != msg.from.value.id :: after[id] == users[id])
    ensures var actions := MessageActions(users, msg, parse, prompt);
      && |actions| == 2 && actions[0] == SendResponse(msg.chat, ChooseFormat, Some(msg.id))
      && actions[1].EditMarkup? && actions[1].message == prompt
      && forall i | 0 <= i < |actions[1].keyboard| ::
           DecodeRequest(actions[1].keyboard[i][0].payload).Some? &&
           DecodeRequest(actions[1].keyboard[i][0].payload).value.id == prompt
  {
    var actions := MessageActions(users, msg, parse, prompt);
    var keyboard := PromptKeyboard(prompt, LanguageOfUser(msg.from));
    assert actions[1].keyboard == keyboard;
  }

  /** The request a callback carries, if its payload decodes. */
  function CallbackRequest(q: CallbackQuery): Option<DownloadRequest>
  {
    match q.data
    case Some(payload) => DecodeRequest(payload)
    case None => None
  }

  /** The user pressing the button has a record holding a pending URL. */
  predicate HasPendingUrl(users: map<UserId, UserData>, id: UserId)
  {
    id in users && users[id].url.Some?
  }

  /**
   * The callback comes with a chat, its payload decoded to a request, and
   * there is a pending URL to resolve it with. `decoded` is the payload
   * after decoding (`CallbackRequest(q)`).
   */
  predicate Resolves(users: map<UserId, UserData>, q: CallbackQuery, decoded: Option<DownloadRequest>)
  {
    q.message.Some? && decoded.Some? && HasPendingUrl(users, q.from.id)
  }

  /** The engine's result for a resolving callback. */
  function CallbackDownload(users: map<UserId, UserData>, q: CallbackQuery, decoded: Option<DownloadRequest>, engine: Engine): Option<DownloadedMedia>
    requires Resolves(users, q, decoded)
  {
    Download(engine, users[q.from.id].url.value, decoded.value.format)
  }

  /** The registry after a callback: the pending URL taken, and one counter up if the download succeeded. */
  function CallbackUsers(users: map<UserId, UserData>, q: CallbackQuery, decoded: Option<DownloadRequest>, engine: Engine): map<UserId, UserData>
  {
    if !Resolves(users, q, decoded) then users
    else
      var id := q.from.id;
      var taken := users[id].(url := None);
      if CallbackDownload(users, q, decoded, engine).None? then users[id := taken]
      else users[id := taken.(downloads := CountDownload(taken.downloads, decoded.value.format))]
  }

  /** Whether the callback ends in a save of the registry: exactly when the download succeeded. */
  predicate CallbackSaves(users: map<UserId, UserData>, q: CallbackQuery, decoded: Option<DownloadRequest>, engine: Engine)
  {
    Resolves(users, q, decoded) && CallbackDownload(users, q, decoded, engine).Some?
  }

  /** The actions after a successful download: attach, report a failed attachment, delete the file. */
  function DeliveryActions(chat: ChatId, request: DownloadRequest, media: DownloadedMedia, delivery: Result<(), string>): seq<Action>
  {
    [EditMedia(chat, request.id, FromFormat(request.format, media))]
      + (if delivery.Err? then [EditText(chat, request.id, ErrorFailedToDownload)] else [])
      + [RemoveFile(media.path)]
  }

  /** What the bot does for a callback, starting with acknowledging it. */
  function CallbackActions(
    users: map<UserId, UserData>, q: CallbackQuery, decoded: Option<DownloadRequest>, engine: Engine, delivery: Result<(), string>)
    : seq<Action>
  {
    if q.message.None? then [AnswerCallback(q.id)]
    else
      var chat := q.message.value.chat;
      if decoded.None? then [AnswerCallback(q.id), EditText(chat, q.message.value.id, ErrorBrokenSession)]
      else
        var request := decoded.value;
        if !HasPendingUrl(users, q.from.id) then [AnswerCallback(q.id), EditText(chat, request.id, ErrorBrokenSession)]
        else
          var url := users[q.from.id].url.value;
          var started := [
            AnswerCallback(q.id), EditText(chat, request.id, PleaseWaitForTheMedia), StartDownload(url, request.format)];
          match CallbackDownload(users, q, decoded, engine)
          case None => started + [EditText(chat, request.id, ErrorFailedToDownload)]
          case Some(media) => started + DeliveryActions(chat, request, media, delivery)
  }

  /**
   * A callback keeps the set of registered users, touches no record but the
   * presser's, and never lowers a counter.
   */
  lemma CallbackTouchesOnlyPresser(users: map<UserId, UserData>, q: CallbackQuery, decoded: Option<DownloadRequest>, engine: Engine)
    ensures var after := CallbackUsers(users, q, decoded, engine);
      && after.Keys == users.Keys
      && (forall id | id in users && id != q.from.id :: after[id] == users[id])
      && (forall id | id in users ::
            after[id].alias == users[id].alias &&
            after[id].downloads.videos >= users[id].downloads.videos &&
            after[id].downloads.audios >= users[id].downloads.audios)
  {
    if Resolves(users, q, decoded) {
      CountDownloadMonotone(users[q.from.id].downloads, decoded.value.format);
    }
  }

  /**
   * A payload that does not decode, or a presser without a pending URL
   * (never registered, or the URL already taken), yields "broken session":
   * nothing changes, nothing is saved and the engine is not asked for anything.
   */
  lemma BrokenSession(
    users: map<UserId, UserData>, q: CallbackQuery, decoded: Option<DownloadRequest>, engine: Engine, delivery: Result<(), string>)
    requires q.message.Some? && (decoded.None? || !HasPendingUrl(users, q.from.id))
    ensures CallbackUsers(users, q, decoded, engine) == users
    ensures !CallbackSaves(users, q, decoded, engine)
    ensures var actions := CallbackActions(users, q, decoded, engine, delivery);
      && |actions| == 2 && actions[1].EditText? && actions[1].response == ErrorBrokenSession
      && forall i | 0 <= i < |actions| :: !actions[i].StartDownload?
  {
  }

  /**
   * A resolving callback downloads exactly the pending URL, once, in the
   * requested format, and leaves the presser without a pending URL whatever
   * the engine does.
   */
  lemma PendingUrlConsumed(
    users: map<UserId, UserData>, q: CallbackQuery, decoded: Option<DownloadRequest>, engine: Engine, delivery: Result<(), string>)
    requires Resolves(users, q, decoded)
    ensures CallbackUsers(users, q, decoded, engine)[q.from.id].url.None?
    ensures var actions := CallbackActions(users, q, decoded, engine, delivery);
      && |actions| >= 4
      && actions[2] == StartDownload(users[q.from.id].url.value, decoded.value.format)
      && forall i | 0 <= i < |actions| && i != 2 :: !actions[i].StartDownload?
  {
    var actions := CallbackActions(users, q, decoded, engine, delivery);
    var request := decoded.value;
    var chat := q.message.value.chat;
    match CallbackDownload(users, q, decoded, engine)
    case None =>
    case Some(media) =>
      var tail := DeliveryActions(chat, request, media, delivery);
      assert forall i | 0 <= i < |tail| :: !tail[i].StartDownload?;
      assert actions[3..] == tail;
  }

  /** When the engine fails the counters stay as they were, the registry is not saved, and the status says so. */
  lemma FailedDownloadCountsNothing(
    users: map<UserId, UserData>, q: CallbackQuery, decoded: Option<DownloadRequest>, engine: Engine, delivery: Result<(), string>)
    requires Resolves(users, q, decoded) && CallbackDownload(users, q, decoded, engine).None?
    ensures CallbackUsers(users, q, decoded, engine)[q.from.id].downloads == users[q.from.id].downloads
    ensures !CallbackSaves(users, q, decoded, engine)
    ensures var actions := CallbackActions(users, q, decoded, engine, delivery);
      actions[|actions| - 1] == EditText(q.message.value.chat, decoded.value.id, ErrorFailedToDownload)
  {
  }

  /**
   * When the engine succeeds exactly one counter of the presser rises by one,
   * audios for audio only and videos otherwise, and the registry is saved.
   */
  lemma SuccessfulDownloadCountsOnce(users: map<UserId, UserData>, q: CallbackQuery, decoded: Option<DownloadRequest>, engine: Engine)
    requires Resolves(users, q, decoded) && CallbackDownload(users, q, decoded, engine).Some?
    ensures var before, after := users[q.from.id].downloads, CallbackUsers(users, q, decoded, engine)[q.from.id].downloads;
      if decoded.value.format == AudioOnly
      then after.audios == before.audios + 1 && after.videos == before.videos
      else after.videos == before.videos + 1 && after.audios == before.audios
    ensures CallbackSaves(users, q, decoded, engine)
  {
  }

  /**
   * `users.get_mut(id).and_then(|x| x.url.take())`: the pending URL of `id`,
   * removed from its record; no URL and no change when there is none.
   */
  method TakePendingUrl(db: Db, id: UserId) returns (url: Option<Url>)
    modifies db
    ensures url.Some? <==> HasPendingUrl(old(db.users), id)
    ensures url.Some? ==> url == old(db.users)[id].url && db.users == old(db.users)[id := old(db.users)[id].(url := None)]
    ensures url.None? ==> db.users == old(db.users)
  {
    url := None;
    if id in db.users && db.users[id].url.Some? {
      url := db.users[id].url;
      db.users := db.users[id := db.users[id].(url := None)];
    }
  }

  /** The counter update after a successful download, when the user still has a record. */
  method RecordDownload(db: Db, id: UserId, f: Format)
    modifies db
    ensures id in old(db.users) ==>
      db.users == old(db.users)[id := old(db.users)[id].(downloads := CountDownload(old(db.users)[id].downloads, f))]
    ensures id !in old(db.users) ==> db.users == old(db.users)
  {
    if id in db.users {
      var data := db.users[id];
      db.users := db.users[id := data.(downloads := CountDownload(data.downloads, f))];
    }
  }

  /**
   * The part of `receive_request_format` after the pending URL is taken:
   * download, then on success count, save, attach and clean up. Returns the
   * actions that follow the download request.
   */
  method DownloadAndDeliver(
    db: Db, file: SnapshotFile, created: bool, chat: ChatId, request: DownloadRequest, id: UserId, url: Url,
    engine: Engine, delivery: Result<(), string>)
    returns (tail: seq<Action>)
    requires id in db.users
    modifies db, file
    ensures Download(engine, url, request.format).None? ==>
      && db.users == old(db.users) && file.saved == old(file.saved)
      && tail == [EditText(chat, request.id, ErrorFailedToDownload)]
    ensures Download(engine, url, request.format).Some? ==>
      var media := Download(engine, url, request.format).value;
      && db.users == old(db.users)[id := old(db.users)[id].(downloads := CountDownload(old(db.users)[id].downloads, request.format))]
      && file.saved == (if created then Some(Encode(db.users)) else old(file.saved))
      && tail == DeliveryActions(chat, request, media, delivery)
  {
    var downloaded := Download(engine, url, request.format);
    if downloaded.None? {
      tail := [EditText(chat, request.id, ErrorFailedToDownload)];
      return;
    }
    var media := downloaded.value;
    RecordDownload(db, id, request.format);
    db.Save(file, created);
    var (result, _) := LogError(delivery);
    var notice := if result.Err? then [EditText(chat, request.id, ErrorFailedToDownload)] else [];
    tail := [EditMedia(chat, request.id, FromFormat(request.format, media))] + notice + [RemoveFile(media.path)];
  }

  /**
   * `receive_request_format` once the payload has decoded to `request`:
   * take the pending URL or report a broken session, then download and deliver.
   */
  method ResolveRequest(
    db: Db, file: SnapshotFile, created: bool, q: CallbackQuery, request: DownloadRequest, engine: Engine,
    delivery: Result<(), string>)
    returns (actions: seq<Action>)
    requires q.message.Some?
    modifies db, file
    ensures db.users == CallbackUsers(old(db.users), q, Some(request), engine)
    ensures actions == CallbackActions(old(db.users), q, Some(request), engine, delivery)
    ensures file.saved ==
      if created && CallbackSaves(old(db.users), q, Some(request), engine) then Some(Encode(db.users)) else old(file.saved)
  {
    var chat := q.message.value.chat;
    var id := q.from.id;
    var taken := TakePendingUrl(db, id);
    if taken.None? {
      actions := [AnswerCallback(q.id), EditText(chat, request.id, ErrorBrokenSession)];
      return;
    }
    var url := taken.value;
    var started := [
      AnswerCallback(q.id), EditText(chat, request.id, PleaseWaitForTheMedia), StartDownload(url, request.format)];
    ghost var cleared := old(db.users)[id].(url := None);
    var tail := DownloadAndDeliver(db, file, created, chat, request, id, url, engine, delivery);
    actions := started + tail;
    if Download(engine, url, request.format).Some? {
      var counted := cleared.(downloads := CountDownload(cleared.downloads, request.format));
      assert db.users == old(db.users)[id := cleared][id := counted];
      assert db.users == old(db.users)[id := counted];
    }
  }

  /**
   * `receive_request_format`. The callback is always acknowledged. Without a
   * chat nothing else happens. A payload that does not decode, or a user
   * without a pending URL, gets "broken session". Otherwise the pending URL
   * is taken, the engine downloads it in the chosen format, and on success
   * the counter is raised, the registry saved and the media delivered.
   */
  method ReceiveRequestFormat(
    db: Db, file: SnapshotFile, created: bool, q: CallbackQuery, engine: Engine, delivery: Result<(), string>)
    returns (actions: seq<Action>)
    modifies db, file
    ensures db.users == CallbackUsers(old(db.users), q, CallbackRequest(q), engine)
    ensures actions == CallbackActions(old(db.users), q, CallbackRequest(q), engine, delivery)
    ensures file.saved ==
      if created && CallbackSaves(old(db.users), q, CallbackRequest(q), engine) then Some(Encode(db.users)) else old(file.saved)
  {
    if q.message.None? {
      actions := [AnswerCallback(q.id)];
      return;
    }
    var decoded := CallbackRequest(q);
    if decoded.None? {
      actions := [AnswerCallback(q.id), EditText(q.message.value.chat, q.message.value.id, ErrorBrokenSession)];
      return;
    }
    actions := ResolveRequest(db, file, created, q, decoded.value, engine, delivery);
  }
}
