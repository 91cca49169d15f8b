# yttg: a Dafny model of the bot's core

yttg is a Telegram bot that downloads YouTube media for an allow-list of users.
A registered user sends a link. The bot keeps it as that user's single pending
URL and answers with a prompt of four format buttons. Pressing a button takes
the pending URL and asks the download engine for the chosen format. On success
it counts the download, saves the registry and replaces the prompt with the
media. An administrator adds, removes and lists users with commands.

The model covers:

- the registry of users with their pending URLs and its snapshot on disk (`Registry`);
- the administrator's commands (`Admin`) and the shared helpers (`Misc`);
- the two handlers that drive a download (`Coordinator`);
- the format tables and the engine call (`Formats`);
- the button payload and its decoder (`Requests`);
- the interface texts (`Strings`).

The number parsing and rendering the handlers depend on is modelled in
`Decimal`. `Sessions` puts the handlers together over a user's session.

The state that the source mutates is modelled as classes:

- `Registry.Db` holds the user map;
- `Registry.SnapshotFile` holds the saved snapshot.

The handlers are methods that modify them. Each is proved against a pure
function of the old state. Examples are `Coordinator.MessageUsers` and
`Coordinator.CallbackUsers`, and the properties of the handlers are lemmas
about those functions.

Whatever a handler sends to Telegram, or asks the engine to do, is returned
as a list of actions (`Coordinator.Action`, `Admin.Reply`).

The engine is a value of type `Formats.Engine`, made of two functions:

- `fetch` resolves a URL to its metadata;
- `run` carries out a download job.

Either may fail. URL syntax is the parameter `parse`. Whether the registry
file can be created is the parameter `created`. Whether Telegram accepts the
attached media is the parameter `delivery`.

## Model

| member | source | states |
|---|---|---|
| Registry.DefaultUserData | src/db.rs:37-45 | the default record has an empty alias, zero counters and no pending URL |
| Registry.Aliased | src/db.rs:47-53 | a fresh record carries the given alias, zero video and audio counters, and no pending URL |
| Registry.DownloadsText | src/db.rs:62-66 | the counters render as text that starts with the video mark and ends with ')' |
| Registry.DownloadsTextFields | src/db.rs:62-66 | the digits after the screen mark read back as the video count and those after the speaker mark as the audio count |
| Registry.DownloadsTextInjective | src/db.rs:62-66 | the rendered text determines both counters: equal texts mean equal counters |
| Registry.Encode | src/db.rs:30-34 | the snapshot has the registry's ids and keeps each alias and its counters; the pending URL is skipped (src/db.rs:42-44) |
| Registry.Decode | src/db.rs:20-28 | reading a snapshot gives the same ids, aliases and counters, and every user starts without a pending URL |
| Registry.Load | src/db.rs:20-28 | with no file the registry is empty; with a file it has the snapshot's ids and no pending URLs |
| Registry.WithoutSessions | src/db.rs:42-44 | the registry with the same ids, each record with its pending URL cleared |
| Registry.SnapshotRoundTrip | src/db.rs:20-34 | saving and then loading gives back the registry without sessions, and saving that again writes the same snapshot |
| Registry.SnapshotFile.constructor | src/db.rs:12 | the snapshot file starts out holding the given contents |
| Registry.Db.LoadOrInit | src/config.rs:20-28 | the registry starts as the loaded snapshot, or empty when there is no file |
| Registry.Db.Save | src/db.rs:30-34 | when the file can be created it holds the snapshot of the current registry, otherwise it keeps its old contents; the registry is unchanged |
| Misc.IsUnknownUser | src/misc.rs:7-9 | true exactly when the id has no record |
| Misc.LogError | src/misc.rs:11-20 | the argument is returned unchanged, and an error is logged exactly when it is an error |
| Decimal.ShowNat | src/admin.rs:72 | decimal rendering of an id or counter is non-empty and all digits |
| Decimal.ShowNatValue | src/admin.rs:72 | the rendered digits read back as the number |
| Decimal.ShowNatInjective | src/admin.rs:72 | different numbers render differently |
| Decimal.ParseU64 | src/admin.rs:91 | a parsed user id is below 2^64 |
| Decimal.ParseU64ShowNat | src/admin.rs:91 | every u64 in decimal, with or without a leading '+', parses back to itself |
| Decimal.ParseU64Accepts | src/admin.rs:91 | an accepted string is non-empty and all digits after an optional leading '+' |
| Decimal.ParseU64Padded | src/admin.rs:91 | every u64 written with any number of leading zeros, with or without a leading '+', parses to itself |
| Decimal.ParseU64Form | src/admin.rs:91 | an accepted string is an optional '+', some leading zeros and the decimal rendering of the value returned |
| Decimal.ParseU64Rejects | src/admin.rs:91 | values of 2^64 or more, "", "+" and anything starting with '-' are refused |
| Decimal.ShowInt | src/ytdlp.rs:75-80 | a message id renders as a non-empty string of digits and '-' |
| Decimal.ParseShowInt | src/ytdlp.rs:75-80 | a rendered message id parses back to itself |
| Decimal.ParseCanonicalIntExact | src/ytdlp.rs:75-80 | the id parser accepts only the exact rendering of the value it returns |
| Admin.IsAdminTexting | src/admin.rs:105-108 | true exactly when the message has a sender and that sender is the administrator |
| Admin.UserIdFromString | src/admin.rs:90-103 | an id exactly when the text parses as u64, with no reply; otherwise no id and the "invalid id" reply to the command |
| Admin.AddUser | src/admin.rs:37-55 | a bad id gets the "invalid id" reply; a present id changes nothing and gets no reply; otherwise the alias is inserted with zero counters, the registry saved and the addition confirmed |
| Admin.RemoveUser | src/admin.rs:57-69 | a bad id gets the "invalid id" reply; an absent id changes nothing and gets no reply; otherwise that record is deleted, the registry saved and the removal confirmed |
| Admin.OnlyOneEntryChanges | src/admin.rs:46 | inserting or deleting one id leaves every other record and its presence unchanged |
| Admin.ListUsers | src/admin.rs:71-87 | every registered id listed exactly once; a "no users" heading exactly when the registry is empty; one "alias (id): [counters]" line per user; the lines joined with newlines |
| Formats.VideoQualityOf | src/ytdlp.rs:98-108 | height 1080 exactly for FullHD, 480 exactly for LowRes, 720 exactly for HD and audio only |
| Formats.AudioQualityOf | src/ytdlp.rs:110-115 | every format asks for the best audio |
| Formats.Buttons | src/ytdlp.rs:117-121 | four rows of one button each |
| Formats.ButtonsLayout | src/ytdlp.rs:117-121 | every format appears exactly once, the video formats go from the highest to the lowest resolution, and audio only comes last |
| Formats.OutputName | src/ytdlp.rs:45-48 | the output file is the video id with ".mp3" for audio only and ".mp4" otherwise |
| Formats.JobFor | src/ytdlp.rs:50-63 | an audio job exactly for audio only; every job writes the output name with MP3 at the best audio quality; a video job downloads the URL with the format's height and AVC1 |
| Formats.Download | src/ytdlp.rs:42-67 | media exactly when both the metadata fetch and the job succeed; it carries the video title and the file the job wrote |
| Formats.FromFormat | src/ytdlp.rs:127-137 | an audio attachment exactly for audio only, titled with the media title; the attached file is the downloaded path |
| Strings.LanguageFromTag | src/strings.rs:14-22 | Russian exactly for the tag "ru"; English for "en", any other tag and no tag |
| Strings.LanguageOfUser | src/strings.rs:24-31 | the language of the user's tag, or English without a user |
| Strings.LanguageTags | src/strings.rs:14-22 | "en" gives English, "ru" gives Russian, any other tag or none gives the default |
| Strings.ResponseText | src/strings.rs:41-60 | every response has a non-empty text in both languages |
| Strings.FormatLabel | src/strings.rs:62-78 | each label starts with the speaker mark for audio only and the screen mark for the video formats |
| Strings.FormatLabelsDistinct | src/strings.rs:62-78 | within one language different formats have different labels |
| Requests.FormatFromName | src/ytdlp.rs:90-96 | a format name is only accepted as the name of the format returned |
| Requests.LanguageFromName | src/strings.rs:6-11 | a language name is only accepted as the name of the language returned |
| Requests.NamesRoundTrip | src/ytdlp.rs:90-96 | each format and language name reads back as itself and contains no quote |
| Requests.DecodeRequest | src/ytdlp.rs:75-80 | a payload decodes only when it is exactly the encoding of the request returned |
| Requests.DecodeEncode | src/ytdlp.rs:82-88 | the payload put on a button decodes back to the same request |
| Requests.ToButton | src/ytdlp.rs:82-88 | the button shows the format's label in the request's language, and its payload decodes to the request |
| Requests.PromptKeyboard | src/main.rs:85-86 | one button per format row, each labelled in the user's language and carrying a request for that format and the prompt's id |
| Coordinator.CountDownload | src/main.rs:124-130 | audio only adds one audio download, the other formats add one video download, and the other counter stays the same |
| Coordinator.CountDownloadMonotone | src/main.rs:124-130 | no counter goes down and the total goes up by exactly one |
| Coordinator.ReceiveDownloadRequest | src/main.rs:64-89 | the registry becomes the message's successor state and the bot sends the message's actions |
| Coordinator.UnknownSenderIgnored | src/main.rs:65-73 | no sender, an unregistered sender or no text: nothing changes and nothing is sent |
| Coordinator.NotALink | src/main.rs:74-77 | text that is not a URL changes nothing and gets the "send a link" reply |
| Coordinator.LinkSetsPendingUrl | src/main.rs:79-86 | a URL overwrites the sender's pending URL and keeps the alias and counters; other users stay as they were; the reply is the prompt, and every button on it decodes to a request naming that prompt |
| Coordinator.CallbackTouchesOnlyPresser | src/main.rs:109-131 | a callback keeps the set of users and every other user's record; no alias changes and no counter goes down |
| Coordinator.BrokenSession | src/main.rs:101-112 | an undecodable payload, or a presser without a pending URL, gets "broken session": no change, no save, no download |
| Coordinator.PendingUrlConsumed | src/main.rs:109-119 | a resolving callback downloads exactly the pending URL once, in the chosen format, and leaves the presser without a pending URL |
| Coordinator.FailedDownloadCountsNothing | src/main.rs:119-122 | a failed download leaves the counters alone, saves nothing and ends with "failed to download" |
| Coordinator.SuccessfulDownloadCountsOnce | src/main.rs:124-131 | a successful download raises exactly the matching counter by one, and the registry is saved |
| Coordinator.TakePendingUrl | src/main.rs:109 | returns the pending URL exactly when there is one and clears it; otherwise nothing changes |
| Coordinator.RecordDownload | src/main.rs:124-130 | the user's counters are raised by the format's count when the user has a record; otherwise nothing changes |
| Coordinator.DownloadAndDeliver | src/main.rs:119-140 | when the download fails: no change and "failed to download". When it succeeds: one count, a save, the attachment, a notice if the attachment is refused, and the file removed |
| Coordinator.ResolveRequest | src/main.rs:109-140 | for a decoded request: the callback's successor registry, actions and save, as the callback specification functions define them |
| Coordinator.ReceiveRequestFormat | src/main.rs:91-143 | the registry becomes the callback's successor state; the bot performs the callback's actions; the file is saved exactly when a download succeeded and the file could be created |
| Sessions.PendingUrlTakenOnce | src/main.rs:79-112 | a link followed by a press downloads that link; a second press then gets "broken session" and no download |
| Sessions.NewerLinkWins | src/main.rs:79-81 | after two links the pending URL is the newer one, and a press on any prompt's button downloads it |
| Sessions.ParsesAs123 | src/admin.rs:91 | the text "123" parses as the id 123 |
| Sessions.AddListRemove | src/admin.rs:37-87 | adding 123 as "alice" to an empty registry is confirmed; the list then shows that one user with zero counters; after removal it is confirmed and a link from 123 gets no answer |
| Sessions.ListSingle | src/admin.rs:71-87 | a registry with one user lists as the heading and that user's line |

## Left out

- Concurrency is left out. Each handler runs as its own task and takes the registry lock several times; the model runs each handler as one atomic step.
- The transport's error returns (`?` on every Telegram call) are left out. Every send is assumed to reach Telegram, except the media attachment, whose failure is the parameter `delivery`.
- `Downloader::new` and `update_ytdlp` are left out. They set up and refresh the external engine binary and do not touch the state modelled here.
- File I/O and JSON serialisation of the registry are left out. The snapshot is a map, and `created` says whether the file could be created.
- Loading a malformed registry file panics at start-up. This is not modelled, because `Load` only sees a file that is absent or well formed.
- `Registry.Db.Save`: a write error that occurs after the file was created is not separated from success.
- `Requests.DecodeRequest` is stricter than serde_json. It accepts only the canonical encoding, with no whitespace, no other field order and no escapes. The JSON form of teloxide's `MessageId` is taken to be a plain integer.
- URL syntax (`Url::parse`) is not modelled; it is the parameter `parse`.
- `Coordinator.CountDownload`: the counters are unbounded naturals. The `usize` overflow of src/db.rs:58-59 is not modelled, because it would take 2^64 downloads.
- `AdminCommands::print_help` and the dispatcher in src/main.rs:41-61 are left out. They are routing and a fixed help text; `Admin.IsAdminTexting` models the administrator filter.
- `Admin.ListUsers`: the map's iteration order is arbitrary here, as in a `HashMap`. The model does not promise a stable order between two calls.
- A property that every two response texts differ is not stated, because it is too costly for the solver on the literal strings.
- The Russian texts of src/strings.rs are stored in a mis-encoded form in that file. The model uses the intended Cyrillic strings.
- src/main.rs refers to response constants and to `Format::get_buttons`, which are not part of this model's sources. Replies are modelled as `Strings.Response` values. The keyboard (`Requests.PromptKeyboard`) is the rows of `Format::buttons`, each button carrying a request for that format, the prompt's id and the sender's language.
- src/config.rs and src/db.rs are identical in shape. They differ in the file name (`db.json` and `config.json`, line 12 of each) and in their panic and log texts. The admin handlers save through `Config` and the download handlers through `DB`, so the program writes two files. The model has one registry and one snapshot file.
- The log lines of src/main.rs:114-115 and src/db.rs:32 (the failed-save message) are left out because they are only output; `Registry.Db.Save` leaves the file as it was in that case.

Two behaviours of the code worth knowing:

- A callback from a user who is not registered is not silently dropped. It gets the "broken session" edit, like any presser without a pending URL (`Coordinator.BrokenSession`).
- A button from an older prompt is not refused. It downloads the user's newest pending URL, because the request's message id is never compared with anything (`Sessions.NewerLinkWins`).
