/**
 * The values the program receives from or hands to its collaborators:
 * the Telegram client library (ids, users, messages, callback queries,
 * inline buttons) and the URL library (a parsed URL).
 */
module External {
  import opened Wrappers

  /** A Telegram user id, a `u64`. */
  type UserId = n: nat | n < 0x1_0000_0000_0000_0000

  /** A Telegram message id, an `i32`. */
  type MessageId = i: int | -0x8000_0000 <= i < 0x8000_0000

  /** A Telegram chat id, an `i64`. */
  type ChatId = i: int | -0x8000_0000_0000_0000 <= i < 0x8000_0000_0000_0000

  /** A URL that the URL library has accepted; its syntax is not modelled. */
  datatype Url = Url(href: string)

  datatype User = User(id: UserId, username: Option<string>, languageCode: Option<string>)

  /** An inbound message: its id, its chat, its sender (absent for channel posts) and its text. */
  datatype Message = Message(id: MessageId, chat: ChatId, from: Option<User>, text: Option<string>)

  /** The message a button press came from. */
  datatype MessageRef = MessageRef(chat: ChatId, id: MessageId)

  /** A button press: the query id, who pressed, the message carrying the button, the button's payload. */
  datatype CallbackQuery = CallbackQuery(id: string, from: User, message: Option<MessageRef>, data: Option<string>)

  /** An inline keyboard button that sends `payload` back when pressed. */
  datatype Button = Button(text: string, payload: string)
}
