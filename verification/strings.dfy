/**
 * The user-facing texts (src/strings.rs): the two interface languages, how a
 * language is chosen from a Telegram user, the bot's responses and the
 * labels of the format buttons, each in both languages.
 */
module Strings {
  import opened Wrappers
  import opened External
  import opened Formats

  /** The interface language; English is the default. */
  datatype Language = English | Russian

  const DefaultLanguage: Language := English

  /** `From<Option<String>> for Language`: an IETF tag, "en" or "ru"; anything else is the default. */
  function LanguageFromTag(tag: Option<string>): (l: Language)
    ensures l == Russian <==> tag == Some("ru")
    ensures l == English <==> tag != Some("ru")
  {
    match tag
    case Some(value) =>
      if value == "en" then English
      else if value == "ru" then Russian
      else DefaultLanguage
    case None => DefaultLanguage
  }

  /** `From<Option<User>> for Language`: the user's language code, or the default without a user. */
  function LanguageOfUser(user: Option<User>): (l: Language)
    ensures user.None? ==> l == English
    ensures user.Some? ==> l == LanguageFromTag(user.value.languageCode)
  {
    match user
    case Some(u) => LanguageFromTag(u.languageCode)
    case None => DefaultLanguage
  }

  /** The tags the bot understands, and the fallback for any other tag or none. */
  lemma LanguageTags(other: string)
    requires other != "ru"
    ensures LanguageFromTag(Some("en")) == English
    ensures LanguageFromTag(Some("ru")) == Russian
    ensures LanguageFromTag(Some(other)) == DefaultLanguage
    ensures LanguageFromTag(None) == DefaultLanguage
  {
  }

  datatype Response = ErrorSendALink | ErrorBrokenSession | ChooseFormat | PleaseWaitForTheMedia | ErrorFailedToDownload

  /** `Response::as_str`. */
  function ResponseText(r: Response, language: Language): (s: string)
    ensures |s| > 0
  {
    match (r, language)
    case (ErrorSendALink, English) => "Hi! I can download from YouTube, send a link to a video"
    case (ErrorSendALink, Russian) => "Привет! Я умею скачивать с ютуба, отправь ссылку на видео"
    case (ErrorBrokenSession, English) => "Please repeat your request, it's been too long I've forgotten X_X"
    case (ErrorBrokenSession, Russian) => "Пожалуйста повторите свой запрос, я забыл какая ссылка была X_X"
    case (ChooseFormat, English) => "Choose what you want to download:"
    case (ChooseFormat, Russian) => "Выбери формат:"
    case (PleaseWaitForTheMedia, English) => "The downloaded media will be attached to this message ⌛"
    case (PleaseWaitForTheMedia, Russian) => "Как скачаю, прикреплю в это сообщение ⌛"
    case (ErrorFailedToDownload, English) => "Failed to download :("
    case (ErrorFailedToDownload, Russian) => "Не удалось скачать :("
  }

  /** `Format::as_str`: the button label, marked with a speaker for audio and a screen for video. */
  function FormatLabel(f: Format, language: Language): (s: string)
    ensures |s| > 0
    ensures s[0] == (if f == AudioOnly then '🔊' else '📺')
  {
    match (f, language)
    case (FullHD, English) => "📺 High quality"
    case (FullHD, Russian) => "📺 Высокое качество"
    case (HD, English) => "📺 Normal quality"
    case (HD, Russian) => "📺 Среднее качество"
    case (LowRes, English) => "📺 Low quality"
    case (LowRes, Russian) => "📺 Низкое качество"
    case (AudioOnly, English) => "🔊 Audio-only"
    case (AudioOnly, Russian) => "🔊 Только звук"
  }

  /** Within one language the four buttons carry four different labels. */
  lemma FormatLabelsDistinct(a: Format, b: Format, language: Language)
    requires a != b
    ensures FormatLabel(a, language) != FormatLabel(b, language)
  {
    var sa, sb := FormatLabel(a, language), FormatLabel(b, language);
    assert |sa| != |sb| || sa[2] != sb[2];
  }
}
