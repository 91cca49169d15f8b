/**
 * The download request a format button carries (src/ytdlp.rs): which prompt
 * it belongs to, the chosen format and the interface language, serialised
 * as a small JSON object into the button's callback payload.
 */
module Requests {
  import opened Wrappers
  import opened External
  import opened Text
  import opened Decimal
  import opened Formats
  import opened Strings

  /** The id is that of the prompt message the buttons are attached to. */
  datatype DownloadRequest = DownloadRequest(id: MessageId, format: Format, language: Language)

  function FormatName(f: Format): string
  {
    match f
    case FullHD => "FullHD"
    case HD => "HD"
    case LowRes => "LowRes"
    case AudioOnly => "AudioOnly"
  }

  function FormatFromName(name: string): (r: Option<Format>)
    ensures r.Some? ==> FormatName(r.value) == name
  {
    if name == "FullHD" then Some(FullHD)
    else if name == "HD" then Some(HD)
    else if name == "LowRes" then Some(LowRes)
    else if name == "AudioOnly" then Some(AudioOnly)
    else None
  }

  function LanguageName(l: Language): string
  {
    match l
    case English => "English"
    case Russian => "Russian"
  }

  function LanguageFromName(name: string): (r: Option<Language>)
    ensures r.Some? ==> LanguageName(r.value) == name
  {
    if name == "English" then Some(English)
    else if name == "Russian" then Some(Russian)
    else None
  }

  lemma NamesRoundTrip(f: Format, l: Language)
    ensures FormatFromName(FormatName(f)) == Some(f)
    ensures LanguageFromName(LanguageName(l)) == Some(l)
    ensures '"' !in FormatName(f) && '"' !in LanguageName(l)
  {
  }

  const IdField: string := "{\"id\":"
  const FormatField: string := ",\"format\":\""
  const LanguageField: string := "\",\"language\":\""
  const Closing: string := "\"}"

  /** The canonical payload of a request, with the message id written as a plain integer. */
  function EncodeRequest(r: DownloadRequest): string
  {
    IdField + (ShowInt(r.id) + (FormatField + (FormatName(r.format) + (LanguageField + (LanguageName(r.language) + Closing)))))
  }

  /** `p + x` starts with `p`, and what follows is `x`. */
  lemma PrefixSplit(p: string, x: string)
    ensures StartsWith(p + x, p) && (p + x)[|p|..] == x
  {
    assert (p + x)[..|p|] == p;
  }

  /** Reads a payload back; anything that is not exactly an encoded request yields `None`. */
  function DecodeRequest(s: string): (r: Option<DownloadRequest>)
    ensures r.Some? ==> s == EncodeRequest(r.value)
  {
    if StartsWith(s, IdField) then
      assert s == IdField + s[|IdField|..];
      DecodeId(s[|IdField|..])
    else None
  }

  /** The id, up to the first comma, then the rest of the object. */
  function DecodeId(a: string): (r: Option<DownloadRequest>)
    ensures r.Some? ==>
      a == ShowInt(r.value.id) + (FormatField + (FormatName(r.value.format) + (LanguageField + (LanguageName(r.value.language) + Closing))))
  {
    var k := Find(a, ',');
    match ParseCanonicalInt(a[..k])
    case None => None
    case Some(id) =>
      if -0x8000_0000 <= id < 0x8000_0000 then
        ParseCanonicalIntExact(a[..k]);
        assert a == a[..k] + a[k..];
        DecodeFormat(id, a[k..])
      else None
  }

  function DecodeFormat(id: MessageId, b: string): (r: Option<DownloadRequest>)
    ensures r.Some? ==> r.value.id == id
    ensures r.Some? ==> b == FormatField + (FormatName(r.value.format) + (LanguageField + (LanguageName(r.value.language) + Closing)))
  {
    if StartsWith(b, FormatField) then
      assert b == FormatField + b[|FormatField|..];
      DecodeFormatName(id, b[|FormatField|..])
    else None
  }

  function DecodeFormatName(id: MessageId, c: string): (r: Option<DownloadRequest>)
    ensures r.Some? ==> r.value.id == id
    ensures r.Some? ==> c == FormatName(r.value.format) + (LanguageField + (LanguageName(r.value.language) + Closing))
  {
    var j := Find(c, '"');
    match FormatFromName(c[..j])
    case None => None
    case Some(f) =>
      assert c == c[..j] + c[j..];
      DecodeLanguage(id, f, c[j..])
  }

  function DecodeLanguage(id: MessageId, f: Format, d: string): (r: Option<DownloadRequest>)
    ensures r.Some? ==> r.value.id == id && r.value.format == f
    ensures r.Some? ==> d == LanguageField + (LanguageName(r.value.language) + Closing)
  {
    if StartsWith(d, LanguageField) then
      assert d == LanguageField + d[|LanguageField|..];
      DecodeLanguageName(id, f, d[|LanguageField|..])
    else None
  }

  function DecodeLanguageName(id: MessageId, f: Format, e: string): (r: Option<DownloadRequest>)
    ensures r.Some? ==> r.value.id == id && r.value.format == f
    ensures r.Some? ==> e == LanguageName(r.value.language) + Closing
  {
    var m := Find(e, '"');
    match LanguageFromName(e[..m])
    case None => None
    case Some(l) =>
      if e[m..] == Closing then
        assert e == e[..m] + e[m..];
        Some(DownloadRequest(id, f, l))
      else None
  }

  /** Every request survives the trip through a button payload. */
  lemma {:induction false} DecodeEncode(r: DownloadRequest)
    ensures DecodeRequest(EncodeRequest(r)) == Some(r)
  {
    var num, fname, lname := ShowInt(r.id), FormatName(r.format), LanguageName(r.language);
    NamesRoundTrip(r.format, r.language);
    var e := lname + Closing;
    FindAfter(lname, Closing, '"');
    assert DecodeLanguageName(r.id, r.format, e) == Some(r);
    var d := LanguageField + e;
    PrefixSplit(LanguageField, e);
    assert DecodeLanguage(r.id, r.format, d) == Some(r);
    var c := fname + d;
    FindAfter(fname, d, '"');
    assert DecodeFormatName(r.id, c) == Some(r);
    var b := FormatField + c;
    PrefixSplit(FormatField, c);
    assert DecodeFormat(r.id, b) == Some(r);
    var a := num + b;
    FindAfter(num, b, ',');
    ParseShowInt(r.id);
    assert DecodeId(a) == Some(r);
    var s := IdField + a;
    PrefixSplit(IdField, a);
    assert s == EncodeRequest(r);
  }

  /** `From<DownloadRequest> for InlineKeyboardButton`: labelled with the format, carrying the request. */
  function ToButton(r: DownloadRequest): (button: Button)
    ensures button.text == FormatLabel(r.format, r.language)
    ensures DecodeRequest(button.payload) == Some(r)
  {
    DecodeEncode(r);
    Button(FormatLabel(r.format, r.language), EncodeRequest(r))
  }

  /**
   * The keyboard attached to the prompt `id`: the rows of `Buttons()`, each
   * format turned into a button for a request on that prompt.
   */
  function PromptKeyboard(id: MessageId, language: Language): (keyboard: seq<seq<Button>>)
    ensures |keyboard| == |Buttons()|
    ensures forall i | 0 <= i < |keyboard| ::
      |keyboard[i]| == 1 &&
      keyboard[i][0].text == FormatLabel(Column(Buttons())[i], language) &&
      DecodeRequest(keyboard[i][0].payload) == Some(DownloadRequest(id, Column(Buttons())[i], language))
  {
    var rows := Buttons();
    seq(|rows|, i requires 0 <= i < |rows| => [ToButton(DownloadRequest(id, rows[i][0], language))])
  }
}
