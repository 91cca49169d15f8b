/**
 * The user registry (src/db.rs, and its twin src/config.rs): one record per
 * allowed user with an alias, download counters and the single pending URL
 * of that user's session, plus the snapshot written to and read from disk.
 */
module Registry {
  import opened Wrappers
  import opened External
  import opened Text
  import opened Decimal

  datatype Downloads = Downloads(videos: nat, audios: nat)

  /** A user's record; `url` is the pending link awaiting a format choice and is never saved. */
  datatype UserData = UserData(alias: string, downloads: Downloads, url: Option<Url>)

  /** The derived `Default` of the record. */
  function DefaultUserData(): (u: UserData)
    ensures u.alias == [] && u.url.None?
    ensures u.downloads.videos == 0 && u.downloads.audios == 0
  {
    UserData("", Downloads(0, 0), None)
  }

  /** `UserData::aliased`: a fresh record, the default with the given alias. */
  function Aliased(alias: string): (u: UserData)
    ensures u.alias == alias
    ensures u.downloads.videos == 0 && u.downloads.audios == 0
    ensures u.url.None?
  {
    DefaultUserData().(alias := alias)
  }

  const VideoMark: string := "(📺: "
  const AudioMark: string := ") (🔊: "

  /** `Display for Downloads`: "(📺: videos) (🔊: audios)". */
  function DownloadsText(d: Downloads): (s: string)
    ensures StartsWith(s, VideoMark) && s[|s| - 1] == ')'
  {
    VideoMark + (ShowNat(d.videos) + (AudioMark + (ShowNat(d.audios) + ")")))
  }

  /**
   * The rendering reads back: the digits after the screen mark are the
   * number of videos, and the digits after the speaker mark the number of audios.
   */
  lemma DownloadsTextFields(d: Downloads)
    ensures exists v: string, a: string | AllDigits(v) && AllDigits(a) ::
      && DownloadsText(d) == VideoMark + (v + (AudioMark + (a + ")")))
      && DigitsValue(v) == d.videos && DigitsValue(a) == d.audios
  {
    var v, a := ShowNat(d.videos), ShowNat(d.audios);
    ShowNatValue(d.videos);
    ShowNatValue(d.audios);
    assert DownloadsText(d) == VideoMark + (v + (AudioMark + (a + ")")));
  }

  /** Two different counter pairs never render the same: the text determines both counters. */
  lemma {:induction false} DownloadsTextInjective(d: Downloads, e: Downloads)
    requires DownloadsText(d) == DownloadsText(e)
    ensures d == e
  {
    var dv, ev := ShowNat(d.videos), ShowNat(e.videos);
    var da, ea := ShowNat(d.audios), ShowNat(e.audios);
    var dRest, eRest := AudioMark + (da + ")"), AudioMark + (ea + ")");
    assert dv + dRest == DownloadsText(d)[|VideoMark|..];
    assert ev + eRest == DownloadsText(e)[|VideoMark|..];
    NoMarkInDigits(dv, ')');
    NoMarkInDigits(ev, ')');
    SplitBefore(dv, dRest, ev, eRest, ')');
    ShowNatInjective(d.videos, e.videos);
    assert da + ")" == dRest[|AudioMark|..] && ea + ")" == eRest[|AudioMark|..];
    NoMarkInDigits(da, ')');
    NoMarkInDigits(ea, ')');
    SplitBefore(da, ")", ea, ")", ')');
    ShowNatInjective(d.audios, e.audios);
  }

  lemma NoMarkInDigits(s: string, c: char)
    requires AllDigits(s) && !IsDigit(c)
    ensures c !in s
  {
    forall i | 0 <= i < |s| ensures s[i] != c {
      assert IsDigit(s[i]);
    }
  }

  /** What the snapshot keeps of a record: everything but the pending URL. */
  datatype StoredUser = StoredUser(alias: string, downloads: Downloads)

  /** The persisted registry, id -> stored record. */
  type Snapshot = map<UserId, StoredUser>

  /** Serialising the registry: the pending URLs are skipped. */
  function Encode(users: map<UserId, UserData>): (s: Snapshot)
    ensures s.Keys == users.Keys
    ensures forall id | id in s :: s[id].alias == users[id].alias && s[id].downloads == users[id].downloads
  {
    map id | id in users :: StoredUser(users[id].alias, users[id].downloads)
  }

  /** Deserialising a snapshot: every user starts without a pending URL. */
  function Decode(s: Snapshot): (users: map<UserId, UserData>)
    ensures users.Keys == s.Keys
    ensures forall id | id in users :: users[id] == UserData(s[id].alias, s[id].downloads, None)
  {
    map id | id in s :: UserData(s[id].alias, s[id].downloads, None)
  }

  /** `load_or_init`: the saved snapshot if there is a file, otherwise no users. */
  function Load(file: Option<Snapshot>): (users: map<UserId, UserData>)
    ensures file.None? ==> users == map[]
    ensures file.Some? ==> users.Keys == file.value.Keys
    ensures forall id | id in users :: users[id].url.None?
  {
    match file
    case None => map[]
    case Some(s) => Decode(s)
  }

  /** The registry with every pending URL dropped. */
  function WithoutSessions(users: map<UserId, UserData>): (r: map<UserId, UserData>)
    ensures r.Keys == users.Keys
    ensures forall id | id in r :: r[id] == users[id].(url := None)
  {
    map id | id in users :: users[id].(url := None)
  }

  /**
   * Saving and loading again gives back the same ids, aliases and counters,
   * with no pending URL left; saving the reloaded registry writes the same snapshot.
   */
  lemma SnapshotRoundTrip(users: map<UserId, UserData>)
    ensures Load(Some(Encode(users))) == WithoutSessions(users)
    ensures Encode(Load(Some(Encode(users)))) == Encode(users)
  {
  }

  /** The file the registry is saved in; `None` while no file exists. */
  class SnapshotFile {
    var saved: Option<Snapshot>

    constructor (saved: Option<Snapshot>)
      ensures this.saved == saved
    {
      this.saved := saved;
    }
  }

  /** The shared registry object every handler receives. */
  class Db {
    var users: map<UserId, UserData>

    /** `load_or_init`. */
    constructor LoadOrInit(file: SnapshotFile)
      ensures users == Load(file.saved)
    {
      users := Load(file.saved);
    }

    /**
     * `save`: when the file can be created it receives the snapshot of the
     * registry, otherwise the failure is only logged; the registry itself is
     * never changed.
     */
    method Save(file: SnapshotFile, created: bool)
      modifies file
      ensures file.saved == if created then Some(Encode(users)) else old(file.saved)
      ensures users == old(users)
    {
      if created {
        file.saved := Some(Encode(users));
      }
    }
  }
}
