/**
 * The download formats a user can pick and what each one means for the
 * download engine (src/ytdlp.rs): quality selection, the output file name,
 * the keyboard layout and the kind of media delivered.
 */
module Formats {
  import opened Wrappers
  import opened External

  datatype Format = FullHD | HD | LowRes | AudioOnly

  /** The engine's video quality selector; only the custom-height form is used. */
  datatype VideoQuality = Best | CustomHeight(height: nat)

  /** The engine's audio quality selector. */
  datatype AudioQuality = BestAudio | High | Medium | Low | WorstAudio

  datatype AudioCodec = MP3 | AAC | Opus

  datatype VideoCodec = AVC1 | VP9 | AV1

  /** `From<Format> for VideoQuality`. */
  function VideoQualityOf(f: Format): (q: VideoQuality)
    ensures q.CustomHeight?
    ensures q.height == 1080 <==> f == FullHD
    ensures q.height == 480 <==> f == LowRes
    ensures q.height == 720 <==> f == HD || f == AudioOnly
  {
    var height := match f
      case FullHD => 1080
      case HD | AudioOnly => 720
      case LowRes => 480;
    CustomHeight(height)
  }

  /** `From<Format> for AudioQuality`: the best audio is always picked. */
  function AudioQualityOf(f: Format): (q: AudioQuality)
    ensures q == BestAudio
  {
    BestAudio
  }

  /** `Format::buttons`: the keyboard layout, one format per row. */
  function Buttons(): (rows: seq<seq<Format>>)
    ensures |rows| == 4
    ensures forall i | 0 <= i < |rows| :: |rows[i]| == 1
  {
    [[FullHD], [HD], [LowRes], [AudioOnly]]
  }

  /** The format of each single-button row, top to bottom. */
  function Column(rows: seq<seq<Format>>): (c: seq<Format>)
    requires forall i | 0 <= i < |rows| :: |rows[i]| == 1
    ensures |c| == |rows|
  {
    seq(|rows|, i requires 0 <= i < |rows| => rows[i][0])
  }

  /**
   * The rows offer every format exactly once: the three video formats from
   * the highest to the lowest resolution, then audio only.
   */
  lemma ButtonsLayout()
    ensures forall f: Format :: f in Column(Buttons())
    ensures forall i, j | 0 <= i < j < 4 :: Column(Buttons())[i] != Column(Buttons())[j]
    ensures forall i, j | 0 <= i < j < 3 ::
      VideoQualityOf(Column(Buttons())[i]).height > VideoQualityOf(Column(Buttons())[j]).height
    ensures Column(Buttons())[3] == AudioOnly
  {
    var c := Column(Buttons());
    assert c == [FullHD, HD, LowRes, AudioOnly];
    forall f: Format ensures f in c {
      match f
      case FullHD => assert c[0] == f;
      case HD => assert c[1] == f;
      case LowRes => assert c[2] == f;
      case AudioOnly => assert c[3] == f;
    }
  }

  predicate IsAudioOnly(f: Format)
  {
    f == AudioOnly
  }

  /** The file the engine writes: the video id with `mp3` for audio only, `mp4` otherwise. */
  function OutputName(videoId: string, f: Format): (name: string)
    ensures f == AudioOnly ==> name == videoId + ".mp3"
    ensures f != AudioOnly ==> name == videoId + ".mp4"
  {
    var extension := if IsAudioOnly(f) then "mp3" else "mp4";
    videoId + "." + extension
  }

  /** What the engine reports about a URL before downloading. */
  datatype VideoInfo = VideoInfo(id: string, title: string)

  /** A finished download: the media title and the local file. */
  datatype DownloadedMedia = DownloadedMedia(title: string, path: string)

  /** The engine call `download` makes: an audio-format download or a quality-selected video download. */
  datatype Job =
    | AudioJob(output: string, audio: AudioQuality, audioCodec: AudioCodec)
    | VideoJob(url: Url, output: string, video: VideoQuality, videoCodec: VideoCodec, audio: AudioQuality, audioCodec: AudioCodec)

  /**
   * The external engine: `fetch` resolves a URL to its metadata, `run` carries
   * out a job (format selection included) and yields the written file. Either
   * may fail, which collapses to no result.
   */
  datatype Engine = Engine(fetch: Url -> Option<VideoInfo>, run: (VideoInfo, Job) -> Option<string>)

  /** The job `download` hands to the engine for a format. */
  function JobFor(url: Url, info: VideoInfo, f: Format): (job: Job)
    ensures job.AudioJob? <==> f == AudioOnly
    ensures job.output == OutputName(info.id, f)
    ensures job.audio == BestAudio && job.audioCodec == MP3
    ensures job.VideoJob? ==> job.url == url && job.video == VideoQualityOf(f) && job.videoCodec == AVC1
  {
    var output := OutputName(info.id, f);
    if IsAudioOnly(f) then AudioJob(output, AudioQualityOf(f), MP3)
    else VideoJob(url, output, VideoQualityOf(f), AVC1, AudioQualityOf(f), MP3)
  }

  /** `Downloader::download`: fetch the metadata, run the job, report title and file. */
  function Download(engine: Engine, url: Url, f: Format): (r: Option<DownloadedMedia>)
    ensures r.Some? <==>
      engine.fetch(url).Some? && engine.run(engine.fetch(url).value, JobFor(url, engine.fetch(url).value, f)).Some?
    ensures r.Some? ==>
      r.value.title == engine.fetch(url).value.title &&
      r.value.path == engine.run(engine.fetch(url).value, JobFor(url, engine.fetch(url).value, f)).value
  {
    match engine.fetch(url)
    case None => None
    case Some(info) =>
      match engine.run(info, JobFor(url, info, f))
      case None => None
      case Some(path) => Some(DownloadedMedia(info.title, path))
  }

  /** The attachment that replaces the status message. */
  datatype InputMedia = Video(file: string) | Audio(file: string, title: string)

  /** `InputMedia::from_format`: audio (titled) for audio only, video for the rest. */
  function FromFormat(f: Format, media: DownloadedMedia): (m: InputMedia)
    ensures m.Audio? <==> f == AudioOnly
    ensures m.file == media.path
    ensures m.Audio? ==> m.title == media.title
  {
    match f
    case FullHD | HD | LowRes => Video(media.path)
    case AudioOnly => Audio(media.path, media.title)
  }
}
