/** The decisions of `downloadVideoByURL` (server/router/task.go) up to the point where
    the download folder is read: which link was given, which remote lookups follow,
    which episode and format are chosen, and which message ends the request early. */
module UrlSubmit {
  import opened Common
  import opened Text
  import opened Links
  import opened Tasks

  /** The remote's stream description; only the stream helpers look inside it. */
  type PlayInfo

  datatype Page = Page(cid: int, duration: int)

  /** What the video lookup returns that the request uses. */
  datatype VideoInfo = VideoInfo(bvid: string, title: string, ownerName: string, pic: string, pages: seq<Page>)

  datatype SeasonEpisode = SeasonEpisode(bvid: string, cid: int, longTitle: string, cover: string, duration: int)

  /** What the season lookup returns that the request uses: its episodes in order. */
  datatype SeasonInfo = SeasonInfo(title: string, episodes: seq<SeasonEpisode>)

  /** The remote content service and the stream helpers, as uninterpreted functions:
      the stored session, the redirect lookup, the video, season and play-info lookups,
      and `task.GetVideoURL` / `task.GetAudioURL`. */
  datatype Remote = Remote(
    sessdata: Outcome<string>,
    redirect: string -> Outcome<string>,
    videoInfo: string -> Outcome<VideoInfo>,
    seasonInfo: (int, int) -> Outcome<SeasonInfo>,
    playInfo: (string, int) -> Outcome<PlayInfo>,
    videoURL: (PlayInfo, int) -> Outcome<string>,
    audioURL: PlayInfo -> string)

  /** Why a request ends before a task is created: a message to the client, or an index
      out of range (a video whose page list is empty), which aborts the handler. */
  datatype Refusal = Refused(message: string) | IndexOutOfRange

  /** The task to create and whether it belongs in a season sub-folder. */
  datatype Plan = Plan(info: TaskInfo, series: bool, seasonTitle: string)

  const DefaultFormat := 80
  const SeriesOwner := "番剧"

  /** The format used: the requested one when it is non-zero and valid, else 1080P (80). */
  function EffectiveFormat(requested: int, u: Util): (f: int)
    ensures f == requested || f == DefaultFormat
    ensures f == requested <==> (requested != 0 && u.isValidFormatCode(requested)) || requested == DefaultFormat
  {
    if requested == 0 || !u.isValidFormatCode(requested) then DefaultFormat else requested
  }

  /** Choosing the format a second time changes nothing. */
  lemma EffectiveFormatIdempotent(requested: int, u: Util)
    ensures EffectiveFormat(EffectiveFormat(requested, u), u) == EffectiveFormat(requested, u)
  {
  }

  /** The (epid, ssid) pair passed to the season lookup for a season or episode id. */
  function SeriesQuery(id: string, kind: LinkType): (q: (int, int))
    requires kind in {Season, Episode} && AllIn(id, Digit)
    ensures kind == Season ==> q.0 == 0
    ensures kind == Episode ==> q.1 == 0
    ensures q.0 + q.1 == Atoi(id)
  {
    if kind == Season then (0, Atoi(id)) else (Atoi(id), 0)
  }

  /** The video description built from a season's episode. */
  function EpisodeVideo(ep: SeasonEpisode): VideoInfo
  {
    VideoInfo(ep.bvid, ep.longTitle, SeriesOwner, ep.cover, [Page(ep.cid, ep.duration)])
  }

  /** The playable unit and its streams for an identifier of the given link type, with
      the season title (empty for a plain video). */
  function ResolveMedia(id: string, kind: LinkType, remote: Remote)
    : (r: Result<(VideoInfo, PlayInfo, string), Refusal>)
    requires kind != Short
    requires kind in {Season, Episode} ==> AllIn(id, Digit)
    ensures r.Ok? ==> |r.value.0.pages| > 0
    ensures kind in {Season, Episode} ==>
      var q := SeriesQuery(id, kind);
      match remote.seasonInfo(q.0, q.1)
      case Failed(c) => r == Err(Refused("获取番剧信息失败: " + c))
      case Got(season) =>
        if season.episodes == [] then r == Err(Refused("番剧信息不完整"))
        else
          var ep := season.episodes[0];
          match remote.playInfo(ep.bvid, ep.cid)
          case Failed(c) => r == Err(Refused("获取分集播放信息失败: " + c))
          case Got(play) => r == Ok((EpisodeVideo(ep), play, season.title))
    ensures kind == Video ==> r.Ok? ==> r.value.2 == "" && remote.videoInfo(id) == Got(r.value.0)
    ensures kind == Video ==> match remote.videoInfo(id)
      case Failed(c) => r == Err(Refused("获取视频信息失败: " + c))
      case Got(video) =>
        if video.pages == [] then r == Err(IndexOutOfRange)
        else match remote.playInfo(video.bvid, video.pages[0].cid)
          case Failed(c) => r == Err(Refused("获取播放信息失败: " + c))
          case Got(play) => r == Ok((video, play, ""))
  {
    if kind in {Season, Episode} then
      var q := SeriesQuery(id, kind);
      match remote.seasonInfo(q.0, q.1)
      case Failed(c) => Err(Refused("获取番剧信息失败: " + c))
      case Got(season) =>
        if |season.episodes| > 0 then
          var ep := season.episodes[0];
          match remote.playInfo(ep.bvid, ep.cid)
          case Failed(c) => Err(Refused("获取分集播放信息失败: " + c))
          case Got(play) => Ok((EpisodeVideo(ep), play, season.title))
        else Err(Refused("番剧信息不完整"))
    else
      match remote.videoInfo(id)
      case Failed(c) => Err(Refused("获取视频信息失败: " + c))
      case Got(video) =>
        if |video.pages| == 0 then Err(IndexOutOfRange)
        else
          match remote.playInfo(video.bvid, video.pages[0].cid)
          case Failed(c) => Err(Refused("获取播放信息失败: " + c))
          case Got(play) => Ok((video, play, ""))
  }

  /** Everything `downloadVideoByURL` decides before it reads the download folder. */
  function Resolve(url: string, format: int, remote: Remote, u: Util, hops: nat)
    : (r: Result<Plan, Refusal>)
    ensures url == "" ==> r == Err(Refused("URL不能为空"))
    ensures url != "" && (remote.sessdata.Failed? || remote.sessdata.value == "")
            ==> r == Err(Refused("请先登录"))
    ensures url != "" && remote.sessdata.Got? && remote.sessdata.value != "" && Extract(url, remote.redirect, hops).Err?
            ==> r == Err(Refused("无法解析视频链接: " + ErrorText(Extract(url, remote.redirect, hops).error)))
    ensures r.Ok? ==> Extract(url, remote.redirect, hops).Ok?
    ensures r.Ok? ==> var (id, kind) := Extract(url, remote.redirect, hops).value;
      r.value.series == (kind in {Season, Episode})
      && r.value.info.format == EffectiveFormat(format, u)
      && (r.value.series ==> r.value.info.owner == SeriesOwner)
      && (!r.value.series ==> r.value.seasonTitle == "")
  {
    if url == "" then Err(Refused("URL不能为空"))
    else if remote.sessdata.Failed? || remote.sessdata.value == "" then Err(Refused("请先登录"))
    else
      match Extract(url, remote.redirect, hops)
      case Err(e) => Err(Refused("无法解析视频链接: " + ErrorText(e)))
      case Ok((id, kind)) =>
        match ResolveMedia(id, kind, remote)
        case Err(e) => Err(e)
        case Ok((video, play, seasonTitle)) =>
          var f := EffectiveFormat(format, u);
          match remote.videoURL(play, f)
          case Failed(c) => Err(Refused("获取视频链接失败: " + c))
          case Got(videoUrl) =>
            Ok(PlanFor(video, f, remote.audioURL(play), videoUrl, kind in {Season, Episode}, seasonTitle))
  }

  /** The plan built from a resolved video, page 0 and the two streams. */
  function PlanFor(video: VideoInfo, format: int, audio: string, videoUrl: string, series: bool, seasonTitle: string): Plan
    requires |video.pages| > 0
  {
    Plan(TaskInfo(video.bvid, video.pages[0].cid, format, video.title, video.ownerName, video.pic,
                  video.pages[0].duration, audio, videoUrl), series, seasonTitle)
  }

  /** A plain video link is resolved through the video lookup: a failed lookup is refused,
      a video without pages aborts, a failed play-info or stream lookup is refused, and
      otherwise the planned task is page 0 of the looked-up video with the effective
      format, its two streams, no season title and no season folder. */
  lemma VideoLinkUsesFirstPage(url: string, format: int, remote: Remote, u: Util, hops: nat)
    requires url != "" && remote.sessdata.Got? && remote.sessdata.value != ""
    requires Extract(url, remote.redirect, hops).Ok?
    requires Extract(url, remote.redirect, hops).value.1 == Video
    ensures var id := Extract(url, remote.redirect, hops).value.0;
      var r := Resolve(url, format, remote, u, hops);
      var f := EffectiveFormat(format, u);
      match remote.videoInfo(id)
      case Failed(c) => r == Err(Refused("获取视频信息失败: " + c))
      case Got(video) =>
        if video.pages == [] then r == Err(IndexOutOfRange)
        else
          match remote.playInfo(video.bvid, video.pages[0].cid)
          case Failed(c) => r == Err(Refused("获取播放信息失败: " + c))
          case Got(play) =>
            match remote.videoURL(play, f)
            case Failed(c) => r == Err(Refused("获取视频链接失败: " + c))
            case Got(v) => r == Ok(PlanFor(video, f, remote.audioURL(play), v, false, ""))
  {
  }

  /** A season or episode link is resolved through the season lookup: exactly one of the
      two ids is set, an empty season is refused, and otherwise the first episode is
      the one downloaded, under the season's title and the series owner name. */
  lemma {:induction false} SeriesLinkUsesFirstEpisode(url: string, format: int, remote: Remote, u: Util, hops: nat)
    requires url != "" && remote.sessdata.Got? && remote.sessdata.value != ""
    requires Extract(url, remote.redirect, hops).Ok?
    requires Extract(url, remote.redirect, hops).value.1 in {Season, Episode}
    ensures var (id, kind) := Extract(url, remote.redirect, hops).value;
      AllIn(id, Digit)
      && var q := SeriesQuery(id, kind);
      (kind == Season ==> q == (0, Atoi(id)))
      && (kind == Episode ==> q == (Atoi(id), 0))
      && match remote.seasonInfo(q.0, q.1)
         case Failed(c) => Resolve(url, format, remote, u, hops) == Err(Refused("获取番剧信息失败: " + c))
         case Got(season) =>
           if season.episodes == [] then Resolve(url, format, remote, u, hops) == Err(Refused("番剧信息不完整"))
           else
             var ep := season.episodes[0];
             var r := Resolve(url, format, remote, u, hops);
             var f := EffectiveFormat(format, u);
             match remote.playInfo(ep.bvid, ep.cid)
             case Failed(c) => r == Err(Refused("获取分集播放信息失败: " + c))
             case Got(play) =>
               match remote.videoURL(play, f)
               case Failed(c) => r == Err(Refused("获取视频链接失败: " + c))
               case Got(v) =>
                 r == Ok(PlanFor(EpisodeVideo(ep), f, remote.audioURL(play), v, true, season.title))
                 && r.value.info.bvid == ep.bvid && r.value.info.cid == ep.cid
                 && r.value.info.title == ep.longTitle && r.value.info.cover == ep.cover
                 && r.value.info.duration == ep.duration && r.value.info.owner == SeriesOwner
  {
  }
}
