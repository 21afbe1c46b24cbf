/** The task record of the download service, the checks a submitted task must pass,
    and the response fields of a status query (server/router/task.go). */
module Tasks {
  import opened Common
  import opened Text
  import SeasonTitle

  /** The lifecycle states a task record can be in. */
  datatype Status = Waiting | Downloading | Done | Error

  function StatusName(s: Status): (name: string)
    ensures |name| > 0
  {
    match s
    case Waiting => "waiting"
    case Downloading => "downloading"
    case Done => "done"
    case Error => "error"
  }

  /** The status names are distinct, so a stored name determines the state. */
  lemma StatusNamesDistinct(a: Status, b: Status)
    requires StatusName(a) == StatusName(b)
    ensures a == b
  {
  }

  /** What describes a download: content reference, media descriptors and streams. */
  datatype TaskInfo = TaskInfo(
    bvid: string, cid: int, format: int,
    title: string, owner: string, cover: string, duration: int,
    audio: string, video: string)

  /** A stored task: its description, destination folder and lifecycle state. */
  datatype Task = Task(info: TaskInfo, folder: string, status: Status)

  /** One element of a batch submission: a task description and an optional season name. */
  datatype Item = Item(info: TaskInfo, seasonTitle: string)

  /** Helpers of the service whose code is not part of this model, as uninterpreted
      functions: `util.CheckBvidFormat`, `util.IsValidURL`, `util.IsValidFormatCode`,
      `util.FilterFileName`, `filepath.Join` and `Task.FilePath`. */
  datatype Util = Util(
    checkBvidFormat: string -> bool,
    isValidURL: string -> bool,
    isValidFormatCode: int -> bool,
    filterFileName: string -> string,
    join: (string, string) -> string,
    filePath: Task -> string)

  /** Values in a response's data object. */
  datatype Json = JInt(n: int) | JStr(s: string)

  /** One response envelope written to the client. */
  datatype Reply = Reply(success: bool, message: string, data: map<string, Json>)

  function Failure(message: string): Reply
  {
    Reply(false, message, map[])
  }

  const BvidMessage := "bvid 格式错误"
  const CoverMessage := "封面链接格式错误"
  const AudioMessage := "音频链接格式错误"
  const VideoMessage := "视频链接格式错误"
  const FormatMessage := "清晰度代码错误"
  const ParamMessage := "参数错误"

  /** A check: whether it passed, and the message reported when it did not. */
  datatype Check = Check(passed: bool, message: string)

  /** The message of the first check that did not pass, if any. */
  function FirstFailing(checks: seq<Check>): (r: Option<string>)
    ensures r.None? <==> forall k :: 0 <= k < |checks| ==> checks[k].passed
    ensures r.Some? ==> exists k :: 0 <= k < |checks| && !checks[k].passed
                                    && checks[k].message == r.value
                                    && forall j :: 0 <= j < k ==> checks[j].passed
  {
    if checks == [] then None
    else if !checks[0].passed then Some(checks[0].message)
    else
      var r := FirstFailing(checks[1..]);
      assert forall k :: 1 <= k < |checks| ==> checks[k] == checks[1..][k - 1];
      r
  }

  /** The checks a batch item must pass, in the order they are made. */
  function ItemChecks(info: TaskInfo, u: Util): seq<Check>
  {
    [ Check(u.checkBvidFormat(info.bvid), BvidMessage),
      Check(u.isValidURL(info.cover), CoverMessage),
      Check(u.isValidURL(info.audio), AudioMessage),
      Check(u.isValidURL(info.video), VideoMessage),
      Check(u.isValidFormatCode(info.format), FormatMessage) ]
  }

  /** The message of the first failing check of a batch item, in the order bvid,
      cover, audio, video, format; `None` when the item passes all five. */
  function Validate(info: TaskInfo, u: Util): (r: Option<string>)
    ensures r.None? <==>
      u.checkBvidFormat(info.bvid) && u.isValidURL(info.cover) && u.isValidURL(info.audio)
      && u.isValidURL(info.video) && u.isValidFormatCode(info.format)
  {
    if !u.checkBvidFormat(info.bvid) then Some(BvidMessage)
    else if !u.isValidURL(info.cover) then Some(CoverMessage)
    else if !u.isValidURL(info.audio) then Some(AudioMessage)
    else if !u.isValidURL(info.video) then Some(VideoMessage)
    else if !u.isValidFormatCode(info.format) then Some(FormatMessage)
    else None
  }

  /** Item validation is the first-failing-check rule applied to the five checks in
      order: the reported message is that of the earliest check that fails. */
  lemma ValidateIsFirstFailing(info: TaskInfo, u: Util)
    ensures Validate(info, u) == FirstFailing(ItemChecks(info, u))
  {
    var cs := ItemChecks(info, u);
    assert cs[4..][0] == cs[4] && cs[4..][1..] == [];
    assert cs[3..][0] == cs[3] && cs[3..][1..] == cs[4..];
    assert cs[2..][0] == cs[2] && cs[2..][1..] == cs[3..];
    assert cs[1..][0] == cs[1] && cs[1..][1..] == cs[2..];
  }

  /** The empty cover, title or owner that makes the batch path write a failure reply
      without stopping. */
  predicate MissingFields(info: TaskInfo)
  {
    info.cover == "" || info.title == "" || info.owner == ""
  }

  /** The replies a batch item writes without stopping the request: one failure when
      its bvid passes but a descriptive field is empty. */
  function ParamReplies(info: TaskInfo, u: Util): (r: seq<Reply>)
    ensures r == [] || r == [Failure(ParamMessage)]
    ensures r != [] <==> u.checkBvidFormat(info.bvid) && MissingFields(info)
  {
    if u.checkBvidFormat(info.bvid) && MissingFields(info) then [Failure(ParamMessage)] else []
  }

  /** The season title of a batch: only its first item is consulted, its caller-given
      name first and the bracket heuristic on its title otherwise. */
  function BatchSeasonTitle(items: seq<Item>): (r: string)
    ensures |items| == 0 ==> r == ""
    ensures |items| > 0 && items[0].seasonTitle != "" ==> r == items[0].seasonTitle
    ensures |items| > 0 && items[0].seasonTitle == "" ==> r == SeasonTitle.InferSeasonTitle("", items[0].info.title)
  {
    if |items| == 0 then "" else SeasonTitle.InferSeasonTitle(items[0].seasonTitle, items[0].info.title)
  }

  /** Appending items to a non-empty batch, or changing anything but its first item,
      leaves the season title as it was. */
  lemma BatchSeasonTitleFirstOnly(items: seq<Item>, others: seq<Item>)
    requires |items| > 0 && |others| > 0 && items[0] == others[0]
    ensures BatchSeasonTitle(items) == BatchSeasonTitle(others)
  {
  }

  /** The sub-folder of `base` named after the sanitized season title. */
  function SeriesFolder(base: string, seasonTitle: string, u: Util): string
  {
    u.join(base, u.filterFileName(seasonTitle))
  }

  /** The folder a batch goes to: the base folder, or the season's sub-folder when the
      batch has a season title. */
  function DestinationFolder(base: string, seasonTitle: string, u: Util): string
  {
    if seasonTitle == "" then base else SeriesFolder(base, seasonTitle, u)
  }

  /** The record stored for a task description: sanitized title, given folder, waiting. */
  function Persisted(info: TaskInfo, folder: string, u: Util): Task
  {
    Task(info.(title := u.filterFileName(info.title)), folder, Waiting)
  }

  const DownloadPath := "/api/downloadVideo?task_id="

  /** The data object of a status response for task `id`. */
  function StatusData(id: int, t: Task): (d: map<string, Json>)
    ensures "task_id" in d && d["task_id"] == JInt(id)
    ensures "status" in d && d["status"] == JStr(StatusName(t.status))
    ensures "title" in d && d["title"] == JStr(t.info.title)
    ensures "download_url" in d <==> t.status == Done
    ensures "error" in d <==> t.status == Error
    ensures "download_url" in d ==> d["download_url"] == JStr(DownloadPath + FormatInt(id))
    ensures "error" in d ==> d["error"] == JStr("下载失败")
    ensures d.Keys <= {"task_id", "status", "title", "download_url", "error"}
  {
    var base := map["task_id" := JInt(id), "status" := JStr(StatusName(t.status)), "title" := JStr(t.info.title)];
    var withUrl := if t.status == Done then base["download_url" := JStr(DownloadPath + FormatInt(id))] else base;
    if t.status == Error then withUrl["error" := JStr("下载失败")] else withUrl
  }

  /** The download link of a finished task names that task: the number after the
      query prefix reads back as its id. */
  lemma DownloadUrlNamesTask(id: nat, t: Task)
    requires t.status == Done
    ensures var url := StatusData(id, t)["download_url"].s;
      IsPrefix(DownloadPath, url) && AllIn(url[|DownloadPath|..], Digit)
      && DecimalValue(url[|DownloadPath|..]) == id
  {
    var url := StatusData(id, t)["download_url"].s;
    assert url[|DownloadPath|..] == DecimalString(id);
    DecimalRoundTrip(id);
  }
}
