/** The task store and the request handlers that change it (server/router/task.go):
    batch creation (`createTask`), creation from a link (`downloadVideoByURL`), deletion
    (`deleteTask`) and the status query (`getTaskStatus`). The database is a map from
    task id to record, the disk a set of file paths and a set of directories, and the
    hand-off to the download worker a list of started ids. */
module Store {
  import opened Common
  import opened Tasks
  import opened UrlSubmit

  /** What the environment makes fail, named by what it hits: directories that cannot be
      created, records the database refuses, existing files that cannot be removed, and
      a database error on reading or deleting a record. */
  datatype Faults = Faults(
    mkdir: map<string, string>,
    insert: map<Task, string>,
    remove: map<string, string>,
    lookup: Option<string>,
    delete: Option<string>)

  const NoRowsText := "sql: no rows in result set"
  const AlreadyGoneMessage := "数据库中没有该条记录，所以本次操作被忽略，可以算作成功。"
  const CreatedMessage := "创建成功"
  const DeletedMessage := "删除成功"

  /** Why one batch item stops the request, in the order the checks are made: a failed
      check, the season folder that cannot be created when `mkdirNeeded`, or the database
      refusing the record. `None` means the item is stored and started. */
  function ItemOutcome(info: TaskInfo, folder: string, mkdirNeeded: bool, u: Util, faults: Faults): Option<string>
  {
    match Validate(info, u)
    case Some(m) => Some(m)
    case None =>
      if mkdirNeeded && folder in faults.mkdir then Some("创建番剧目录失败: " + faults.mkdir[folder])
      else if Persisted(info, folder, u) in faults.insert then
        Some("_task.Create: " + faults.insert[Persisted(info, folder, u)] + ".")
      else None
  }

  /** What one batch item contributes to the response: the replies it writes without
      stopping, and the message that stops the request, if any. */
  datatype Pass = Pass(replies: seq<Reply>, stop: Option<string>)

  function ItemPass(info: TaskInfo, folder: string, mkdirNeeded: bool, u: Util, faults: Faults): Pass
  {
    Pass(ParamReplies(info, u), ItemOutcome(info, folder, mkdirNeeded, u, faults))
  }

  /** The passes of a batch's items, the season folder needing creation (`newDir`) only
      for the first: once an item is stored, the folder exists. */
  function Passes(items: seq<Item>, folder: string, newDir: bool, u: Util, faults: Faults): (ps: seq<Pass>)
    ensures |ps| == |items|
    ensures forall k :: 0 <= k < |items| ==> ps[k] == ItemPass(items[k].info, folder, newDir && k == 0, u, faults)
  {
    seq(|items|, k requires 0 <= k < |items| => ItemPass(items[k].info, folder, newDir && k == 0, u, faults))
  }

  /** The replies written for a sequence of passes: each pass's own replies, then the
      failure that stops the request, or the success reply when none does. */
  function Replies(ps: seq<Pass>): seq<Reply>
  {
    if ps == [] then [Reply(true, CreatedMessage, map[])]
    else
      match ps[0].stop
      case Some(m) => ps[0].replies + [Failure(m)]
      case None => ps[0].replies + Replies(ps[1..])
  }

  /** Every reply `createTask` writes for a batch, in order. */
  function BatchReplies(items: seq<Item>, folder: string, newDir: bool, u: Util, faults: Faults): seq<Reply>
  {
    Replies(Passes(items, folder, newDir, u, faults))
  }

  /** How many passes at the front let their item be stored: the items a batch stores
      before one stops it. */
  function Leading(ps: seq<Pass>): (n: nat)
    ensures n <= |ps|
  {
    if ps == [] || ps[0].stop.Some? then 0 else 1 + Leading(ps[1..])
  }

  /** The task table and the id the next insert receives. */
  datatype Db = Db(records: map<int, Task>, nextId: int)

  /** Ids are handed out from 1 upwards; every stored id is below the next one. */
  predicate Consistent(db: Db)
  {
    1 <= db.nextId && forall id :: id in db.records ==> 1 <= id < db.nextId
  }

  /** The table after `t` is stored under the next id. */
  function WithTask(db: Db, t: Task): (r: Db)
    ensures Consistent(db) ==> Consistent(r) && db.nextId !in db.records
  {
    Db(db.records[db.nextId := t], db.nextId + 1)
  }

  /** The table after the first `n` items of a batch going to `folder` are stored. */
  function Added(db: Db, items: seq<Item>, folder: string, u: Util, n: nat): (r: Db)
    requires n <= |items|
    ensures r.nextId == db.nextId + n
  {
    if n == 0 then db else WithTask(Added(db, items, folder, u, n - 1), Persisted(items[n - 1].info, folder, u))
  }

  /** The ids `first` .. `first + n - 1`, in order. */
  function Ids(first: int, n: nat): (r: seq<int>)
    ensures |r| == n && forall k :: 0 <= k < n ==> r[k] == first + k
  {
    if n == 0 then [] else Ids(first, n - 1) + [first + n - 1]
  }

  /** Taking the pass at `i` off the front of the rest. */
  lemma PassStep(ps: seq<Pass>, i: nat)
    requires i < |ps|
    ensures Replies(ps[i..]) == ps[i].replies + match ps[i].stop
      case Some(m) => [Failure(m)]
      case None => Replies(ps[i + 1..])
    ensures Leading(ps[i..]) == if ps[i].stop.Some? then 0 else 1 + Leading(ps[i + 1..])
  {
    assert ps[i..][0] == ps[i] && ps[i..][1..] == ps[i + 1..];
  }

  /** One item of the loop lets its item through: its replies join those written, and
      it is counted among the leading passes. */
  lemma PassThrough(ps: seq<Pass>, i: nat, written: seq<Reply>)
    requires i < |ps| && ps[i].stop.None?
    requires written + Replies(ps[i..]) == Replies(ps) && Leading(ps) == i + Leading(ps[i..])
    ensures (written + ps[i].replies) + Replies(ps[i + 1..]) == Replies(ps)
    ensures Leading(ps) == i + 1 + Leading(ps[i + 1..])
  {
    PassStep(ps, i);
    AppendAssoc(written, ps[i].replies, Replies(ps[i + 1..]));
  }

  /** One item of the loop stops it: its replies and its failure complete what is
      written, and exactly the passes before it lead. */
  lemma PassStops(ps: seq<Pass>, i: nat, written: seq<Reply>)
    requires i < |ps| && ps[i].stop.Some?
    requires written + Replies(ps[i..]) == Replies(ps) && Leading(ps) == i + Leading(ps[i..])
    ensures written + ps[i].replies + [Failure(ps[i].stop.value)] == Replies(ps)
    ensures Leading(ps) == i
  {
    PassStep(ps, i);
    AppendAssoc(written, ps[i].replies, [Failure(ps[i].stop.value)]);
  }

  /** The part of the store a batch changes: the database, the directories on disk and
      the ids handed to the download worker. */
  datatype World = World(db: Db, dirs: set<string>, started: seq<int>)

  /** The state after one round of the `createTask` loop for `info`: nothing changes
      when a check fails or the season folder cannot be created; the season folder is
      created when there is a season title; the record is stored and started unless the
      database refuses it. The task is stored exactly when the item's outcome is `None`. */
  function AdmitWorld(w: World, info: TaskInfo, title: string, folder: string, u: Util, faults: Faults): (r: World)
    ensures var stop := ItemOutcome(info, folder, title != "" && folder !in w.dirs, u, faults);
      (stop.None? ==> r.db == WithTask(w.db, Persisted(info, folder, u)) && r.started == w.started + [w.db.nextId]
                      && (title != "" ==> folder in r.dirs))
      && (stop.Some? ==> r.db == w.db && r.started == w.started)
    ensures w.dirs <= r.dirs <= w.dirs + {folder}
    ensures title == "" ==> r.dirs == w.dirs
  {
    if Validate(info, u).Some? then w
    else if title != "" && folder !in w.dirs && folder in faults.mkdir then w
    else
      var dirs := if title != "" then w.dirs + {folder} else w.dirs;
      var t := Persisted(info, folder, u);
      if t in faults.insert then w.(dirs := dirs)
      else World(WithTask(w.db, t), dirs, w.started + [w.db.nextId])
  }

  /** The `createTask` loop from item `i` on, `written` and `created` being the replies
      and ids before it: the final state, every reply and every id stored. */
  function BatchFrom(w: World, written: seq<Reply>, created: seq<int>, items: seq<Item>, i: nat,
                     title: string, folder: string, u: Util, faults: Faults): (World, seq<Reply>, seq<int>)
    requires i <= |items|
    decreases |items| - i
  {
    if i == |items| then (w, written + [Reply(true, CreatedMessage, map[])], created)
    else
      var pass := ItemPass(items[i].info, folder, title != "" && folder !in w.dirs, u, faults);
      var next := AdmitWorld(w, items[i].info, title, folder, u, faults);
      match pass.stop
      case Some(m) => (next, written + pass.replies + [Failure(m)], created)
      case None => BatchFrom(next, written + pass.replies, created + [w.db.nextId], items, i + 1, title, folder, u, faults)
  }

  /** The replies the loop writes, from any point that agrees with a start in `w0`: those
      of the batch's passes, the season folder needing creation only for the first item;
      as many ids are stored as there are leading passes. */
  lemma {:induction false} BatchFromReplies(w0: World, w: World, written: seq<Reply>, created: seq<int>,
                                            items: seq<Item>, i: nat, title: string, folder: string, u: Util, faults: Faults)
    requires i <= |items| && |created| == i
    requires var ps := Passes(items, folder, title != "" && folder !in w0.dirs, u, faults);
      written + Replies(ps[i..]) == Replies(ps) && Leading(ps) == i + Leading(ps[i..])
    requires (title != "" && folder !in w.dirs) == (title != "" && folder !in w0.dirs && i == 0)
    ensures var r := BatchFrom(w, written, created, items, i, title, folder, u, faults);
      var ps := Passes(items, folder, title != "" && folder !in w0.dirs, u, faults);
      r.1 == Replies(ps) && |r.2| == Leading(ps)
    decreases |items| - i
  {
    var ps := Passes(items, folder, title != "" && folder !in w0.dirs, u, faults);
    if i == |items| {
      assert ps[i..] == [];
    } else {
      assert ps[i] == ItemPass(items[i].info, folder, title != "" && folder !in w.dirs, u, faults);
      var next := AdmitWorld(w, items[i].info, title, folder, u, faults);
      if ps[i].stop.Some? {
        PassStops(ps, i, written);
      } else {
        PassThrough(ps, i, written);
        BatchFromReplies(w0, next, written + ps[i].replies, created + [w.db.nextId], items, i + 1, title, folder, u, faults);
      }
    }
  }

  /** What the loop stores, from any point that agrees with a start in `w0`: the leading
      items under consecutive ids from the old next id, started in that order, and at
      most the season folder created, which exists once an item is stored. */
  lemma {:induction false} BatchFromStore(w0: World, w: World, written: seq<Reply>, created: seq<int>,
                                          items: seq<Item>, i: nat, title: string, folder: string, u: Util, faults: Faults)
    requires i <= |items|
    requires created == Ids(w0.db.nextId, i) && w.started == w0.started + created
    requires w.db == Added(w0.db, items, folder, u, i)
    requires w0.dirs <= w.dirs <= w0.dirs + {folder} && (title == "" ==> w.dirs == w0.dirs)
    requires title != "" && i > 0 ==> folder in w.dirs
    ensures var r := BatchFrom(w, written, created, items, i, title, folder, u, faults);
      r.2 == Ids(w0.db.nextId, |r.2|) && |r.2| <= |items| && r.0.started == w0.started + r.2
      && r.0.db == Added(w0.db, items, folder, u, |r.2|)
      && w0.dirs <= r.0.dirs <= w0.dirs + {folder} && (title == "" ==> r.0.dirs == w0.dirs)
      && (title != "" && |r.2| > 0 ==> folder in r.0.dirs)
    decreases |items| - i
  {
    if i < |items| {
      var pass := ItemPass(items[i].info, folder, title != "" && folder !in w.dirs, u, faults);
      var next := AdmitWorld(w, items[i].info, title, folder, u, faults);
      if pass.stop.None? {
        assert next.db == Added(w0.db, items, folder, u, i + 1);
        assert created + [w.db.nextId] == Ids(w0.db.nextId, i + 1);
        AppendAssoc(w0.started, created, [w.db.nextId]);
        BatchFromStore(w0, next, written + pass.replies, created + [w.db.nextId], items, i + 1, title, folder, u, faults);
      }
    }
  }

  /** The outcome of placing a resolved plan, `w` and `w2` being the state before and
      after: a folder lookup failure changes nothing; otherwise at most the season folder
      is created, and only for a season or episode link, where it exists unless creating
      it failed; that failure and a refused insert change nothing stored; otherwise the
      task is stored under the next id, which was unused, and started. */
  predicate Placed(plan: Plan, base: Outcome<string>, u: Util, faults: Faults, w: World, w2: World, reply: Reply)
  {
    match base
    case Failed(c) => reply == Failure("获取下载目录失败: " + c) && w2 == w
    case Got(b) =>
      var folder := if plan.series then SeriesFolder(b, plan.seasonTitle, u) else b;
      var t := Persisted(plan.info, folder, u);
      w.dirs <= w2.dirs <= w.dirs + {folder}
      && (!plan.series ==> w2.dirs == w.dirs)
      && (plan.series && !(folder !in w.dirs && folder in faults.mkdir) ==> folder in w2.dirs)
      && if plan.series && folder !in w.dirs && folder in faults.mkdir then
        reply == Failure("创建番剧目录失败: " + faults.mkdir[folder]) && w2 == w
      else if t in faults.insert then
        reply == Failure("创建任务失败: " + faults.insert[t]) && w2.db == w.db && w2.started == w.started
      else
        var id := w.db.nextId;
        id !in w.db.records && w2.db == WithTask(w.db, t) && w2.started == w.started + [id]
        && reply == Reply(true, "创建下载任务成功", map["task_id" := JInt(id), "title" := JStr(t.info.title)])
  }

  /** When each pass writes at most a parameter failure, every reply but the last is a
      parameter failure, and a last reply that succeeds is the creation reply; it
      succeeds exactly when no pass stops the request. */
  lemma {:induction false} RepliesShape(ps: seq<Pass>)
    requires forall k :: 0 <= k < |ps| ==> ps[k].replies == [] || ps[k].replies == [Failure(ParamMessage)]
    ensures var r := Replies(ps);
      |r| > 0
      && (forall k :: 0 <= k < |r| - 1 ==> r[k] == Failure(ParamMessage))
      && (r[|r| - 1].success ==> r[|r| - 1] == Reply(true, CreatedMessage, map[]))
      && (r[|r| - 1].success <==> forall k :: 0 <= k < |ps| ==> ps[k].stop.None?)
  {
    if ps != [] {
      match ps[0].stop
      case Some(m) =>
      case None =>
        var rest := ps[1..];
        assert forall k :: 1 <= k < |ps| ==> ps[k] == rest[k - 1];
        RepliesShape(rest);
    }
  }

  /** The first pass that stops the request decides it: the last reply is its failure. */
  lemma {:induction false} RepliesFirstStop(ps: seq<Pass>, n: nat)
    requires n < |ps| && ps[n].stop.Some?
    requires forall k :: 0 <= k < n ==> ps[k].stop.None?
    ensures var r := Replies(ps); |r| > 0 && r[|r| - 1] == Failure(ps[n].stop.value)
  {
    if n > 0 {
      var rest := ps[1..];
      assert forall k :: 1 <= k < |ps| ==> ps[k] == rest[k - 1];
      RepliesFirstStop(rest, n - 1);
    }
  }

  /** The leading passes are exactly those that do not stop: every one before the
      count lets its item through, and the one at the count, if any, stops. */
  lemma {:induction false} LeadingFacts(ps: seq<Pass>)
    ensures forall k :: 0 <= k < Leading(ps) ==> ps[k].stop.None?
    ensures Leading(ps) < |ps| ==> ps[Leading(ps)].stop.Some?
  {
    if ps != [] && ps[0].stop.None? {
      var rest := ps[1..];
      LeadingFacts(rest);
      assert forall k :: 1 <= k < |ps| ==> ps[k] == rest[k - 1];
    }
  }

  /** Storing `n` items of a batch adds exactly `n` records, under consecutive new ids
      from the old next id, each the item's persisted task, and keeps the old ones. */
  lemma {:induction false} AddedFacts(db: Db, items: seq<Item>, folder: string, u: Util, n: nat)
    requires n <= |items|
    ensures var r := Added(db, items, folder, u, n);
      r.nextId == db.nextId + n
      && (Consistent(db) ==> Consistent(r))
      && (forall id :: id in r.records <==> id in db.records || db.nextId <= id < db.nextId + n)
      && (forall id :: id in db.records && !(db.nextId <= id < db.nextId + n) ==> r.records[id] == db.records[id])
      && (forall k :: 0 <= k < n ==> r.records[db.nextId + k] == Persisted(items[k].info, folder, u))
  {
    AddedDomain(db, items, folder, u, n);
    AddedKeeps(db, items, folder, u, n);
    AddedNew(db, items, folder, u, n);
  }

  /** The ids present after storing `n` items. */
  lemma {:induction false} AddedDomain(db: Db, items: seq<Item>, folder: string, u: Util, n: nat)
    requires n <= |items|
    ensures forall id :: id in Added(db, items, folder, u, n).records <==> id in db.records || db.nextId <= id < db.nextId + n
  {
    if n > 0 {
      AddedDomain(db, items, folder, u, n - 1);
    }
  }

  /** Records outside the new ids are untouched. */
  lemma {:induction false} AddedKeeps(db: Db, items: seq<Item>, folder: string, u: Util, n: nat)
    requires n <= |items|
    ensures var r := Added(db, items, folder, u, n);
      forall id :: id in db.records && !(db.nextId <= id < db.nextId + n) ==> id in r.records && r.records[id] == db.records[id]
  {
    if n > 0 {
      AddedKeeps(db, items, folder, u, n - 1);
    }
  }

  /** The record under each new id is its item's persisted task. */
  lemma {:induction false} AddedNew(db: Db, items: seq<Item>, folder: string, u: Util, n: nat)
    requires n <= |items|
    ensures forall k ::
              0 <= k < n && db.nextId + k in Added(db, items, folder, u, n).records ==>
                Added(db, items, folder, u, n).records[db.nextId + k] == Persisted(items[k].info, folder, u)
  {
    if n > 0 {
      AddedNew(db, items, folder, u, n - 1);
      AddedDomain(db, items, folder, u, n - 1);
    }
  }

  /** A batch's replies are parameter failures followed by one last reply, which is the
      creation reply exactly when every item is stored (the season folder needing
      creation only for the first). */
  lemma BatchSucceedsIffAllStored(items: seq<Item>, folder: string, newDir: bool, u: Util, faults: Faults)
    ensures var r := BatchReplies(items, folder, newDir, u, faults);
      |r| > 0
      && (forall k :: 0 <= k < |r| - 1 ==> r[k] == Failure(ParamMessage))
      && (r[|r| - 1].success ==> r[|r| - 1] == Reply(true, CreatedMessage, map[]))
      && (r[|r| - 1].success <==>
            forall k :: 0 <= k < |items| ==> ItemOutcome(items[k].info, folder, newDir && k == 0, u, faults).None?)
  {
    RepliesShape(Passes(items, folder, newDir, u, faults));
  }

  /** The first item that stops the batch decides the request: the last reply is the
      failure it names. */
  lemma BatchFirstStop(items: seq<Item>, n: nat, folder: string, newDir: bool, u: Util, faults: Faults)
    requires n < |items|
    requires forall k :: 0 <= k < n ==> ItemOutcome(items[k].info, folder, newDir && k == 0, u, faults).None?
    requires ItemOutcome(items[n].info, folder, newDir && n == 0, u, faults).Some?
    ensures var r := BatchReplies(items, folder, newDir, u, faults);
      |r| > 0 && r[|r| - 1] == Failure(ItemOutcome(items[n].info, folder, newDir && n == 0, u, faults).value)
  {
    RepliesFirstStop(Passes(items, folder, newDir, u, faults), n);
  }

  /** The items a batch stores are exactly those before the first that stops it: each
      of the leading items has outcome `None`, and the item after them, if any, stops. */
  lemma BatchStoresLeadingItems(items: seq<Item>, folder: string, newDir: bool, u: Util, faults: Faults)
    ensures var n := Leading(Passes(items, folder, newDir, u, faults));
      n <= |items|
      && (forall k :: 0 <= k < n ==> ItemOutcome(items[k].info, folder, newDir && k == 0, u, faults).None?)
      && (n < |items| ==> ItemOutcome(items[n].info, folder, newDir && n == 0, u, faults).Some?)
  {
    LeadingFacts(Passes(items, folder, newDir, u, faults));
  }

  /** An item whose bvid passes but whose cover, title or owner is empty writes a
      parameter failure and is processed anyway: a batch of that one item writes the
      failure and then the success reply. */
  lemma MissingFieldsStillStored(item: Item, folder: string, newDir: bool, u: Util, faults: Faults)
    requires u.checkBvidFormat(item.info.bvid) && MissingFields(item.info)
    requires ItemOutcome(item.info, folder, newDir, u, faults).None?
    ensures BatchReplies([item], folder, newDir, u, faults) == [Failure(ParamMessage), Reply(true, CreatedMessage, map[])]
  {
    var ps := Passes([item], folder, newDir, u, faults);
    assert ps[0] == ItemPass(item.info, folder, newDir, u, faults);
    assert ps[0] == Pass([Failure(ParamMessage)], None);
    assert ps[1..] == [];
    assert Replies(ps) == ps[0].replies + Replies([]);
  }

  class TaskStore {
    /** The task table and the id counter of the database. */
    var db: Db
    /** Files on disk. */
    var files: set<string>
    /** Directories on disk. */
    var dirs: set<string>
    /** Ids handed to the download worker, in order. */
    var started: seq<int>

    ghost predicate Valid()
      reads this
    {
      Consistent(db) && forall k :: 0 <= k < |started| ==> 1 <= started[k] < db.nextId
    }

    constructor (files: set<string>, dirs: set<string>)
      ensures Valid()
      ensures db == Db(map[], 1) && started == []
      ensures this.files == files && this.dirs == dirs
    {
      db := Db(map[], 1);
      this.files := files;
      this.dirs := dirs;
      started := [];
    }

    /** `os.MkdirAll`: an existing directory is success, not an error. */
    method MakeDirAll(path: string, faults: Faults) returns (err: Option<string>)
      modifies this`dirs
      ensures path in old(dirs) ==> err == None && dirs == old(dirs)
      ensures path !in old(dirs) && path in faults.mkdir ==> err == Some(faults.mkdir[path]) && dirs == old(dirs)
      ensures path !in old(dirs) && path !in faults.mkdir ==> err == None && dirs == old(dirs) + {path}
    {
      if path in dirs {
        err := None;
      } else if path in faults.mkdir {
        err := Some(faults.mkdir[path]);
      } else {
        dirs := dirs + {path};
        err := None;
      }
    }

    /** `Task.Create`: stores the record under the next id, which is not yet in use. */
    method Insert(t: Task, faults: Faults) returns (r: Result<int, string>)
      requires Valid()
      modifies this`db
      ensures Valid()
      ensures t in faults.insert ==> r == Err(faults.insert[t]) && db == old(db)
      ensures t !in faults.insert ==> r == Ok(old(db.nextId)) && r.value !in old(db.records)
                                      && db == WithTask(old(db), t)
    {
      if t in faults.insert {
        r := Err(faults.insert[t]);
      } else {
        r := Ok(db.nextId);
        db := WithTask(db, t);
      }
    }

    /** One round of the `createTask` loop for `info`: the checks, the season folder,
        the insert and the start. The pass says what it wrote and whether it stopped;
        `id` is the id stored when it did not. */
    method Admit(info: TaskInfo, title: string, folder: string, u: Util, faults: Faults)
      returns (pass: Pass, id: int)
      requires Valid()
      modifies this`db, this`dirs, this`started
      ensures Valid()
      ensures pass == ItemPass(info, folder, title != "" && folder !in old(dirs), u, faults)
      ensures World(db, dirs, started) == AdmitWorld(World(old(db), old(dirs), old(started)), info, title, folder, u, faults)
      ensures pass.stop.None? ==> id == old(db.nextId)
    {
      var extra: seq<Reply> := [];
      var stop: Option<string> := None;
      id := 0;
      if !u.checkBvidFormat(info.bvid) {
        stop := Some(BvidMessage);
      } else {
        if MissingFields(info) {
          extra := [Failure(ParamMessage)];
        }
        if !u.isValidURL(info.cover) {
          stop := Some(CoverMessage);
        } else if !u.isValidURL(info.audio) {
          stop := Some(AudioMessage);
        } else if !u.isValidURL(info.video) {
          stop := Some(VideoMessage);
        } else if !u.isValidFormatCode(info.format) {
          stop := Some(FormatMessage);
        } else {
          var err: Option<string> := None;
          if title != "" {
            err := MakeDirAll(folder, faults);
          }
          if err.Some? {
            stop := Some("创建番剧目录失败: " + err.value);
          } else {
            var r := Insert(Persisted(info, folder, u), faults);
            if r.Err? {
              stop := Some("_task.Create: " + r.error + ".");
            } else {
              id := r.value;
              started := started + [id];
            }
          }
        }
      }
      pass := Pass(extra, stop);
    }

    /** The `createTask` loop over a batch going to `folder`, `title` being its season
        title: items are taken in order until one stops the request. `written` is every
        reply written, the last one deciding the request; `created` the ids stored, in
        order. */
    method RunBatch(items: seq<Item>, title: string, folder: string, u: Util, faults: Faults)
      returns (written: seq<Reply>, created: seq<int>)
      requires Valid()
      modifies this`db, this`dirs, this`started
      ensures Valid()
      ensures (World(db, dirs, started), written, created)
              == BatchFrom(World(old(db), old(dirs), old(started)), [], [], items, 0, title, folder, u, faults)
    {
      written, created := [], [];
      ghost var goal := BatchFrom(World(db, dirs, started), [], [], items, 0, title, folder, u, faults);
      var i := 0;
      while i < |items|
        invariant i <= |items| && Valid()
        invariant BatchFrom(World(db, dirs, started), written, created, items, i, title, folder, u, faults) == goal
      {
        var pass, id := Admit(items[i].info, title, folder, u, faults);
        if pass.stop.Some? {
          written := written + pass.replies + [Failure(pass.stop.value)];
          return;
        }
        written := written + pass.replies;
        created := created + [id];
        i := i + 1;
      }
      written := written + [Reply(true, CreatedMessage, map[])];
    }

    /** `createTask` after decoding: the download folder is read once, the batch's season
        title decides its folder, and the loop runs over the items. The replies are those
        of the items' passes; the items before the first that stops stay stored under
        consecutive ids and started in order. */
    method CreateBatch(items: seq<Item>, base: Outcome<string>, u: Util, faults: Faults)
      returns (written: seq<Reply>, created: seq<int>)
      requires Valid()
      modifies this`db, this`dirs, this`started
      ensures Valid()
      ensures base.Failed? ==>
        written == [Failure("util.GetCurrentFolder: " + base.cause + ".")]
        && created == [] && db == old(db) && started == old(started) && dirs == old(dirs)
      ensures base.Got? ==>
        var title := BatchSeasonTitle(items);
        var folder := DestinationFolder(base.value, title, u);
        var ps := Passes(items, folder, title != "" && folder !in old(dirs), u, faults);
        written == Replies(ps) && |created| == Leading(ps)
        && created == Ids(old(db.nextId), |created|) && started == old(started) + created
        && |created| <= |items| && db == Added(old(db), items, folder, u, |created|)
        && old(dirs) <= dirs <= old(dirs) + {folder}
        && (title == "" ==> dirs == old(dirs))
        && (title != "" && |created| > 0 ==> folder in dirs)
    {
      if base.Failed? {
        written, created := [Failure("util.GetCurrentFolder: " + base.cause + ".")], [];
        return;
      }
      var title := BatchSeasonTitle(items);
      var folder := DestinationFolder(base.value, title, u);
      ghost var w0 := World(db, dirs, started);
      BatchFromReplies(w0, w0, [], [], items, 0, title, folder, u, faults);
      BatchFromStore(w0, w0, [], [], items, 0, title, folder, u, faults);
      written, created := RunBatch(items, title, folder, u, faults);
    }

    /** `deleteTask`: a missing record is success and changes nothing; a missing file is
        not an error; any other removal error stops before the record is deleted;
        otherwise the file and then the record are removed. */
    method Delete(id: int, u: Util, faults: Faults) returns (reply: Reply)
      requires Valid()
      modifies this`db, this`files
      ensures Valid()
      ensures reply.success ==> id !in db.records
      ensures db.nextId == old(db.nextId)
      ensures faults.lookup.Some? ==>
        reply == Failure("task.GetTask: " + faults.lookup.value)
        && db.records == old(db.records) && files == old(files)
      ensures faults.lookup.None? && id !in old(db.records) ==>
        reply == Reply(true, AlreadyGoneMessage, map[])
        && db.records == old(db.records) && files == old(files)
      ensures faults.lookup.None? && id in old(db.records) ==>
        var path := u.filePath(old(db.records)[id]);
        if path in old(files) && path in faults.remove then
          reply == Failure("文件删除失败 os.Remove: " + faults.remove[path])
          && db.records == old(db.records) && files == old(files)
        else
          files == old(files) - {path}
          && match faults.delete
             case Some(e) => reply == Failure("task.DeleteTask: " + e) && db.records == old(db.records)
             case None => reply == Reply(true, DeletedMessage, map[]) && db.records == old(db.records) - {id}
    {
      if faults.lookup.Some? {
        reply := Failure("task.GetTask: " + faults.lookup.value);
        return;
      }
      if id !in db.records {
        reply := Reply(true, AlreadyGoneMessage, map[]);
        return;
      }
      var path := u.filePath(db.records[id]);
      if path in files && path in faults.remove {
        reply := Failure("文件删除失败 os.Remove: " + faults.remove[path]);
        return;
      }
      files := files - {path};
      if faults.delete.Some? {
        reply := Failure("task.DeleteTask: " + faults.delete.value);
        return;
      }
      db := db.(records := db.records - {id});
      reply := Reply(true, DeletedMessage, map[]);
    }

    /** Deleting twice is the same as deleting once: both requests succeed. */
    method DeleteTwice(id: int, u: Util, faults: Faults) returns (first: Reply, second: Reply)
      requires Valid()
      requires faults.lookup.None? && faults.delete.None? && faults.remove == map[]
      modifies this`db, this`files
      ensures Valid()
      ensures first.success && second.success && id !in db.records
      ensures second == Reply(true, AlreadyGoneMessage, map[])
      ensures db.records == old(db.records) - {id}
    {
      first := Delete(id, u, faults);
      second := Delete(id, u, faults);
    }

    /** `getTaskStatus` after parsing: the reply for task `id`, `lookupErr` being a
        database error on reading it. */
    function StatusReply(id: int, lookupErr: Option<string>): (r: Reply)
      reads this
      ensures r.success <==> lookupErr.None? && id in db.records
      ensures lookupErr.Some? ==> r == Failure("任务不存在: " + lookupErr.value)
      ensures lookupErr.None? && id !in db.records ==> r == Failure("任务不存在: " + NoRowsText)
      ensures r.success ==> r.data == StatusData(id, db.records[id])
    {
      if lookupErr.Some? then Failure("任务不存在: " + lookupErr.value)
      else if id !in db.records then Failure("任务不存在: " + NoRowsText)
      else Reply(true, "获取任务状态成功", StatusData(id, db.records[id]))
    }

    /** The end of `downloadVideoByURL` for a resolved plan: read the download folder,
        create the season sub-folder for a season or episode link, store the task as
        waiting and start it. */
    method Place(plan: Plan, u: Util, base: Outcome<string>, faults: Faults) returns (reply: Reply)
      requires Valid()
      modifies this`db, this`dirs, this`started
      ensures Valid()
      ensures !reply.success ==> db == old(db) && started == old(started)
      ensures Placed(plan, base, u, faults, World(old(db), old(dirs), old(started)), World(db, dirs, started), reply)
    {
      if base.Failed? {
        reply := Failure("获取下载目录失败: " + base.cause);
        return;
      }
      var folder := base.value;
      if plan.series {
        folder := SeriesFolder(base.value, plan.seasonTitle, u);
        var err := MakeDirAll(folder, faults);
        if err.Some? {
          reply := Failure("创建番剧目录失败: " + err.value);
          return;
        }
      }
      var t := Persisted(plan.info, folder, u);
      var r := Insert(t, faults);
      if r.Err? {
        reply := Failure("创建任务失败: " + r.error);
        return;
      }
      started := started + [r.value];
      reply := Reply(true, "创建下载任务成功", map["task_id" := JInt(r.value), "title" := JStr(t.info.title)]);
    }

    /** `downloadVideoByURL` after decoding: resolve the link, then place the task.
        `None` stands for the handler aborting with no reply. */
    method SubmitUrl(url: string, format: int, remote: Remote, u: Util, base: Outcome<string>,
                     faults: Faults, hops: nat)
      returns (reply: Option<Reply>)
      requires Valid()
      modifies this`db, this`dirs, this`started
      ensures Valid()
      ensures reply.None? <==> Resolve(url, format, remote, u, hops) == Err(IndexOutOfRange)
      ensures reply.None? || !reply.value.success ==> db == old(db) && started == old(started)
      ensures match Resolve(url, format, remote, u, hops)
        case Err(Refused(m)) => reply == Some(Failure(m)) && dirs == old(dirs)
        case Err(IndexOutOfRange) => dirs == old(dirs)
        case Ok(plan) =>
          reply.Some? && Placed(plan, base, u, faults, World(old(db), old(dirs), old(started)), World(db, dirs, started), reply.value)
    {
      match Resolve(url, format, remote, u, hops)
      case Err(Refused(m)) =>
        reply := Some(Failure(m));
      case Err(IndexOutOfRange) =>
        reply := None;
      case Ok(plan) =>
        var r := Place(plan, u, base, faults);
        reply := Some(r);
    }
  }
}
