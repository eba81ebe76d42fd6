/** The download engine of `downloader.rs`: a queue of tasks drained from its end, a
    bounded retry loop per file with an idempotent skip, and two fixed-round fetch
    loops for text and JSON. The network is given as the sequence of replies a URL's
    server gives to successive requests; the file system as a map from path to bytes. */
module Downloader {
  import opened Wrappers
  import Paths
  import Urls
  import Json

  type Bytes = seq<bv8>

  /** The files on disk: path to contents. */
  type Files = map<string, Bytes>

  /** `struct Download`: the URL to fetch and the directory to store it in. */
  datatype Download = Download(url: string, path: string)

  /** One GET of `download_file`: the request could not be sent, or a response with its
      status code and its body (`None` when reading the body failed). */
  datatype Reply = SendFailed | Response(status: nat, body: Option<Bytes>)

  /** One GET of `to_text` / `to_json`: not sent, body not decodable, or the decoded body. */
  datatype Fetched<T> = RequestFailed | DecodeFailed | Decoded(value: T)

  /** `(1..10).rev()` yields 9, 8, ..., 1: nine attempts. */
  const MaxAttempts: nat := 9

  /** `(0..10).rev()` yields 9, 8, ..., 0: ten rounds. */
  const FetchRounds: nat := 10

  const StatusOk: nat := 200

  /** The server's reply to the `k`-th request (from 0); past the known replies the
      request fails to be sent. */
  function ReplyAt(replies: seq<Reply>, k: nat): Reply
  {
    if k < |replies| then replies[k] else SendFailed
  }

  /** An attempt that passes every check: status 200 and a body that could be read. */
  predicate Delivers(r: Reply)
  {
    r.Response? && r.status == StatusOk && r.body.Some?
  }

  /** The first request in `from..bound` whose reply delivers a body. */
  function FirstDelivery(replies: seq<Reply>, from: nat, bound: nat): (k: Option<nat>)
    ensures k.Some? ==> from <= k.value < bound && Delivers(ReplyAt(replies, k.value))
    ensures k.Some? ==> forall j :: from <= j < k.value ==> !Delivers(ReplyAt(replies, j))
    ensures k.None? ==> forall j :: from <= j < bound ==> !Delivers(ReplyAt(replies, j))
    decreases bound - from
  {
    if from >= bound then None
    else if Delivers(ReplyAt(replies, from)) then Some(from)
    else FirstDelivery(replies, from + 1, bound)
  }

  /** The attempt bound aside, the first delivering request is the one found. */
  lemma FirstDeliveryIsFirst(replies: seq<Reply>, k: nat)
    requires k < MaxAttempts && Delivers(ReplyAt(replies, k))
    requires forall j :: 0 <= j < k ==> !Delivers(ReplyAt(replies, j))
    ensures FirstDelivery(replies, 0, MaxAttempts) == Some(k)
  {
  }

  /** What one call of `download_file` leaves behind: the files, the loop iterations
      it ran, the requests it sent, and whether it panicked. */
  datatype FileStep = FileStep(files: Files, attempts: nat, requests: nat, panicked: bool)

  /** The effect of `download_file(url, path)`. A URL that names no file fails all nine
      attempts without a request. Otherwise the destination is `path` joined with that
      name: if it is already a file nothing happens; if not, requests are sent until one
      delivers, and its body is written there. An empty name makes the destination the
      directory itself, so the write fails and its `expect` panics. */
  function DownloadEffect(url: string, path: string, replies: seq<Reply>, files: Files): (r: FileStep)
    ensures r.requests <= r.attempts <= MaxAttempts
    ensures r.files.Keys <= files.Keys + (if Urls.FileName(url).Some? then {Paths.Join(path, Urls.FileName(url).value)} else {})
  {
    match Urls.FileName(url)
    case None => FileStep(files, MaxAttempts, 0, false)
    case Some(name) =>
      var dest := Paths.Join(path, name);
      if dest in files then FileStep(files, 1, 0, false)
      else
        match FirstDelivery(replies, 0, MaxAttempts)
        case None => FileStep(files, MaxAttempts, MaxAttempts, false)
        case Some(k) =>
          if name == [] then FileStep(files, k + 1, k + 1, true)
          else FileStep(files[dest := ReplyAt(replies, k).body.value], k + 1, k + 1, false)
  }

  /** Where `download_file` may write: the directory joined with the URL's file name,
      when the URL names one. */
  function Target(url: string, path: string): Option<string>
  {
    match Urls.FileName(url)
    case None => None
    case Some(name) => Some(Paths.Join(path, name))
  }

  /** What `download_file` leaves alone: every existing file it cannot target keeps its
      contents, and it panics only when the URL's file name is empty. */
  lemma DownloadEffectFrame(url: string, path: string, replies: seq<Reply>, files: Files)
    ensures var r := DownloadEffect(url, path, replies, files);
      && (forall p :: p in files && Target(url, path) != Some(p) ==> p in r.files && r.files[p] == files[p])
      && (r.panicked ==> Urls.FileName(url) == Some([]))
  {
  }

  /** A URL whose last segment is empty aims the write at the directory itself: when that
      path is not a file and some attempt delivers, the write fails and panics. */
  lemma EmptyNameDeliveryPanics(url: string, path: string, replies: seq<Reply>, files: Files)
    requires Urls.FileName(url) == Some([]) && Paths.Join(path, []) !in files
    requires Delivery(replies).Some?
    ensures DownloadEffect(url, path, replies, files).panicked
  {
  }

  /** `download_file`: the retry loop, one iteration per attempt, with the source's
      `continue` on every failure and `break` on a skip or a successful write. */
  method DownloadFile(url: string, path: string, replies: seq<Reply>, files: Files)
    returns (files': Files, attempts: nat, requests: nat, panicked: bool)
    ensures FileStep(files', attempts, requests, panicked) == DownloadEffect(url, path, replies, files)
  {
    files', attempts, requests, panicked := files, 0, 0, false;
    ghost var name := Urls.FileName(url);
    for n := 10 downto 1
      invariant attempts == 10 - n
      invariant files' == files && !panicked
      invariant requests == (if name.Some? then attempts else 0)
      invariant name.Some? && attempts > 0 ==> Paths.Join(path, name.value) !in files
      invariant forall j :: 0 <= j < requests ==> !Delivers(ReplyAt(replies, j))
    {
      attempts := attempts + 1;
      var parsed := Urls.Parse(url);
      if parsed.None? {
        assert name.None?;
        continue;
      }
      var segments := Urls.PathSegments(parsed.value);
      if segments.None? {
        assert name.None?;
        continue;
      }
      // `last()` cannot fail: `path_segments` yields at least one segment
      var fileName := segments.value[|segments.value| - 1];
      assert name == Some(fileName);
      var fullPath := Paths.Join(path, fileName);
      if fullPath in files' {
        break;
      }
      var reply := ReplyAt(replies, requests);
      ghost var k := requests;
      requests := requests + 1;
      if !Delivers(reply) {
        if reply.SendFailed? {
          continue;
        }
        if reply.status != StatusOk {
          continue;
        }
        if reply.body.None? {
          continue;
        }
      }
      assert FirstDelivery(replies, 0, MaxAttempts) == Some(k) by {
        FirstDeliveryIsFirst(replies, k);
      }
      if fileName == [] {
        panicked := true;
        break;
      }
      files' := files'[fullPath := reply.body.value];
      break;
    }
  }

  /** A URL that names no file: nine failed attempts, no request, nothing written. */
  lemma UnnamedUrlWritesNothing(url: string, path: string, replies: seq<Reply>, files: Files)
    requires Urls.FileName(url).None?
    ensures DownloadEffect(url, path, replies, files) == FileStep(files, MaxAttempts, 0, false)
  {
  }

  /** An existing destination file is skipped at the first attempt: no request, no write. */
  lemma ExistingFileIsSkipped(url: string, path: string, replies: seq<Reply>, files: Files)
    requires Urls.FileName(url).Some? && Paths.Join(path, Urls.FileName(url).value) in files
    ensures DownloadEffect(url, path, replies, files) == FileStep(files, 1, 0, false)
  {
  }

  /** When no attempt delivers, all nine requests are sent and nothing is written. */
  lemma FailedAttemptsWriteNothing(url: string, path: string, replies: seq<Reply>, files: Files)
    requires Urls.FileName(url).Some? && Paths.Join(path, Urls.FileName(url).value) !in files
    requires forall j :: 0 <= j < MaxAttempts ==> !Delivers(ReplyAt(replies, j))
    ensures DownloadEffect(url, path, replies, files) == FileStep(files, MaxAttempts, MaxAttempts, false)
  {
  }

  /** The first delivering attempt `k` writes its body at the destination and ends the
      loop after `k + 1` requests. */
  lemma FirstDeliveryIsStored(url: string, path: string, replies: seq<Reply>, files: Files, k: nat)
    requires Urls.FileName(url).Some? && Urls.FileName(url).value != []
    requires Paths.Join(path, Urls.FileName(url).value) !in files
    requires k < MaxAttempts && Delivers(ReplyAt(replies, k))
    requires forall j :: 0 <= j < k ==> !Delivers(ReplyAt(replies, j))
    ensures DownloadEffect(url, path, replies, files)
         == FileStep(files[Paths.Join(path, Urls.FileName(url).value) := ReplyAt(replies, k).body.value], k + 1, k + 1, false)
  {
    FirstDeliveryIsFirst(replies, k);
  }

  /** Running `download_file` again after it stored a file fetches nothing and changes
      nothing, whatever the server answers. */
  lemma DownloadIsIdempotent(url: string, path: string, replies: seq<Reply>, again: seq<Reply>, files: Files)
    requires !DownloadEffect(url, path, replies, files).panicked
    requires DownloadEffect(url, path, replies, files).files != files
    ensures var stored := DownloadEffect(url, path, replies, files).files;
      DownloadEffect(url, path, again, stored) == FileStep(stored, 1, 0, false)
  {
  }

  /** What `download_queue` leaves behind: the files, the number of `download_file`
      calls, and whether one of them panicked. */
  datatype Drained = Drained(files: Files, calls: nat, panicked: bool)

  /** `download_queue` on `queue`: pop the last task, download it, repeat until the queue
      is empty; every task gets one call unless a call panics, which ends the run. */
  function Drain(queue: seq<Download>, net: string -> seq<Reply>, files: Files): (d: Drained)
    ensures d.calls <= |queue|
    ensures !d.panicked ==> d.calls == |queue|
    ensures d.panicked ==> d.calls > 0
    decreases |queue|
  {
    if queue == [] then Drained(files, 0, false)
    else
      var task := queue[|queue| - 1];
      var step := DownloadEffect(task.url, task.path, net(task.url), files);
      if step.panicked then Drained(step.files, 1, true)
      else
        var rest := Drain(queue[..|queue| - 1], net, step.files);
        Drained(rest.files, rest.calls + 1, rest.panicked)
  }

  /** One round of the drain: the last task's download, then the rest of the queue. */
  lemma DrainPopsLast(queue: seq<Download>, net: string -> seq<Reply>, files: Files)
    requires queue != []
    ensures var task := queue[|queue| - 1];
      var step := DownloadEffect(task.url, task.path, net(task.url), files);
      var rest := Drain(queue[..|queue| - 1], net, step.files);
      Drain(queue, net, files) == if step.panicked then Drained(step.files, 1, true) else Drained(rest.files, rest.calls + 1, rest.panicked)
  {
  }

  /** Draining continues after the popped task's call: the total of a drain that has
      already made `calls` calls is reached from the rest of the queue. */
  lemma DrainContinues(pending: seq<Download>, net: string -> seq<Reply>, before: Files, step: FileStep,
                       remaining: seq<Download>, total: Drained, calls: nat)
    requires pending != [] && remaining == pending[..|pending| - 1]
    requires step == DownloadEffect(pending[|pending| - 1].url, pending[|pending| - 1].path, net(pending[|pending| - 1].url), before)
    requires var rest := Drain(pending, net, before); total == Drained(rest.files, rest.calls + calls, rest.panicked)
    ensures step.panicked ==> total == Drained(step.files, calls + 1, true)
    ensures !step.panicked ==> var rest := Drain(remaining, net, step.files);
      total == Drained(rest.files, rest.calls + (calls + 1), rest.panicked)
  {
    DrainPopsLast(pending, net, before);
  }

  /** A drain leaves every path that no task's download can target as it was: present
      or absent, with the same contents, whatever the queue holds. */
  lemma {:induction false} DrainLeavesOtherPaths(queue: seq<Download>, net: string -> seq<Reply>, files: Files, p: string)
    requires forall i :: 0 <= i < |queue| ==> Target(queue[i].url, queue[i].path) != Some(p)
    ensures var d := Drain(queue, net, files);
      && (p in d.files <==> p in files)
      && (p in files ==> d.files[p] == files[p])
    decreases |queue|
  {
    if queue != [] {
      var task := queue[|queue| - 1];
      var step := DownloadEffect(task.url, task.path, net(task.url), files);
      DrainPopsLast(queue, net, files);
      DownloadEffectFrame(task.url, task.path, net(task.url), files);
      if !step.panicked {
        DrainLeavesOtherPaths(queue[..|queue| - 1], net, step.files, p);
      }
    }
  }

  /** A drain never overwrites or removes a file that exists when it starts, whatever the
      queue holds: a task aimed at it is skipped, and every other task leaves it alone. */
  lemma {:induction false} DrainKeepsExistingFiles(queue: seq<Download>, net: string -> seq<Reply>, files: Files, p: string)
    requires p in files
    ensures var d := Drain(queue, net, files); p in d.files && d.files[p] == files[p]
    decreases |queue|
  {
    if queue != [] {
      var task := queue[|queue| - 1];
      var step := DownloadEffect(task.url, task.path, net(task.url), files);
      DrainPopsLast(queue, net, files);
      DownloadEffectFrame(task.url, task.path, net(task.url), files);
      if Target(task.url, task.path) == Some(p) {
        ExistingFileIsSkipped(task.url, task.path, net(task.url), files);
      }
      if !step.panicked {
        DrainKeepsExistingFiles(queue[..|queue| - 1], net, step.files, p);
      }
    }
  }

  function Reversed<T>(s: seq<T>): (r: seq<T>)
    ensures |r| == |s|
    ensures forall i :: 0 <= i < |s| ==> r[i] == s[|s| - 1 - i]
    decreases |s|
  {
    if s == [] then [] else [s[|s| - 1]] + Reversed(s[..|s| - 1])
  }

  /** Downloading a list of tasks front to back, stopping at a panic. */
  function RunInOrder(tasks: seq<Download>, net: string -> seq<Reply>, files: Files): Drained
    decreases |tasks|
  {
    if tasks == [] then Drained(files, 0, false)
    else
      var step := DownloadEffect(tasks[0].url, tasks[0].path, net(tasks[0].url), files);
      if step.panicked then Drained(step.files, 1, true)
      else
        var rest := RunInOrder(tasks[1..], net, step.files);
        Drained(rest.files, rest.calls + 1, rest.panicked)
  }

  /** The queue is a stack: draining it runs the tasks in the reverse of push order. */
  lemma {:induction false} DrainRunsInReversePushOrder(queue: seq<Download>, net: string -> seq<Reply>, files: Files)
    ensures Drain(queue, net, files) == RunInOrder(Reversed(queue), net, files)
    decreases |queue|
  {
    if queue != [] {
      var task := queue[|queue| - 1];
      var step := DownloadEffect(task.url, task.path, net(task.url), files);
      assert Reversed(queue)[0] == task;
      assert Reversed(queue)[1..] == Reversed(queue[..|queue| - 1]);
      if !step.panicked {
        DrainRunsInReversePushOrder(queue[..|queue| - 1], net, step.files);
      }
    }
  }

  /** A task whose URL names a non-empty file, so that storing it cannot panic. */
  predicate Storable(task: Download)
  {
    Urls.FileName(task.url).Some? && Urls.FileName(task.url).value != []
  }

  /** Where a storable task's file goes: its directory joined with the URL's last segment. */
  function Destination(task: Download): string
    requires Storable(task)
  {
    Target(task.url, task.path).value
  }

  /** For each task whose server delivers within the attempt bound, its destination with
      the delivered body. */
  function DeliveredFiles(queue: seq<Download>, net: string -> seq<Reply>): map<string, Bytes>
    requires forall i :: 0 <= i < |queue| ==> Storable(queue[i])
    decreases |queue|
  {
    if queue == [] then map[]
    else
      var task := queue[|queue| - 1];
      var rest := DeliveredFiles(queue[..|queue| - 1], net);
      match Delivery(net(task.url))
      case None => rest
      case Some(body) => rest[Destination(task) := body]
  }

  /** One step of `DeliveredFiles`: the last task's delivery over the rest. */
  lemma DeliveredFilesPopsLast(queue: seq<Download>, net: string -> seq<Reply>)
    requires queue != [] && forall i :: 0 <= i < |queue| ==> Storable(queue[i])
    ensures var task := queue[|queue| - 1];
      var rest := DeliveredFiles(queue[..|queue| - 1], net);
      DeliveredFiles(queue, net) == match Delivery(net(task.url)) case None => rest case Some(body) => rest[Destination(task) := body]
  {
  }

  /** The body of the first delivering attempt within the bound, if any. */
  function Delivery(replies: seq<Reply>): Option<Bytes>
  {
    match FirstDelivery(replies, 0, MaxAttempts)
    case None => None
    case Some(k) => Some(ReplyAt(replies, k).body.value)
  }

  /** A storable task with a fresh destination never panics and stores exactly its
      first delivered body, if any. */
  lemma StorableTaskStep(task: Download, replies: seq<Reply>, files: Files)
    requires Storable(task) && Destination(task) !in files
    ensures var step := DownloadEffect(task.url, task.path, replies, files);
      && !step.panicked
      && step.files == match Delivery(replies)
                       case None => files
                       case Some(body) => files[Destination(task) := body]
  {
  }

  /** Draining a queue whose last task is storable at a fresh destination: that task's
      delivery, if any, is stored, and the rest of the queue follows. */
  lemma DrainStoresLast(queue: seq<Download>, net: string -> seq<Reply>, files: Files)
    requires queue != [] && Storable(queue[|queue| - 1]) && Destination(queue[|queue| - 1]) !in files
    ensures var task := queue[|queue| - 1];
      var stored := match Delivery(net(task.url)) case None => files case Some(body) => files[Destination(task) := body];
      var rest := Drain(queue[..|queue| - 1], net, stored);
      Drain(queue, net, files) == Drained(rest.files, rest.calls + 1, rest.panicked)
  {
    var task := queue[|queue| - 1];
    StorableTaskStep(task, net(task.url), files);
    DrainPopsLast(queue, net, files);
  }

  lemma {:induction false} DeliveredOnlyAtDestinations(queue: seq<Download>, net: string -> seq<Reply>, p: string)
    requires forall i :: 0 <= i < |queue| ==> Storable(queue[i])
    requires forall i :: 0 <= i < |queue| ==> Destination(queue[i]) != p
    ensures p !in DeliveredFiles(queue, net)
    decreases |queue|
  {
    if queue != [] {
      DeliveredOnlyAtDestinations(queue[..|queue| - 1], net, p);
    }
  }

  lemma StoreThenMerge(files: Files, later: map<string, Bytes>, dest: string, body: Bytes)
    requires dest !in later
    ensures files[dest := body] + later == files + later[dest := body]
  {
  }

  /** A failing task does not stop the others: when the destinations are distinct and
      absent, a drain calls `download_file` once per task and ends having written exactly
      the delivered files and nothing else. */
  lemma {:induction false} DrainWritesDeliveredFiles(queue: seq<Download>, net: string -> seq<Reply>, files: Files)
    requires forall i :: 0 <= i < |queue| ==> Storable(queue[i])
    requires forall i, j :: 0 <= i < j < |queue| ==> Destination(queue[i]) != Destination(queue[j])
    requires forall i :: 0 <= i < |queue| ==> Destination(queue[i]) !in files
    ensures Drain(queue, net, files) == Drained(files + DeliveredFiles(queue, net), |queue|, false)
    decreases |queue|
  {
    if queue != [] {
      var n := |queue|;
      var task, init := queue[n - 1], queue[..n - 1];
      var dest := Destination(task);
      assert forall i :: 0 <= i < |init| ==> init[i] == queue[i];
      forall i | 0 <= i < |init| ensures Destination(init[i]) != dest {
        assert Destination(queue[i]) != Destination(queue[n - 1]);
      }
      DeliveredOnlyAtDestinations(init, net, dest);
      DrainStoresLast(queue, net, files);
      DeliveredFilesPopsLast(queue, net);
      match Delivery(net(task.url)) {
        case None =>
          DrainWritesDeliveredFiles(init, net, files);
        case Some(body) =>
          DrainWritesDeliveredFiles(init, net, files[dest := body]);
          StoreThenMerge(files, DeliveredFiles(init, net), dest, body);
      }
    }
  }

  /** A queue of storable tasks never panics, whatever the files and the servers: the
      drain calls `download_file` once per task, duplicates and existing files included. */
  lemma {:induction false} StorableQueueDrainsFully(queue: seq<Download>, net: string -> seq<Reply>, files: Files)
    requires forall i :: 0 <= i < |queue| ==> Storable(queue[i])
    ensures !Drain(queue, net, files).panicked && Drain(queue, net, files).calls == |queue|
    decreases |queue|
  {
    if queue != [] {
      var task := queue[|queue| - 1];
      var step := DownloadEffect(task.url, task.path, net(task.url), files);
      DrainPopsLast(queue, net, files);
      DownloadEffectFrame(task.url, task.path, net(task.url), files);
      StorableQueueDrainsFully(queue[..|queue| - 1], net, step.files);
    }
  }

  /** The last round of `to_text` / `to_json` (among the first `n`) that decoded a body,
      or `default` when none did. */
  function LastDecoded<T>(replies: seq<Fetched<T>>, n: nat, default: T): T
  {
    if n == 0 then default
    else if FetchedAt(replies, n - 1).Decoded? then FetchedAt(replies, n - 1).value
    else LastDecoded(replies, n - 1, default)
  }

  function FetchedAt<T>(replies: seq<Fetched<T>>, k: nat): Fetched<T>
  {
    if k < |replies| then replies[k] else RequestFailed
  }

  /** With no decoded round, the initial value is returned. */
  lemma {:induction false} NothingDecodedGivesDefault<T>(replies: seq<Fetched<T>>, n: nat, default: T)
    requires forall j :: 0 <= j < n ==> !FetchedAt(replies, j).Decoded?
    ensures LastDecoded(replies, n, default) == default
  {
    if n > 0 {
      NothingDecodedGivesDefault(replies, n - 1, default);
    }
  }

  /** A decoded round `k` with no decoded round after it gives the result. */
  lemma {:induction false} LastDecodedRoundWins<T>(replies: seq<Fetched<T>>, n: nat, default: T, k: nat)
    requires k < n && FetchedAt(replies, k).Decoded?
    requires forall j :: k < j < n ==> !FetchedAt(replies, j).Decoded?
    ensures LastDecoded(replies, n, default) == FetchedAt(replies, k).value
  {
    if n - 1 != k {
      LastDecodedRoundWins(replies, n - 1, default, k);
    }
  }

  /** `to_text`: ten rounds, never returning early, each decoded body overwriting `text`. */
  method ToText(replies: seq<Fetched<string>>) returns (text: string, requests: nat)
    ensures requests == FetchRounds
    ensures text == LastDecoded(replies, FetchRounds, "")
  {
    text, requests := "", 0;
    for n := 10 downto 0
      invariant requests == 10 - n
      invariant text == LastDecoded(replies, requests, "")
    {
      var response := FetchedAt(replies, requests);
      requests := requests + 1;
      if response.RequestFailed? {
        continue;
      }
      if response.DecodeFailed? {
        continue;
      }
      text := response.value;
    }
  }

  /** `to_json`: the same ten rounds, starting from `Null`. */
  method ToJson(replies: seq<Fetched<Json.Value>>) returns (json: Json.Value, requests: nat)
    ensures requests == FetchRounds
    ensures json == LastDecoded(replies, FetchRounds, Json.Null)
  {
    json, requests := Json.Null, 0;
    for n := 10 downto 0
      invariant requests == 10 - n
      invariant json == LastDecoded(replies, requests, Json.Null)
    {
      var response := FetchedAt(replies, requests);
      requests := requests + 1;
      if response.RequestFailed? {
        continue;
      }
      if response.DecodeFailed? {
        continue;
      }
      json := response.value;
    }
  }

  /** `struct Downloader`: the pending tasks (the HTTP client is the `net` argument). */
  class Downloader {
    var queue: seq<Download>

    /** `Downloader::new`. */
    constructor ()
      ensures queue == []
    {
      queue := [];
    }

    /** `push_to_queue`: appends one task at the end and cannot fail. */
    method PushToQueue(url: string, path: string)
      modifies this
      ensures queue == old(queue) + [Download(url, path)]
    {
      queue := queue + [Download(url, path)];
    }

    /** One turn of `download_queue`'s loop: pop the last task and download it. A drain
        that has already made `calls` calls towards `total` goes on from the shorter queue. */
    method DownloadNext(net: string -> seq<Reply>, files: Files, ghost total: Drained, ghost calls: nat)
      returns (files': Files, panicked: bool)
      requires queue != []
      requires var rest := Drain(queue, net, files); total == Drained(rest.files, rest.calls + calls, rest.panicked)
      modifies this
      ensures queue == old(queue)[..|old(queue)| - 1]
      ensures panicked ==> total == Drained(files', calls + 1, true)
      ensures !panicked ==> var rest := Drain(queue, net, files');
        total == Drained(rest.files, rest.calls + (calls + 1), rest.panicked)
    {
      ghost var pending := queue;
      var file := queue[|queue| - 1];
      queue := queue[..|queue| - 1];
      var attempts, requests;
      files', attempts, requests, panicked := DownloadFile(file.url, file.path, net(file.url), files);
      DrainContinues(pending, net, files, FileStep(files', attempts, requests, panicked), queue, total, calls);
    }

    /** `download_queue`: pops and downloads until the queue is empty; a panic inside
        `download_file` ends it with the unpopped tasks left. */
    method DownloadQueue(net: string -> seq<Reply>, files: Files) returns (files': Files, calls: nat, panicked: bool)
      modifies this
      ensures Drained(files', calls, panicked) == Drain(old(queue), net, files)
      ensures queue == old(queue)[..|old(queue)| - calls]
    {
      files', calls, panicked := files, 0, false;
      while queue != []
        invariant |queue| <= |old(queue)| && calls == |old(queue)| - |queue| && queue == old(queue)[..|queue|]
        invariant !panicked
        invariant var rest := Drain(queue, net, files');
          Drain(old(queue), net, files) == Drained(rest.files, rest.calls + calls, rest.panicked)
        decreases |queue|
      {
        files', panicked := DownloadNext(net, files', Drain(old(queue), net, files), calls);
        calls := calls + 1;
        if panicked {
          return;
        }
      }
    }
  }

  /** Enqueue one task on a fresh downloader and drain it: the file arrives at the
      directory joined with the URL's last segment, byte for byte the delivered body. */
  method PushThenDrain(url: string, dir: string, net: string -> seq<Reply>, files: Files) returns (files': Files)
    requires Urls.FileName(url).Some? && Urls.FileName(url).value != []
    requires Paths.Join(dir, Urls.FileName(url).value) !in files
    requires FirstDelivery(net(url), 0, MaxAttempts).Some?
    ensures files' == files[Paths.Join(dir, Urls.FileName(url).value)
                            := ReplyAt(net(url), FirstDelivery(net(url), 0, MaxAttempts).value).body.value]
  {
    var downloader := new Downloader();
    downloader.PushToQueue(url, dir);
    var calls, panicked;
    files', calls, panicked := downloader.DownloadQueue(net, files);
    assert [Download(url, dir)][..0] == [];
  }
}
