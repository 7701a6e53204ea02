/** The whole MapReduce job: workers that may stop at any point, stragglers that finish late, files
    that appear by atomic renames, and the coordinator serving them. */
module MrSystem {
  import opened Tallies
  import opened MrTransform
  import opened MrCoordinator

  /** A job: the input files, the user's functions, the hash and the number of reduce tasks. The
      map function is deterministic; ihash is any function into the naturals. */
  datatype Job = Job(names: seq<string>, contents: string -> string, mapf: (string, string) -> seq<KeyValue>,
                     reducef: ReduceF, hash: string -> nat, nReduce: nat)

  ghost predicate ValidJob(job: Job) {
    job.nReduce > 0 && OrderBlind(job.reducef)
  }

  /** What the map function yields for each input file. */
  function MapOutputs(job: Job): seq<seq<KeyValue>> {
    seq(|job.names|, i requires 0 <= i < |job.names| => job.mapf(job.names[i], job.contents(job.names[i])))
  }

  /** Intermediate file mr-i-r. */
  datatype FileName = Mr(i: nat, r: nat)

  datatype Worker =
    | Free
    | Mapping(fileName: string, id: nat, nReduce: nat, written: nat)      // files mr-id-0 .. renamed so far
    | Reducing(id: nat, mapTaskNum: nat, read: nat, acc: seq<KeyValue>)   // map files read so far
    | Reporting(id: nat)                                                  // mr-out-id renamed
    | Stopped                                                             // exit task
    | Fatal                                                               // could not open a file

  datatype Sent = Sent(kind: Kind, id: nat)

  /** Workers not in the map are free; reports once sent may arrive late and repeatedly. */
  datatype State = State(c: Coord, files: map<FileName, seq<KeyValue>>, outs: map<nat, seq<string>>,
                         workers: map<nat, Worker>, sent: set<Sent>)

  datatype Action =
    | Ask(w: nat, now: int)
    | RenameMap(w: nat)
    | ReadFile(w: nat)
    | RenameOut(w: nat, sorted: seq<KeyValue>, lines: seq<string>)
    | SendReport(w: nat)
    | Receive(m: Sent)
    | Crash(w: nat)

  ghost function WorkerOf(s: State, w: nat): Worker {
    if w in s.workers then s.workers[w] else Free
  }

  ghost predicate Init(job: Job, s: State) {
    IsInitial(s.c, job.names, job.nReduce) && s.files == map[] && s.outs == map[] && s.workers == map[] && s.sent == {}
  }

  ghost predicate Enabled(job: Job, s: State, a: Action) {
    match a
    case Ask(w, _) => WorkerOf(s, w).Free?
    case RenameMap(w) => WorkerOf(s, w).Mapping? && WorkerOf(s, w).written < WorkerOf(s, w).nReduce
    case ReadFile(w) => WorkerOf(s, w).Reducing? && WorkerOf(s, w).read < WorkerOf(s, w).mapTaskNum
    case RenameOut(w, sorted, lines) =>
      && WorkerOf(s, w).Reducing? && WorkerOf(s, w).read == WorkerOf(s, w).mapTaskNum
      && SortedFrom(sorted, WorkerOf(s, w).acc) && GroupsTo(sorted, job.reducef, lines)
    case SendReport(w) =>
      (WorkerOf(s, w).Mapping? && WorkerOf(s, w).written == WorkerOf(s, w).nReduce) || WorkerOf(s, w).Reporting?
    case Receive(m) => m in s.sent
    case Crash(w) => true
  }

  /** What a worker turns to on the coordinator's answer. */
  function Assigned(reply: Reply): Worker {
    match reply
    case MapJob(fileName, id, nReduce) => Mapping(fileName, id, nReduce, 0)
    case ReduceJob(id, _, mapTaskNum) => Reducing(id, mapTaskNum, 0, [])
    case Wait => Free
    case Exit => Stopped
  }

  ghost function Do(job: Job, s: State, a: Action): State
    requires job.nReduce > 0 && Enabled(job, s, a)
  {
    match a
    case Ask(w, now) =>
      var r := GetTask(s.c, now);
      s.(c := r.c, workers := s.workers[w := Assigned(r.reply)])
    case RenameMap(w) =>
      var k := WorkerOf(s, w);
      var bucket := BucketOf(job.mapf(k.fileName, job.contents(k.fileName)), job.hash, k.nReduce, k.written);
      s.(files := s.files[Mr(k.id, k.written) := bucket], workers := s.workers[w := k.(written := k.written + 1)])
    case ReadFile(w) =>
      var k := WorkerOf(s, w);
      var f := Mr(k.read, k.id);
      s.(workers := s.workers[w := if f in s.files then k.(read := k.read + 1, acc := k.acc + s.files[f]) else Fatal])
    case RenameOut(w, _, lines) =>
      var k := WorkerOf(s, w);
      s.(outs := s.outs[k.id := lines], workers := s.workers[w := Reporting(k.id)])
    case SendReport(w) =>
      var k := WorkerOf(s, w);
      s.(sent := s.sent + {Sent(if k.Mapping? then MapTask else ReduceTask, k.id)}, workers := s.workers[w := Free])
    case Receive(m) => s.(c := ReportTask(s.c, m.kind, m.id).c)
    case Crash(w) => s.(workers := s.workers[w := Free])
  }

  ghost predicate Next(job: Job, s: State, s': State)
    requires job.nReduce > 0
  {
    exists a :: Enabled(job, s, a) && s' == Do(job, s, a)
  }

  ghost predicate IsRun(job: Job, run: seq<State>)
    requires job.nReduce > 0
  {
    && run != [] && Init(job, run[0])
    && forall i :: 0 <= i < |run| - 1 ==> Next(job, run[i], run[i + 1])
  }

  // --- The invariant ---

  /** All the files map task i has to produce are there. */
  ghost predicate MapFilesThere(job: Job, s: State, i: nat, upto: nat) {
    forall r: nat :: r < upto ==> Mr(i, r) in s.files
  }

  /** Every intermediate file holds its map task's bucket, whoever renamed it last. */
  ghost predicate FilesRight(job: Job, s: State)
    requires job.nReduce > 0
  {
    forall f :: f in s.files ==>
      f.i < |job.names| && s.files[f] == BucketOf(MapOutputs(job)[f.i], job.hash, job.nReduce, f.r)
  }

  ghost predicate OutsRight(job: Job, s: State)
    requires job.nReduce > 0
  {
    forall r :: r in s.outs ==>
      ReduceOutput(MapOutputs(job), job.hash, job.nReduce, r, job.reducef, s.outs[r])
  }

  ghost predicate SentRight(job: Job, s: State) {
    forall m :: m in s.sent ==> if m.kind == MapTask then MapFilesThere(job, s, m.id, job.nReduce) else m.id in s.outs
  }

  ghost predicate WorkerRight(job: Job, s: State, k: Worker)
    requires job.nReduce > 0
  {
    match k
    case Mapping(fileName, id, nReduce, written) =>
      && id < |job.names| && fileName == job.names[id] && nReduce == job.nReduce
      && MapFilesThere(job, s, id, written)
    case Reducing(id, mapTaskNum, read, acc) =>
      && s.c.mapFinished && mapTaskNum == |job.names| && id < job.nReduce && read <= mapTaskNum
      && acc == Flatten(BucketFiles(MapOutputs(job), job.hash, job.nReduce, id)[..read])
    case Reporting(id) => id in s.outs
    case Fatal => false
    case _ => true
  }

  ghost predicate CoordRight(job: Job, s: State) {
    && Phased(s.c) && |s.c.maps| == |job.names| && s.c.nReduce == job.nReduce
    && (forall i :: 0 <= i < |s.c.maps| ==> s.c.maps[i].fileName == job.names[i])
    && (forall i :: 0 <= i < |s.c.maps| && s.c.maps[i].status == Done ==> MapFilesThere(job, s, i, job.nReduce))
    && (forall r :: 0 <= r < |s.c.reduces| && s.c.reduces[r].status == Done ==> r in s.outs)
  }

  ghost predicate Inv(job: Job, s: State)
    requires job.nReduce > 0
  {
    && CoordRight(job, s) && FilesRight(job, s) && OutsRight(job, s) && SentRight(job, s)
    && forall w :: w in s.workers ==> WorkerRight(job, s, s.workers[w])
  }

  /** Files and outputs only appear, and the map phase only finishes: what is known of a worker or
      a report stays known. */
  ghost predicate Grows(s: State, s': State) {
    && s.files.Keys <= s'.files.Keys && s.outs.Keys <= s'.outs.Keys
    && (s.c.mapFinished ==> s'.c.mapFinished)
  }

  lemma RightGrows(job: Job, s: State, s': State, k: Worker)
    requires job.nReduce > 0 && Grows(s, s') && WorkerRight(job, s, k)
    ensures WorkerRight(job, s', k)
  {
  }

  lemma WorkersGrow(job: Job, s: State, s': State, w: nat, k: Worker)
    requires job.nReduce > 0 && Inv(job, s) && Grows(s, s')
    requires s'.workers == s.workers[w := k] && WorkerRight(job, s', k)
    ensures forall v :: v in s'.workers ==> WorkerRight(job, s', s'.workers[v])
  {
    forall v | v in s'.workers ensures WorkerRight(job, s', s'.workers[v]) {
      if v != w {
        RightGrows(job, s, s', s.workers[v]);
      }
    }
  }

  /** The coordinator hands out tasks that exist, and reduce tasks only when the maps are done. */
  lemma AskKeeps(job: Job, s: State, w: nat, now: int)
    requires job.nReduce > 0 && Inv(job, s) && Enabled(job, s, Ask(w, now))
    ensures Inv(job, Do(job, s, Ask(w, now)))
  {
    var s' := Do(job, s, Ask(w, now));
    var r := GetTask(s.c, now);
    GetTaskPhases(s.c, now);
    AskDone(s.c, now);
    AskReply(s.c, now);
    assert CoordRight(job, s');
    var k := Assigned(r.reply);
    if k.Reducing? {
      assert BucketFiles(MapOutputs(job), job.hash, job.nReduce, k.id)[..0] == [];
    }
    WorkersGrow(job, s, s', w, k);
  }

  /** Asking for a task finishes none. */
  lemma AskDone(c: Coord, now: int)
    ensures var c' := GetTask(c, now).c;
            && |c'.maps| == |c.maps| && |c'.reduces| == |c.reduces|
            && (forall i :: 0 <= i < |c.maps| && c'.maps[i].status == Done ==> c.maps[i].status == Done)
            && (forall i :: 0 <= i < |c.reduces| && c'.reduces[i].status == Done ==> c.reduces[i].status == Done)
  {
  }

  lemma AskReply(c: Coord, now: int)
    requires Phased(c)
    ensures var r := GetTask(c, now);
            && (r.reply.MapJob? ==> r.reply.id < |c.maps| && r.reply.fileName == c.maps[r.reply.id].fileName)
            && (r.reply.ReduceJob? ==> r.c.mapFinished && r.reply.id < |c.reduces| && r.reply.mapTaskNum == |c.maps|)
  {
  }

  /** A report finishes no task but the reported one. */
  lemma ReportDone(c: Coord, kind: Kind, id: nat)
    requires Phased(c)
    ensures var c' := ReportTask(c, kind, id).c;
            && |c'.maps| == |c.maps| && |c'.reduces| == |c.reduces|
            && (forall i :: 0 <= i < |c.maps| && c'.maps[i].status == Done ==>
                  c.maps[i].status == Done || (kind == MapTask && i == id))
            && (forall i :: 0 <= i < |c.reduces| && c'.reduces[i].status == Done ==>
                  c.reduces[i].status == Done || (kind == ReduceTask && i == id))
  {
  }

  lemma ReceiveKeeps(job: Job, s: State, m: Sent)
    requires job.nReduce > 0 && Inv(job, s) && m in s.sent
    ensures Inv(job, Do(job, s, Receive(m)))
  {
    var s' := Do(job, s, Receive(m));
    ReportTaskPhases(s.c, m.kind, m.id);
    ReportDone(s.c, m.kind, m.id);
    assert CoordRight(job, s');
    forall w | w in s'.workers ensures WorkerRight(job, s', s'.workers[w]) {
      RightGrows(job, s, s', s.workers[w]);
    }
  }

  lemma RenameMapKeeps(job: Job, s: State, w: nat)
    requires job.nReduce > 0 && Inv(job, s) && Enabled(job, s, RenameMap(w))
    ensures Inv(job, Do(job, s, RenameMap(w)))
  {
    var s' := Do(job, s, RenameMap(w));
    assert WorkerRight(job, s, s.workers[w]);
    assert FilesRight(job, s');
    WorkersGrow(job, s, s', w, s'.workers[w]);
  }

  /** No reduce task finds a map file missing, and what it reads is its bucket. */
  lemma ReadFileKeeps(job: Job, s: State, w: nat)
    requires job.nReduce > 0 && Inv(job, s) && Enabled(job, s, ReadFile(w))
    ensures Mr(WorkerOf(s, w).read, WorkerOf(s, w).id) in s.files
    ensures Inv(job, Do(job, s, ReadFile(w)))
  {
    var s' := Do(job, s, ReadFile(w));
    var k := s.workers[w];
    assert WorkerRight(job, s, k);
    assert s.c.maps[k.read].status == Done;
    assert MapFilesThere(job, s, k.read, job.nReduce);
    var files := BucketFiles(MapOutputs(job), job.hash, job.nReduce, k.id);
    assert files[..k.read + 1] == files[..k.read] + [files[k.read]];
    FlattenAppend(files[..k.read], files[k.read]);
    WorkersGrow(job, s, s', w, s'.workers[w]);
  }

  lemma RightOutput(job: Job, s: State, w: nat, sorted: seq<KeyValue>, lines: seq<string>)
    requires job.nReduce > 0 && Inv(job, s) && Enabled(job, s, RenameOut(w, sorted, lines))
    ensures OutsRight(job, Do(job, s, RenameOut(w, sorted, lines)))
  {
    var k := s.workers[w];
    assert WorkerRight(job, s, k);
    var files := BucketFiles(MapOutputs(job), job.hash, job.nReduce, k.id);
    assert files[..k.read] == files;
    assert ReduceOutput(MapOutputs(job), job.hash, job.nReduce, k.id, job.reducef, lines);
  }

  lemma RenameOutKeeps(job: Job, s: State, w: nat, sorted: seq<KeyValue>, lines: seq<string>)
    requires job.nReduce > 0 && Inv(job, s) && Enabled(job, s, RenameOut(w, sorted, lines))
    ensures Inv(job, Do(job, s, RenameOut(w, sorted, lines)))
  {
    var s' := Do(job, s, RenameOut(w, sorted, lines));
    RightOutput(job, s, w, sorted, lines);
    WorkersGrow(job, s, s', w, s'.workers[w]);
  }

  lemma SendReportKeeps(job: Job, s: State, w: nat)
    requires job.nReduce > 0 && Inv(job, s) && Enabled(job, s, SendReport(w))
    ensures Inv(job, Do(job, s, SendReport(w)))
  {
    var s' := Do(job, s, SendReport(w));
    assert WorkerRight(job, s, s.workers[w]);
    WorkersGrow(job, s, s', w, Free);
  }

  lemma InvStep(job: Job, s: State, a: Action)
    requires job.nReduce > 0 && Inv(job, s) && Enabled(job, s, a)
    ensures Inv(job, Do(job, s, a))
  {
    match a
    case Ask(w, now) => AskKeeps(job, s, w, now);
    case RenameMap(w) => RenameMapKeeps(job, s, w);
    case ReadFile(w) => ReadFileKeeps(job, s, w);
    case RenameOut(w, sorted, lines) => RenameOutKeeps(job, s, w, sorted, lines);
    case SendReport(w) => SendReportKeeps(job, s, w);
    case Receive(m) => ReceiveKeeps(job, s, m);
    case Crash(w) => WorkersGrow(job, s, Do(job, s, a), w, Free);
  }

  lemma {:induction false} InvRun(job: Job, run: seq<State>, i: nat)
    requires job.nReduce > 0 && IsRun(job, run) && i < |run|
    ensures Inv(job, run[i])
  {
    if i > 0 {
      InvRun(job, run, i - 1);
      assert Next(job, run[i - 1], run[i - 1 + 1]);
      var a :| Enabled(job, run[i - 1], a) && run[i] == Do(job, run[i - 1], a);
      InvStep(job, run[i - 1], a);
    }
  }

  /** In every run, with workers stopping anywhere, timeouts, stragglers renaming files again and
      reports arriving late or twice: no reduce task finds a map file missing, and once everything is
      finished the output files together are a rearrangement of what the sequential program prints. */
  lemma CrashTolerant(job: Job, run: seq<State>, printed: seq<string>)
    requires ValidJob(job) && IsRun(job, run)
    requires SequentialOutput(MapOutputs(job), job.reducef, printed)
    ensures var s := run[|run| - 1];
            && (forall w :: !WorkerOf(s, w).Fatal?)
            && (s.c.allFinished ==>
                  && (forall r :: 0 <= r < job.nReduce ==> r in s.outs)
                  && multiset(Flatten(seq(job.nReduce, r requires 0 <= r < job.nReduce && r in s.outs => s.outs[r]))) ==
                     multiset(printed))
  {
    var s := run[|run| - 1];
    InvRun(job, run, |run| - 1);
    forall w ensures !WorkerOf(s, w).Fatal? {
      assert w in s.workers ==> WorkerRight(job, s, s.workers[w]);
    }
    if s.c.allFinished {
      forall r | 0 <= r < job.nReduce ensures r in s.outs {
        assert s.c.reduces[r].status == Done;
      }
      var outs := seq(job.nReduce, r requires 0 <= r < job.nReduce && r in s.outs => s.outs[r]);
      forall r | 0 <= r < job.nReduce
        ensures ReduceOutput(MapOutputs(job), job.hash, job.nReduce, r, job.reducef, outs[r])
      {
        assert r in s.outs;
      }
      ShuffleRefinesSequential(MapOutputs(job), job.hash, job.nReduce, job.reducef, outs, printed);
    }
  }

  // --- One worker's task, as a loop ---

  type Files = map<FileName, seq<KeyValue>>

  /** The files after the first n buckets of a map task's output were renamed into place. */
  ghost predicate Written(files0: Files, files: Files, id: nat, b: seq<seq<KeyValue>>, n: nat)
    requires n <= |b|
  {
    forall f :: (f in files <==> f in files0 || (f.i == id && f.r < n))
                && (f in files ==> files[f] == if f.i == id && f.r < n then b[f.r] else files0[f])
  }

  /** doMap: bucket the map output and rename one file per reduce task. */
  method DoMap(job: Job, fileName: string, id: nat, files0: Files) returns (files: Files)
    requires job.nReduce > 0
    ensures forall f :: f in files <==> f in files0 || (f.i == id && f.r < job.nReduce)
    ensures forall f :: f in files ==>
              files[f] == if f.i == id && f.r < job.nReduce
                          then BucketOf(job.mapf(fileName, job.contents(fileName)), job.hash, job.nReduce, f.r)
                          else files0[f]
  {
    var intermediate := Buckets(job.mapf(fileName, job.contents(fileName)), job.hash, job.nReduce);
    files := files0;
    for r := 0 to job.nReduce
      invariant Written(files0, files, id, intermediate, r)
    {
      files := files[Mr(id, r) := intermediate[r]];
    }
  }

  datatype ReduceResult = Lines(lines: seq<string>) | MissingFile

  /** The contents of the files a reduce task reads. */
  ghost function TaskFiles(files: Files, id: nat, n: nat): seq<seq<KeyValue>>
    requires forall i: nat :: i < n ==> Mr(i, id) in files
  {
    seq(n, i requires 0 <= i < n => files[Mr(i, id)])
  }

  /** doReduce: read one file per map task, sort, group. */
  method DoReduce(job: Job, id: nat, mapTaskNum: nat, files: Files, sort: seq<KeyValue> -> seq<KeyValue>)
      returns (r: ReduceResult)
    requires forall a :: SortedFrom(sort(a), a)
    ensures r.Lines? <==> forall i: nat :: i < mapTaskNum ==> Mr(i, id) in files
    ensures r.Lines? ==> GroupsTo(sort(Flatten(TaskFiles(files, id, mapTaskNum))), job.reducef, r.lines)
  {
    var ok, intermediate := ReadFiles(id, mapTaskNum, files);
    if !ok {
      return MissingFile;
    }
    var lines := Group(sort(intermediate), job.reducef);
    return Lines(lines);
  }

  /** The reading loop: it stops at the first file that is missing. */
  method ReadFiles(id: nat, n: nat, files: Files) returns (ok: bool, intermediate: seq<KeyValue>)
    ensures ok <==> forall i: nat :: i < n ==> Mr(i, id) in files
    ensures ok ==> intermediate == Flatten(TaskFiles(files, id, n))
  {
    intermediate := [];
    for i := 0 to n
      invariant forall j: nat :: j < i ==> Mr(j, id) in files
      invariant intermediate == Flatten(TaskFiles(files, id, i))
    {
      if Mr(i, id) !in files {
        return false, intermediate;
      }
      TaskFilesNext(files, id, i);
      intermediate := intermediate + files[Mr(i, id)];
    }
    return true, intermediate;
  }

  lemma TaskFilesNext(files: Files, id: nat, i: nat)
    requires forall j: nat :: j < i + 1 ==> Mr(j, id) in files
    ensures Flatten(TaskFiles(files, id, i + 1)) == Flatten(TaskFiles(files, id, i)) + files[Mr(i, id)]
  {
    FlattenAppend(TaskFiles(files, id, i), files[Mr(i, id)]);
    assert TaskFiles(files, id, i + 1) == TaskFiles(files, id, i) + [files[Mr(i, id)]];
  }
}
