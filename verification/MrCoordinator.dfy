/** The MapReduce coordinator: its two task tables, the three request handlers, and the phase
    discipline they keep under any sequence of requests. */
module MrCoordinator {

  datatype Status = Idle | Progressing | Done
  datatype Kind = MapTask | ReduceTask

  /** fileName is empty for reduce tasks; start is meaningful once handed out. */
  datatype Task = Task(fileName: string, id: nat, status: Status, start: int)

  /** The coordinator's fields as a value. */
  datatype Coord = Coord(maps: seq<Task>, reduces: seq<Task>, nReduce: nat, mapFinished: bool, allFinished: bool)

  datatype Reply =
    | MapJob(fileName: string, id: nat, nReduce: nat)
    | ReduceJob(id: nat, nReduce: nat, mapTaskNum: nat)
    | Wait
    | Exit

  const TIMEOUT := 10

  ghost predicate AllDone(tasks: seq<Task>) {
    forall i :: 0 <= i < |tasks| ==> tasks[i].status == Done
  }

  predicate Expired(t: Task, now: int) {
    t.status == Progressing && now - t.start > TIMEOUT
  }

  /** Overdue tasks become idle again. */
  function Expire(tasks: seq<Task>, now: int): seq<Task> {
    seq(|tasks|, i requires 0 <= i < |tasks| =>
      if Expired(tasks[i], now) then tasks[i].(status := Idle) else tasks[i])
  }

  ghost function CheckTimeout(c: Coord, now: int): Coord {
    if c.allFinished then c
    else if !c.mapFinished then c.(maps := Expire(c.maps, now), mapFinished := AllDone(c.maps))
    else c.(reduces := Expire(c.reduces, now), allFinished := AllDone(c.reduces))
  }

  /** The first idle task, or the length of the table when there is none. */
  function FirstIdle(tasks: seq<Task>): (i: nat)
    ensures i <= |tasks|
    ensures i < |tasks| ==> tasks[i].status == Idle
    ensures forall j :: 0 <= j < i ==> tasks[j].status != Idle
    decreases |tasks|
  {
    if tasks == [] then 0
    else
      var i := FirstIdle(tasks[..|tasks| - 1]);
      if i == |tasks| - 1 && tasks[i].status != Idle then |tasks| else i
  }

  function HandOut(tasks: seq<Task>, i: nat, now: int): seq<Task>
    requires i < |tasks|
  {
    tasks[i := tasks[i].(status := Progressing, start := now)]
  }

  datatype Answer = Answer(c: Coord, reply: Reply)

  ghost function GetTask(c: Coord, now: int): Answer {
    Dispatch(CheckTimeout(c, now), now)
  }

  /** Hand out the first idle task of the current phase. */
  ghost function Dispatch(c: Coord, now: int): Answer {
    if c.allFinished then Answer(c, Exit)
    else if !c.mapFinished then
      var i := FirstIdle(c.maps);
      if i == |c.maps| then Answer(c, Wait)
      else Answer(c.(maps := HandOut(c.maps, i, now)), MapJob(c.maps[i].fileName, c.maps[i].id, c.nReduce))
    else
      var i := FirstIdle(c.reduces);
      if i == |c.reduces| then Answer(c, Wait)
      else Answer(c.(reduces := HandOut(c.reduces, i, now)), ReduceJob(c.reduces[i].id, c.nReduce, |c.maps|))
  }

  /** The first task under way with this id, or the length of the table. */
  function Reported(tasks: seq<Task>, id: nat): (i: nat)
    ensures i <= |tasks|
    ensures i < |tasks| ==> tasks[i].status == Progressing && tasks[i].id == id
    ensures forall j :: 0 <= j < i ==> !(tasks[j].status == Progressing && tasks[j].id == id)
    decreases |tasks|
  {
    if tasks == [] then 0
    else
      var i := Reported(tasks[..|tasks| - 1], id);
      if i == |tasks| - 1 && !(tasks[i].status == Progressing && tasks[i].id == id) then |tasks| else i
  }

  function MarkDone(tasks: seq<Task>, i: nat): seq<Task>
    requires i < |tasks|
  {
    tasks[i := tasks[i].(status := Done)]
  }

  datatype Receipt = Receipt(c: Coord, ok: bool)

  ghost function ReportTask(c: Coord, kind: Kind, id: nat): Receipt {
    if kind == MapTask then
      var i := Reported(c.maps, id);
      if i == |c.maps| then Receipt(c, false)
      else Receipt(c.(maps := MarkDone(c.maps, i), mapFinished := AllDone(MarkDone(c.maps, i))), true)
    else
      var i := Reported(c.reduces, id);
      if i == |c.reduces| then Receipt(c, false)
      else Receipt(c.(reduces := MarkDone(c.reduces, i), allFinished := AllDone(MarkDone(c.reduces, i))), true)
  }

  ghost predicate IsInitial(c: Coord, files: seq<string>, nReduce: nat) {
    && |c.maps| == |files| && |c.reduces| == nReduce && c.nReduce == nReduce
    && (forall i :: 0 <= i < |files| ==> c.maps[i] == Task(files[i], i, Idle, 0))
    && (forall i :: 0 <= i < nReduce ==> c.reduces[i] == Task("", i, Idle, 0))
    && !c.mapFinished && !c.allFinished
  }

  class Coordinator {
    var mapTasks: seq<Task>
    var reduceTasks: seq<Task>
    var nReduce: nat
    var mapFinished: bool
    var allFinished: bool

    function Value(): Coord
      reads this
    {
      Coord(mapTasks, reduceTasks, nReduce, mapFinished, allFinished)
    }

    constructor (files: seq<string>, nReduce: nat)
      ensures IsInitial(Value(), files, nReduce)
    {
      this.nReduce := nReduce;
      mapFinished, allFinished := false, false;
      mapTasks := seq(|files|, i requires 0 <= i < |files| => Task(files[i], i, Idle, 0));
      reduceTasks := seq(nReduce, i requires 0 <= i => Task("", i, Idle, 0));
    }

    method CheckTimeoutLoop(now: int)
      modifies this
      ensures Value() == CheckTimeout(old(Value()), now)
    {
      if allFinished {
        return;
      }
      if !mapFinished {
        var tasks, completed := ExpireLoop(mapTasks, now);
        mapTasks, mapFinished := tasks, completed;
        return;
      }
      var tasks, completed := ExpireLoop(reduceTasks, now);
      reduceTasks, allFinished := tasks, completed;
    }

    /** The scan over one table: every overdue task is reset, and the table is complete when every
        task was done on entry. */
    static method ExpireLoop(tasks0: seq<Task>, now: int) returns (tasks: seq<Task>, completed: bool)
      ensures tasks == Expire(tasks0, now)
      ensures completed <==> AllDone(tasks0)
    {
      tasks, completed := tasks0, true;
      for i := 0 to |tasks0|
        invariant |tasks| == |tasks0|
        invariant tasks[..i] == Expire(tasks0, now)[..i] && tasks[i..] == tasks0[i..]
        invariant completed <==> AllDone(tasks0[..i])
      {
        var task := tasks0[i];
        if task.status == Progressing && now - task.start > TIMEOUT {
          tasks := tasks[i := task.(status := Idle)];
        }
        if task.status != Done {
          completed := false;
        }
        assert tasks0[..i + 1] == tasks0[..i] + [task];
      }
      assert tasks0[..|tasks0|] == tasks0;
    }

    method HandleGetTask(now: int) returns (reply: Reply)
      modifies this
      ensures Value() == GetTask(old(Value()), now).c && reply == GetTask(old(Value()), now).reply
    {
      CheckTimeoutLoop(now);
      if allFinished {
        return Exit;
      }
      if !mapFinished {
        for i := 0 to |mapTasks|
          invariant Value() == CheckTimeout(old(Value()), now)
          invariant forall j :: 0 <= j < i ==> mapTasks[j].status != Idle
        {
          if mapTasks[i].status == Idle {
            reply := MapJob(mapTasks[i].fileName, mapTasks[i].id, nReduce);
            mapTasks := mapTasks[i := mapTasks[i].(status := Progressing, start := now)];
            return;
          }
        }
        return Wait;
      }
      for i := 0 to |reduceTasks|
        invariant Value() == CheckTimeout(old(Value()), now)
        invariant forall j :: 0 <= j < i ==> reduceTasks[j].status != Idle
      {
        if reduceTasks[i].status == Idle {
          reply := ReduceJob(reduceTasks[i].id, nReduce, |mapTasks|);
          reduceTasks := reduceTasks[i := reduceTasks[i].(status := Progressing, start := now)];
          return;
        }
      }
      return Wait;
    }

    method HandleReportTask(kind: Kind, id: nat) returns (ok: bool)
      modifies this
      ensures Value() == ReportTask(old(Value()), kind, id).c && ok == ReportTask(old(Value()), kind, id).ok
    {
      if kind == MapTask {
        for i := 0 to |mapTasks|
          invariant Value() == old(Value())
          invariant forall j :: 0 <= j < i ==> !(mapTasks[j].status == Progressing && mapTasks[j].id == id)
        {
          if mapTasks[i].status == Progressing && mapTasks[i].id == id {
            mapTasks := mapTasks[i := mapTasks[i].(status := Done)];
            mapFinished := Completed(mapTasks);
            return true;
          }
        }
      } else {
        for i := 0 to |reduceTasks|
          invariant Value() == old(Value())
          invariant forall j :: 0 <= j < i ==> !(reduceTasks[j].status == Progressing && reduceTasks[j].id == id)
        {
          if reduceTasks[i].status == Progressing && reduceTasks[i].id == id {
            reduceTasks := reduceTasks[i := reduceTasks[i].(status := Done)];
            allFinished := Completed(reduceTasks);
            return true;
          }
        }
      }
      return false;
    }

    static method Completed(tasks: seq<Task>) returns (completed: bool)
      ensures completed <==> AllDone(tasks)
    {
      completed := true;
      for i := 0 to |tasks|
        invariant forall j :: 0 <= j < i ==> tasks[j].status == Done
      {
        if tasks[i].status != Done {
          return false;
        }
      }
    }
  }

  // --- Phases, under any sequence of requests ---

  datatype Request = Get(now: int) | Report(kind: Kind, id: nat)

  /** A coordinator with, for every task, how often it was handed out, how often it expired, and the time of the last
      reply that named it. */
  datatype Counts = Counts(handed: seq<nat>, expired: seq<nat>, last: seq<int>)
  datatype Tracked = Tracked(c: Coord, maps: Counts, reduces: Counts)

  /** Whether the reply hands out the task. */
  predicate Names(reply: Reply, kind: Kind, id: nat) {
    if kind == MapTask then reply.MapJob? && reply.id == id else reply.ReduceJob? && reply.id == id
  }

  /** Count what a request for a task did to one table. */
  ghost function Count(n: Counts, kind: Kind, before: seq<Task>, checked: seq<Task>, after: seq<Task>, reply: Reply,
                       now: int): Counts
    requires |before| == |checked| == |after| == |n.handed| == |n.expired| == |n.last|
  {
    Counts(seq(|before|, i requires 0 <= i < |before| =>
             n.handed[i] + if checked[i].status == Idle && after[i].status == Progressing then 1 else 0),
           seq(|before|, i requires 0 <= i < |before| =>
             n.expired[i] + if before[i].status == Progressing && checked[i].status == Idle then 1 else 0),
           seq(|before|, i requires 0 <= i < |before| => if Names(reply, kind, i) then now else n.last[i]))
  }

  ghost predicate Sized(t: Tracked) {
    && |t.maps.handed| == |t.maps.expired| == |t.maps.last| == |t.c.maps|
    && |t.reduces.handed| == |t.reduces.expired| == |t.reduces.last| == |t.c.reduces|
  }

  ghost function After(c: Coord, q: Request): Coord {
    match q
    case Get(now) => GetTask(c, now).c
    case Report(kind, id) => ReportTask(c, kind, id).c
  }

  ghost function Serve(t: Tracked, q: Request): Tracked
    requires Sized(t)
  {
    match q
    case Get(now) =>
      var checked, answer := CheckTimeout(t.c, now), GetTask(t.c, now);
      Tracked(answer.c, Count(t.maps, MapTask, t.c.maps, checked.maps, answer.c.maps, answer.reply, now),
              Count(t.reduces, ReduceTask, t.c.reduces, checked.reduces, answer.c.reduces, answer.reply, now))
    case Report(kind, id) => t.(c := ReportTask(t.c, kind, id).c)
  }

  ghost predicate Phased(c: Coord) {
    && c.nReduce == |c.reduces|
    && (forall i :: 0 <= i < |c.maps| ==> c.maps[i].id == i)
    && (forall i :: 0 <= i < |c.reduces| ==> c.reduces[i].id == i)
    && (c.mapFinished ==> AllDone(c.maps))
    && (c.allFinished ==> c.mapFinished && AllDone(c.reduces))
    && (!c.mapFinished ==> forall i :: 0 <= i < |c.reduces| ==> c.reduces[i].status == Idle)
  }

  /** What no request undoes. */
  ghost predicate Progresses(c: Coord, c': Coord) {
    && |c'.maps| == |c.maps| && |c'.reduces| == |c.reduces| && c'.nReduce == c.nReduce
    && (forall i :: 0 <= i < |c.maps| ==> c'.maps[i].fileName == c.maps[i].fileName)
    && (forall i :: 0 <= i < |c.maps| && c.maps[i].status == Done ==> c'.maps[i].status == Done)
    && (forall i :: 0 <= i < |c.reduces| && c.reduces[i].status == Done ==> c'.reduces[i].status == Done)
    && (c.mapFinished ==> c'.mapFinished)
    && (c.allFinished ==> c'.allFinished)
  }

  lemma GetTaskPhases(c: Coord, now: int)
    requires Phased(c)
    ensures Phased(GetTask(c, now).c) && Progresses(c, GetTask(c, now).c)
  {
    TimeoutPhases(c, now);
    DispatchPhases(CheckTimeout(c, now), now);
    ProgressesTransitive(c, CheckTimeout(c, now), GetTask(c, now).c);
  }

  lemma TimeoutPhases(c: Coord, now: int)
    requires Phased(c)
    ensures Phased(CheckTimeout(c, now)) && Progresses(c, CheckTimeout(c, now))
  {
  }

  lemma DispatchPhases(c: Coord, now: int)
    requires Phased(c)
    ensures Phased(Dispatch(c, now).c) && Progresses(c, Dispatch(c, now).c)
  {
  }

  lemma ReportTaskPhases(c: Coord, kind: Kind, id: nat)
    requires Phased(c)
    ensures Phased(ReportTask(c, kind, id).c) && Progresses(c, ReportTask(c, kind, id).c)
  {
  }

  /** Every hand-out but the current one ended in an expiry, and the table knows when the current one was. */
  ghost predicate Balanced(n: Counts, tasks: seq<Task>) {
    && |n.handed| == |n.expired| == |n.last| == |tasks|
    && (forall i :: 0 <= i < |tasks| ==> n.handed[i] == n.expired[i] + if tasks[i].status == Idle then 0 else 1)
    && (forall i :: 0 <= i < |tasks| && tasks[i].status == Progressing ==> tasks[i].start == n.last[i])
  }

  ghost predicate TrackedInv(t: Tracked) {
    Phased(t.c) && Balanced(t.maps, t.c.maps) && Balanced(t.reduces, t.c.reduces)
  }

  lemma CountKeeps(n: Counts, kind: Kind, before: seq<Task>, checked: seq<Task>, after: seq<Task>, reply: Reply,
                   now: int)
    requires Balanced(n, before) && |checked| == |after| == |before|
    requires forall i :: 0 <= i < |before| ==>
      checked[i] == before[i] || (before[i].status == Progressing && checked[i].status == Idle)
    requires forall i :: 0 <= i < |before| ==>
      if Names(reply, kind, i) then checked[i].status == Idle && after[i].status == Progressing && after[i].start == now
      else after[i] == checked[i]
    ensures Balanced(Count(n, kind, before, checked, after, reply, now), after)
  {
  }

  /** What the two halves of a request do to each task. */
  lemma TimeoutTasks(c: Coord, now: int)
    ensures var c' := CheckTimeout(c, now);
            && |c'.maps| == |c.maps| && |c'.reduces| == |c.reduces|
            && (forall i :: 0 <= i < |c.maps| ==>
                  c'.maps[i] == c.maps[i] || (c.maps[i].status == Progressing && c'.maps[i].status == Idle))
            && (forall i :: 0 <= i < |c.reduces| ==>
                  c'.reduces[i] == c.reduces[i] || (c.reduces[i].status == Progressing && c'.reduces[i].status == Idle))
  {
  }

  lemma DispatchTasks(c: Coord, now: int)
    requires Phased(c)
    ensures var r := Dispatch(c, now);
            && |r.c.maps| == |c.maps| && |r.c.reduces| == |c.reduces|
            && (forall i :: 0 <= i < |c.maps| ==>
                  if Names(r.reply, MapTask, i)
                  then c.maps[i].status == Idle && r.c.maps[i].status == Progressing && r.c.maps[i].start == now
                  else r.c.maps[i] == c.maps[i])
            && (forall i :: 0 <= i < |c.reduces| ==>
                  if Names(r.reply, ReduceTask, i)
                  then c.reduces[i].status == Idle && r.c.reduces[i].status == Progressing
                       && r.c.reduces[i].start == now
                  else r.c.reduces[i] == c.reduces[i])
  {
  }

  lemma ServeKeeps(t: Tracked, q: Request)
    requires TrackedInv(t)
    ensures TrackedInv(Serve(t, q)) && Progresses(t.c, Serve(t, q).c)
    ensures Serve(t, q).c == After(t.c, q)
  {
    match q
    case Get(now) =>
      GetTaskPhases(t.c, now);
      GetKeepsCounts(t, now);
    case Report(kind, id) =>
      ReportTaskPhases(t.c, kind, id);
      ReportKeepsCounts(t, kind, id);
  }

  lemma GetKeepsCounts(t: Tracked, now: int)
    requires TrackedInv(t)
    ensures var t' := Serve(t, Get(now));
            Balanced(t'.maps, t'.c.maps) && Balanced(t'.reduces, t'.c.reduces)
  {
    var checked, answer := CheckTimeout(t.c, now), GetTask(t.c, now);
    TimeoutTasks(t.c, now);
    TimeoutPhases(t.c, now);
    DispatchTasks(checked, now);
    CountKeeps(t.maps, MapTask, t.c.maps, checked.maps, answer.c.maps, answer.reply, now);
    CountKeeps(t.reduces, ReduceTask, t.c.reduces, checked.reduces, answer.c.reduces, answer.reply, now);
  }

  lemma ReportKeepsCounts(t: Tracked, kind: Kind, id: nat)
    requires TrackedInv(t)
    ensures var t' := Serve(t, Report(kind, id));
            Balanced(t'.maps, t'.c.maps) && Balanced(t'.reduces, t'.c.reduces)
  {
  }

  ghost function NoCounts(n: nat): Counts {
    Counts(seq(n, _ => 0), seq(n, _ => 0), seq(n, _ => 0))
  }

  ghost predicate IsRun(run: seq<Tracked>, qs: seq<Request>) {
    && |run| == |qs| + 1
    && (exists files, n :: IsInitial(run[0].c, files, n))
    && run[0].maps == NoCounts(|run[0].c.maps|) && run[0].reduces == NoCounts(|run[0].c.reduces|)
    && forall i :: 0 <= i < |qs| ==> Sized(run[i]) && run[i + 1] == Serve(run[i], qs[i])
  }

  lemma {:induction false} TrackedRun(run: seq<Tracked>, qs: seq<Request>, i: nat)
    requires IsRun(run, qs) && i < |run|
    ensures TrackedInv(run[i])
  {
    if i > 0 {
      TrackedRun(run, qs, i - 1);
      assert run[i - 1 + 1] == Serve(run[i - 1], qs[i - 1]);
      ServeKeeps(run[i - 1], qs[i - 1]);
    }
  }

  lemma ProgressesTransitive(a: Coord, b: Coord, c: Coord)
    requires Progresses(a, b) && Progresses(b, c)
    ensures Progresses(a, c)
  {
  }

  lemma RequestProgresses(run: seq<Tracked>, qs: seq<Request>, i: nat)
    requires IsRun(run, qs) && i < |qs|
    ensures Progresses(run[i].c, run[i + 1].c)
  {
    TrackedRun(run, qs, i);
    ServeKeeps(run[i], qs[i]);
  }

  /** In every run, whatever is requested and reported and whenever: finished tasks and finished
      phases stay finished. */
  lemma {:induction false} NothingReverts(run: seq<Tracked>, qs: seq<Request>, i: nat, j: nat)
    requires IsRun(run, qs) && i <= j < |run|
    ensures Progresses(run[i].c, run[j].c)
    decreases j - i
  {
    if i < j {
      NothingReverts(run, qs, i, j - 1);
      RequestProgresses(run, qs, j - 1);
      ProgressesTransitive(run[i].c, run[j - 1].c, run[j].c);
    }
  }

  /** The counts are of replies: a task's count rises, by one, exactly when a reply names it. */
  lemma CountsReplies(t: Tracked, now: int, id: nat)
    requires TrackedInv(t)
    ensures var reply := GetTask(t.c, now).reply; var t' := Serve(t, Get(now));
            && (id < |t.c.maps| ==>
                  && id < |t'.maps.handed|
                  && t'.maps.handed[id] == t.maps.handed[id] + if Names(reply, MapTask, id) then 1 else 0)
            && (id < |t.c.reduces| ==>
                  && id < |t'.reduces.handed|
                  && t'.reduces.handed[id] == t.reduces.handed[id] + if Names(reply, ReduceTask, id) then 1 else 0)
  {
    var c := CheckTimeout(t.c, now);
    TimeoutPhases(t.c, now);
    DispatchTasks(c, now);
    TimeoutTasks(t.c, now);
  }

  /** In every state of every run: a finished phase has all its tasks done, and a task has been handed out as often
      as it expired, and once more unless it is idle. For every request: a reduce task is handed out only
      when all map tasks are done, exit is answered only when everything is, and hand-outs are what is counted. */
  lemma PhaseDiscipline(run: seq<Tracked>, qs: seq<Request>, k: nat)
    requires IsRun(run, qs) && k < |run|
    ensures var c := run[k].c;
            && (c.mapFinished ==> AllDone(c.maps))
            && (c.allFinished ==> AllDone(c.maps) && AllDone(c.reduces))
            && Balanced(run[k].maps, c.maps) && Balanced(run[k].reduces, c.reduces)
    ensures k < |qs| && qs[k].Get? ==>
              var reply := GetTask(run[k].c, qs[k].now).reply;
              && (reply.ReduceJob? ==> AllDone(run[k].c.maps))
              && (reply.Exit? ==> AllDone(run[k].c.maps) && AllDone(run[k].c.reduces))
  {
    TrackedRun(run, qs, k);
  }

  /** In every run, over every request, the hand-out counts are the numbers of replies that named the task. */
  lemma HandOutsAreReplies(run: seq<Tracked>, qs: seq<Request>, k: nat, id: nat)
    requires IsRun(run, qs) && k < |qs|
    ensures |run[k + 1].maps.handed| == |run[k].maps.handed| && |run[k + 1].reduces.handed| == |run[k].reduces.handed|
    ensures id < |run[k].maps.handed| ==>
              run[k + 1].maps.handed[id] == run[k].maps.handed[id] +
                if qs[k].Get? && Names(GetTask(run[k].c, qs[k].now).reply, MapTask, id) then 1 else 0
    ensures id < |run[k].reduces.handed| ==>
              run[k + 1].reduces.handed[id] == run[k].reduces.handed[id] +
                if qs[k].Get? && Names(GetTask(run[k].c, qs[k].now).reply, ReduceTask, id) then 1 else 0
  {
    TrackedRun(run, qs, k);
    TrackedRun(run, qs, k + 1);
    RequestProgresses(run, qs, k);
    if qs[k].Get? {
      CountsReplies(run[k], qs[k].now, id);
    }
  }

  // --- Timeouts, by the times of the replies ---

  /** Under way, and handed out more than ten seconds ago. */
  ghost predicate Overdue(n: Counts, tasks: seq<Task>, id: nat, now: int)
    requires id < |tasks| && id < |n.last|
  {
    tasks[id].status == Progressing && now - n.last[id] > 10
  }

  /** Under way, and handed out within the last ten seconds. */
  ghost predicate Fresh(n: Counts, tasks: seq<Task>, id: nat, now: int)
    requires id < |tasks| && id < |n.last|
  {
    tasks[id].status == Progressing && now - n.last[id] <= 10
  }

  /** What a request at a time does to the counts and the table of one kind. */
  ghost predicate TimedRight(n: Counts, tasks: seq<Task>, n': Counts, tasks': seq<Task>, kind: Kind, reply: Reply,
                             now: int, id: nat) {
    && id < |tasks| && id < |n.last| && id < |n.expired| && id < |tasks'| && id < |n'.expired| && id < |n'.last|
    && n'.expired[id] == n.expired[id] + (if Overdue(n, tasks, id, now) then 1 else 0)
    && (Fresh(n, tasks, id, now) ==> tasks'[id].status == Progressing && !Names(reply, kind, id))
    && (Names(reply, kind, id) ==> tasks[id].status == Idle || Overdue(n, tasks, id, now))
    && (tasks[id].status == Done ==> tasks'[id].status == Done)
    && n'.last[id] == (if Names(reply, kind, id) then now else n.last[id])
  }

  lemma TimedStep(t: Tracked, now: int, id: nat)
    requires TrackedInv(t)
    ensures var t' := Serve(t, Get(now)); var reply := GetTask(t.c, now).reply;
            && (id < |t.c.maps| ==> TimedRight(t.maps, t.c.maps, t'.maps, t'.c.maps, MapTask, reply, now, id))
            && (id < |t.c.reduces| ==>
                  TimedRight(t.reduces, t.c.reduces, t'.reduces, t'.c.reduces, ReduceTask, reply, now, id))
  {
    TimeoutTasks(t.c, now);
    TimeoutPhases(t.c, now);
    DispatchTasks(CheckTimeout(t.c, now), now);
  }

  /** In every run, at every request and for every task: a task under way expires if and only if the last reply that
      named it is more than ten seconds old; otherwise it stays under way and is not handed out. */
  lemma TimeoutsExactly(run: seq<Tracked>, qs: seq<Request>, k: nat, id: nat)
    requires IsRun(run, qs) && k < |qs| && qs[k].Get?
    ensures var t, t', now := run[k], run[k + 1], qs[k].now; var reply := GetTask(t.c, now).reply;
            && (id < |t.c.maps| ==> TimedRight(t.maps, t.c.maps, t'.maps, t'.c.maps, MapTask, reply, now, id))
            && (id < |t.c.reduces| ==>
                  TimedRight(t.reduces, t.c.reduces, t'.reduces, t'.c.reduces, ReduceTask, reply, now, id))
  {
    TrackedRun(run, qs, k);
    TimedStep(run[k], qs[k].now, id);
  }

  /** Neither idle nor overdue: nothing to hand out. */
  ghost predicate Busy(n: Counts, tasks: seq<Task>, upto: nat, now: int) {
    && |n.last| == |tasks| && upto <= |tasks|
    && forall i :: 0 <= i < upto ==> tasks[i].status == Done || Fresh(n, tasks, i, now)
  }

  /** Which reply a request gets: of the first phase that is not done, the first task that is idle or overdue, with what
      the worker needs to do it; wait if there is none; exit when both phases are known to be done. */
  ghost predicate ReplyRight(t: Tracked, reply: Reply, now: int) {
    match reply
    case MapJob(fileName, id, nReduce) =>
      && id < |t.c.maps| && fileName == t.c.maps[id].fileName && nReduce == |t.c.reduces|
      && Busy(t.maps, t.c.maps, id, now) && (t.c.maps[id].status == Idle || Overdue(t.maps, t.c.maps, id, now))
    case ReduceJob(id, nReduce, mapTaskNum) =>
      && AllDone(t.c.maps) && id < |t.c.reduces| && nReduce == |t.c.reduces| && mapTaskNum == |t.c.maps|
      && Busy(t.reduces, t.c.reduces, id, now)
      && (t.c.reduces[id].status == Idle || Overdue(t.reduces, t.c.reduces, id, now))
    case Wait =>
      if AllDone(t.c.maps) then Busy(t.reduces, t.c.reduces, |t.c.reduces|, now)
      else Busy(t.maps, t.c.maps, |t.c.maps|, now)
    case Exit => AllDone(t.c.maps) && AllDone(t.c.reduces)
  }

  lemma ReplyStep(t: Tracked, now: int)
    requires TrackedInv(t)
    ensures ReplyRight(t, GetTask(t.c, now).reply, now)
  {
    var checked := CheckTimeout(t.c, now);
    TimeoutPhases(t.c, now);
    CheckedTasks(t, now);
  }

  /** After the timeout check a task is not idle exactly if it is done or fresh. */
  lemma CheckedTasks(t: Tracked, now: int)
    requires TrackedInv(t)
    ensures var c := CheckTimeout(t.c, now);
            && |c.maps| == |t.c.maps| && |c.reduces| == |t.c.reduces| && c.nReduce == |c.reduces|
            && (c.mapFinished <==> AllDone(t.c.maps))
            && (c.allFinished <==> t.c.allFinished || (t.c.mapFinished && AllDone(t.c.reduces)))
            && (forall i :: 0 <= i < |c.maps| ==>
                  && c.maps[i].fileName == t.c.maps[i].fileName && c.maps[i].id == i
                  && (c.maps[i].status != Idle <==> t.c.maps[i].status == Done || Fresh(t.maps, t.c.maps, i, now)))
            && (forall i :: 0 <= i < |c.reduces| ==>
                  && c.reduces[i].id == i
                  && (c.reduces[i].status != Idle <==>
                        t.c.reduces[i].status == Done || Fresh(t.reduces, t.c.reduces, i, now)))
  {
  }

  /** In every run every request gets the right reply, and sets the finished flags exactly when their phase is done. */
  lemma RepliesExactly(run: seq<Tracked>, qs: seq<Request>, k: nat)
    requires IsRun(run, qs) && k < |qs| && qs[k].Get?
    ensures var t, c', now := run[k], run[k + 1].c, qs[k].now; var reply := GetTask(t.c, now).reply;
            && ReplyRight(t, reply, now) && (reply.Exit? <==> c'.allFinished)
            && (c'.mapFinished <==> AllDone(t.c.maps))
            && (c'.allFinished <==> t.c.allFinished || (t.c.mapFinished && AllDone(t.c.reduces)))
  {
    TrackedRun(run, qs, k);
    ReplyStep(run[k], qs[k].now);
    CheckedTasks(run[k], qs[k].now);
  }

  /** In every run a report is confirmed if and only if its task is under way; then exactly that task is done, and its
      phase is finished if and only if no task of it is left; otherwise nothing changes. */
  lemma ReportsExactly(run: seq<Tracked>, qs: seq<Request>, k: nat)
    requires IsRun(run, qs) && k < |qs| && qs[k].Report?
    ensures var c, c', kind, id := run[k].c, run[k + 1].c, qs[k].kind, qs[k].id;
            var tasks := if kind == MapTask then c.maps else c.reduces;
            var tasks' := if kind == MapTask then c'.maps else c'.reduces;
            && (ReportTask(c, kind, id).ok <==> id < |tasks| && tasks[id].status == Progressing)
            && (!ReportTask(c, kind, id).ok ==> c' == c)
            && (ReportTask(c, kind, id).ok ==>
                  && tasks' == tasks[id := tasks[id].(status := Done)]
                  && (if kind == MapTask then c'.reduces == c.reduces && (c'.mapFinished <==> AllDone(tasks'))
                      else c'.maps == c.maps && (c'.allFinished <==> AllDone(tasks'))))
  {
    TrackedRun(run, qs, k);
    ReportStep(run[k].c, qs[k].kind, qs[k].id);
  }

  lemma ReportStep(c: Coord, kind: Kind, id: nat)
    requires Phased(c)
    ensures var r := ReportTask(c, kind, id);
            var tasks := if kind == MapTask then c.maps else c.reduces;
            var tasks' := if kind == MapTask then r.c.maps else r.c.reduces;
            && (r.ok <==> id < |tasks| && tasks[id].status == Progressing)
            && (!r.ok ==> r.c == c)
            && (r.ok ==>
                  && tasks' == tasks[id := tasks[id].(status := Done)]
                  && (if kind == MapTask then r.c.reduces == c.reduces && (r.c.mapFinished <==> AllDone(tasks'))
                      else r.c.maps == c.maps && (r.c.allFinished <==> AllDone(tasks'))))
  {
  }
}
