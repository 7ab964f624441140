/** Reconfigurations and workers interleaved: a load writes the configuration
    without the lock and then restarts under it; every worker looks, works and
    reports in steps of its own. */
module KeyGenLifecycle {
  import opened Wrappers
  import opened History
  import K = KeyGen
  import W = Workload
  import Q = MemQWorker

  datatype Then = Again | ThenGone | ThenQuit

  // Where a worker is: about to look at its context, waiting for the queue's
  // reply, making a key, about to write a line, about to end the process.
  datatype At = Checking | Asking | Generating | Saying(text: K.Text, next: Then) | Quitting | Gone

  // What a worker has seen so far is kept in `polls` or in `turns`; `late` counts
  // the finished items it has reported since it was cancelled.
  datatype Proc = Proc(at: At, generated: nat, polls: seq<W.Poll>, turns: seq<Q.Turn>, late: nat)

  datatype LoadAt = Called | Wrote | Loaded

  datatype Load = Load(c: W.Config, at: LoadAt)

  datatype Sys = Sys(kg: K.State, procs: seq<Proc>, loads: seq<Load>, log: seq<K.Line>, exited: bool)

  const INIT := Sys(K.INIT, [], [], [], false)

  const NEW_PROC := Proc(Saying(K.Starting, Again), 0, [], [], 0)

  datatype Step =
    | Call(c: W.Config)
    | Write(l: nat)
    | Restart(l: nat)
    | Look(j: nat, expired: bool, pickContext: bool)
    | Hear(j: nat, reply: Q.Reply)
    | Make(j: nat)
    | Say(j: nat)
    | Quit(j: nat)

  predicate OfWorker(e: Step) {
    e.Look? || e.Hear? || e.Make? || e.Say? || e.Quit?
  }

  predicate Enabled(s: Sys, e: Step) {
    !s.exited &&
    match e
    case Call(_) => true
    case Write(l) => l < |s.loads| && s.loads[l].at.Called?
    case Restart(l) => l < |s.loads| && s.loads[l].at.Wrote?
    case Look(j, _, _) => j < |s.procs| && s.procs[j].at.Checking? && j < |s.kg.jobs|
    case Hear(j, _) => j < |s.procs| && s.procs[j].at.Asking? && j < |s.kg.jobs|
    case Make(j) => j < |s.procs| && s.procs[j].at.Generating?
    case Say(j) => j < |s.procs| && s.procs[j].at.Saying? && j < |s.kg.jobs|
    case Quit(j) => j < |s.procs| && s.procs[j].at.Quitting?
  }

  // ---- A worker's own steps ----

  function Looked(job: K.Job, p: Proc, expired: bool, pickContext: bool): Proc {
    if job.kind.Local? then
      var poll := W.Poll(job.cancelled, expired, pickContext);
      var end := W.Checked(job.c, W.Progress(p.generated, W.Running), poll);
      p.(polls := p.polls + [poll],
         at := if end.Running? then Generating
                else Saying(K.Exiting, if W.Exits(job.c, end) then ThenQuit else ThenGone))
    else if job.cancelled then
      p.(turns := p.turns + [Q.Cancelled], at := Saying(K.Exiting, ThenGone))
    else p.(at := Asking)
  }

  function Heard(job: K.Job, p: Proc, reply: Q.Reply): Proc {
    p.(turns := p.turns + [Q.Asked(reply)],
       at := match reply
             case Trouble => Saying(K.Retrying, Again)
             case Empty => if job.c.exitOnComplete then Quitting else Saying(K.Retrying, Again)
             case Item(_) => Generating)
  }

  function Said(job: K.Job, p: Proc): Proc
    requires p.at.Saying?
  {
    p.(at := match p.at.next case Again => Checking case ThenGone => Gone case ThenQuit => Quitting,
       late := if job.cancelled && p.at.text.ItemDone? then p.late + 1 else p.late)
  }

  function Act(s: Sys, e: Step): Sys
    requires Enabled(s, e)
  {
    match e
    case Call(c) => s.(loads := s.loads + [Load(c, Called)])
    case Write(l) =>
      s.(kg := s.kg.(config := s.loads[l].c), loads := s.loads[l := s.loads[l].(at := Wrote)])
    case Restart(l) =>
      s.(kg := K.Restarted(s.kg), loads := s.loads[l := s.loads[l].(at := Loaded)],
         procs := if s.kg.config.enable then s.procs + [NEW_PROC] else s.procs)
    case Look(j, expired, pickContext) =>
      s.(procs := s.procs[j := Looked(s.kg.jobs[j], s.procs[j], expired, pickContext)])
    case Hear(j, reply) =>
      s.(procs := s.procs[j := Heard(s.kg.jobs[j], s.procs[j], reply)])
    case Make(j) =>
      s.(procs := s.procs[j := s.procs[j].(generated := s.procs[j].generated + 1, at := Saying(K.ItemDone, Again))])
    case Say(j) =>
      var line := K.Line(j, s.procs[j].at.text);
      s.(kg := K.Output(s.kg, line), log := s.log + [line], procs := s.procs[j := Said(s.kg.jobs[j], s.procs[j])])
    case Quit(j) =>
      s.(exited := true, procs := s.procs[j := s.procs[j].(at := Gone)])
  }

  predicate Runs(s: Sys, steps: seq<Step>)
    decreases |steps|
  {
    |steps| > 0 ==> Enabled(s, steps[0]) && Runs(Act(s, steps[0]), steps[1..])
  }

  function After(s: Sys, steps: seq<Step>): Sys
    requires Runs(s, steps)
    decreases |steps|
  {
    if |steps| == 0 then s else After(Act(s, steps[0]), steps[1..])
  }

  // ---- What holds of each worker ----

  predicate Ended(at: At) {
    at.Gone? || at.Quitting? || (at.Saying? && !at.next.Again?)
  }

  // The items a worker still reports without looking at its context again.
  function Pending(at: At): nat {
    if at.Asking? || at.Generating? || (at.Saying? && at.text.ItemDone?) then 1 else 0
  }

  predicate LateOk(job: K.Job, p: Proc) {
    if job.cancelled then p.late + Pending(p.at) <= 1 else p.late == 0
  }

  // The worker is where its loop is after all it has seen.
  ghost predicate InLoop(job: K.Job, p: Proc) {
    var made := if p.at.Generating? then p.generated + 1 else p.generated;
    match job.kind
    case Local(_) =>
      var w := W.Work(job.c, p.polls);
      && !p.at.Asking? && w.generated == made && (w.end.Running? <==> !Ended(p.at))
      && (p.at.Quitting? ==> W.Exits(job.c, w.end))
      && (p.at.Saying? && p.at.next.ThenQuit? ==> W.Exits(job.c, w.end))
    case Consumer =>
      var w := Q.Work(p.turns, job.c.exitOnComplete);
      && |w.items| == made && (w.end.Running? <==> !Ended(p.at))
      && (p.at.Quitting? ==> w.end.Exited?)
      && (p.at.Saying? ==> !p.at.next.ThenQuit?)
  }

  ghost predicate WorkerOk(job: K.Job, p: Proc) {
    LateOk(job, p) && InLoop(job, p)
  }

  lemma LookKeepsOk(job: K.Job, p: Proc, expired: bool, pickContext: bool)
    requires WorkerOk(job, p) && p.at.Checking?
    ensures WorkerOk(job, Looked(job, p, expired, pickContext))
  {
    var p' := Looked(job, p, expired, pickContext);
    if job.kind.Local? {
      assert p'.polls[..|p.polls|] == p.polls;
    } else if job.cancelled {
      assert p'.turns[..|p.turns|] == p.turns;
    }
  }

  lemma HearKeepsOk(job: K.Job, p: Proc, reply: Q.Reply)
    requires WorkerOk(job, p) && p.at.Asking?
    ensures WorkerOk(job, Heard(job, p, reply))
  {
    var p' := Heard(job, p, reply);
    assert p'.turns[..|p.turns|] == p.turns;
  }

  lemma SayKeepsOk(job: K.Job, p: Proc)
    requires WorkerOk(job, p) && p.at.Saying?
    ensures WorkerOk(job, Said(job, p))
  {
  }

  lemma CancelKeepsOk(job: K.Job, p: Proc)
    requires WorkerOk(job, p)
    ensures WorkerOk(job.(cancelled := true), p)
  {
  }

  // ---- What holds of the whole ----

  ghost predicate WorkersOk(s: Sys) {
    |s.procs| == |s.kg.jobs| && forall j :: 0 <= j < |s.procs| ==> WorkerOk(s.kg.jobs[j], s.procs[j])
  }

  // Unless a load has written but not yet restarted, the live worker is right.
  ghost predicate LoadsOk(s: Sys) {
    K.UpToDate(s.kg) || exists l :: 0 <= l < |s.loads| && s.loads[l].at.Wrote?
  }

  function Numbered(log: seq<K.Line>): (r: seq<K.Entry>)
    ensures |r| == |log| && forall i :: 0 <= i < |r| ==> r[i] == K.Entry(i, log[i])
  {
    seq(|log|, i requires 0 <= i < |log| => K.Entry(i, log[i]))
  }

  predicate HistoryOk(s: Sys) {
    s.kg.nextHistoryID == |s.log| && s.kg.history == Window(Numbered(s.log))
  }

  ghost predicate Inv(s: Sys) {
    K.OneLive(s.kg) && K.CancelOk(s.kg) && WorkersOk(s) && LoadsOk(s) && HistoryOk(s)
  }

  lemma RestartKeepsWorkers(s: Sys, l: nat)
    requires WorkersOk(s) && Enabled(s, Restart(l))
    ensures WorkersOk(Act(s, Restart(l)))
  {
    var s' := Act(s, Restart(l));
    forall j | 0 <= j < |s'.procs| ensures WorkerOk(s'.kg.jobs[j], s'.procs[j]) {
      if j < |s.procs| {
        CancelKeepsOk(s.kg.jobs[j], s.procs[j]);
      }
    }
  }

  lemma WorkerStepKeepsWorkers(s: Sys, e: Step)
    requires WorkersOk(s) && Enabled(s, e) && OfWorker(e)
    ensures WorkersOk(Act(s, e))
  {
    var s' := Act(s, e);
    var job, p := s.kg.jobs[e.j], s.procs[e.j];
    assert WorkerOk(job, p);
    match e {
      case Look(_, expired, pickContext) => LookKeepsOk(job, p, expired, pickContext);
      case Hear(_, reply) => HearKeepsOk(job, p, reply);
      case Make(_) =>
      case Say(_) => SayKeepsOk(job, p);
      case Quit(_) =>
    }
    assert WorkerOk(job, s'.procs[e.j]);
    hide WorkerOk;
  }

  lemma SayKeepsHistory(s: Sys, j: nat)
    requires HistoryOk(s) && Enabled(s, Say(j))
    ensures HistoryOk(Act(s, Say(j)))
  {
    var line := K.Line(j, s.procs[j].at.text);
    var entry := K.Entry(|s.log|, line);
    RecordedIsWindow(Numbered(s.log), entry);
    assert Numbered(s.log + [line]) == Numbered(s.log) + [entry];
  }

  lemma LoadStepKeepsLoads(s: Sys, e: Step)
    requires LoadsOk(s) && Enabled(s, e) && (e.Call? || e.Write?)
    ensures LoadsOk(Act(s, e))
  {
    var s' := Act(s, e);
    if e.Write? {
      assert s'.loads[e.l].at.Wrote?;
    } else if l :| 0 <= l < |s.loads| && s.loads[l].at.Wrote? {
      assert s'.loads[l].at.Wrote?;
    }
  }

  lemma WorkerStepFrame(s: Sys, e: Step)
    requires Enabled(s, e) && OfWorker(e)
    ensures var s' := Act(s, e);
            && s'.loads == s.loads && s'.kg.config == s.kg.config && s'.kg.jobs == s.kg.jobs
            && s'.kg.cancel == s.kg.cancel
            && (!e.Say? ==> s'.kg == s.kg && s'.log == s.log)
  {
  }

  lemma StepKeepsInv(s: Sys, e: Step)
    requires Inv(s) && Enabled(s, e)
    ensures Inv(Act(s, e))
  {
    if e.Restart? {
      K.RestartLeavesOneLive(s.kg);
      RestartKeepsWorkers(s, e.l);
      hide WorkersOk, K.OneLive, K.CancelOk, K.UpToDate;
    } else if OfWorker(e) {
      WorkerStepFrame(s, e);
      WorkerStepKeepsWorkers(s, e);
      if e.Say? {
        SayKeepsHistory(s, e.j);
      }
      hide Act, Enabled, WorkersOk;
    } else {
      LoadStepKeepsLoads(s, e);
      hide LoadsOk, WorkerOk;
    }
  }

  lemma {:induction false} RunKeepsInv(s: Sys, steps: seq<Step>)
    requires Inv(s) && Runs(s, steps)
    ensures Inv(After(s, steps))
    decreases |steps|
  {
    hide Inv, Act, Enabled;
    if |steps| > 0 {
      StepKeepsInv(s, steps[0]);
      RunKeepsInv(Act(s, steps[0]), steps[1..]);
    }
  }

  // ---- The theorems ----

  // In every interleaving, at most one started worker has an uncancelled
  // context, and cancelFunc is set exactly when there is one.
  lemma OneLiveWorker(steps: seq<Step>)
    requires Runs(INIT, steps)
    ensures var kg := After(INIT, steps).kg;
            && (forall i, j :: 0 <= i < j < |kg.jobs| ==> kg.jobs[i].cancelled || kg.jobs[j].cancelled)
            && (kg.cancel.Some? <==> exists j :: 0 <= j < |kg.jobs| && !kg.jobs[j].cancelled)
  {
    RunKeepsInv(INIT, steps);
    var kg := After(INIT, steps).kg;
    if kg.cancel.Some? {
      assert !kg.jobs[kg.cancel.value].cancelled;
    }
  }

  // Once every load that wrote its configuration has restarted, the live worker
  // runs the configuration of the last write, if that is enabled at all.
  lemma SettledLoadsAgree(steps: seq<Step>)
    requires Runs(INIT, steps)
    requires var s := After(INIT, steps); forall l :: 0 <= l < |s.loads| ==> !s.loads[l].at.Wrote?
    ensures K.UpToDate(After(INIT, steps).kg)
  {
    RunKeepsInv(INIT, steps);
  }

  // A cancelled worker reports at most one more finished item, and a worker with
  // a limit of n items never makes more than n.
  lemma WorkersKeepLimits(steps: seq<Step>, j: nat)
    requires Runs(INIT, steps) && j < |After(INIT, steps).procs|
    ensures var s := After(INIT, steps);
            && |s.kg.jobs| == |s.procs| && s.procs[j].late <= 1
            && (s.kg.jobs[j].kind.Local? && s.kg.jobs[j].c.numToGen > 0 ==>
                  s.procs[j].generated <= s.kg.jobs[j].c.numToGen)
  {
    RunKeepsInv(INIT, steps);
    var s := After(INIT, steps);
    assert WorkerOk(s.kg.jobs[j], s.procs[j]);
    W.LimitsHold(s.kg.jobs[j].c, s.procs[j].polls);
  }

  // The history is always the last lines of the full output, numbered from zero.
  lemma HistoryIsWindow(steps: seq<Step>)
    requires Runs(INIT, steps)
    ensures var s := After(INIT, steps); s.kg.history == Window(Numbered(s.log)) && s.kg.nextHistoryID == |s.log|
    ensures |After(INIT, steps).kg.history| <= 20
  {
    RunKeepsInv(INIT, steps);
  }

  // ---- What is started, what is reported, and what ends the process ----

  // How many of the first n jobs are workloads of our own.
  function Locals(jobs: seq<K.Job>, n: nat): nat
    requires n <= |jobs|
  {
    if n == 0 then 0 else Locals(jobs, n - 1) + if jobs[n - 1].kind.Local? then 1 else 0
  }

  // A worker takes its work from a queue if its configuration names one and a
  // server, and the others are numbered in the order in which they were started.
  ghost predicate JobsRight(kg: K.State) {
    && (forall j :: 0 <= j < |kg.jobs| ==>
          var job := kg.jobs[j];
          && job.c.enable
          && (job.kind.Consumer? <==> job.c.memQQueue != "" && job.c.memQServer != "")
          && (job.kind.Local? ==> job.kind.id == Locals(kg.jobs, j)))
    && kg.nextWorkloadID == Locals(kg.jobs, |kg.jobs|)
  }

  lemma {:induction false} LocalsSame(a: seq<K.Job>, b: seq<K.Job>, n: nat)
    requires n <= |a| && n <= |b| && forall j :: 0 <= j < n ==> a[j].kind == b[j].kind
    ensures Locals(a, n) == Locals(b, n)
  {
    if n > 0 {
      LocalsSame(a, b, n - 1);
    }
  }

  lemma RestartKeepsJobs(kg: K.State)
    requires JobsRight(kg)
    ensures JobsRight(K.Restarted(kg))
  {
    var next := K.Restarted(kg);
    forall n | 0 <= n <= |kg.jobs| ensures Locals(next.jobs, n) == Locals(kg.jobs, n) {
      LocalsSame(next.jobs, kg.jobs, n);
    }
    forall j | 0 <= j < |kg.jobs| ensures next.jobs[j].kind == kg.jobs[j].kind && next.jobs[j].c == kg.jobs[j].c {
    }
  }

  // How often a worker has written a line.
  function Lines(log: seq<K.Line>, line: K.Line): nat {
    if |log| == 0 then 0 else Lines(log[..|log| - 1], line) + if log[|log| - 1] == line then 1 else 0
  }

  // Every finished item has been reported, but for one about to be.
  predicate ItemsReported(s: Sys, j: nat)
    requires j < |s.procs|
  {
    var p := s.procs[j];
    p.generated == Lines(s.log, K.Line(j, K.ItemDone)) + if p.at.Saying? && p.at.text.ItemDone? then 1 else 0
  }

  // A worker is about to end the process exactly if its loop has ended in that way.
  ghost predicate QuitsRight(job: K.Job, p: Proc) {
    (p.at.Quitting? || (p.at.Saying? && p.at.next.ThenQuit?)) <==>
      if job.kind.Local? then W.Exits(job.c, W.Work(job.c, p.polls).end)
      else Q.Work(p.turns, job.c.exitOnComplete).end.Exited?
  }

  ghost predicate Books(s: Sys) {
    && JobsRight(s.kg) && |s.procs| == |s.kg.jobs|
    && (forall j :: 0 <= j < |s.procs| ==> ItemsReported(s, j))
    && (forall j :: |s.procs| <= j ==> Lines(s.log, K.Line(j, K.ItemDone)) == 0)
    && (!s.exited ==> forall j :: 0 <= j < |s.procs| ==> QuitsRight(s.kg.jobs[j], s.procs[j]))
  }

  lemma LookQuitsRight(job: K.Job, p: Proc, expired: bool, pickContext: bool)
    requires WorkerOk(job, p) && p.at.Checking?
    ensures QuitsRight(job, Looked(job, p, expired, pickContext))
  {
    var p' := Looked(job, p, expired, pickContext);
    if job.kind.Local? {
      assert p'.polls[..|p.polls|] == p.polls;
    } else if job.cancelled {
      assert p'.turns[..|p.turns|] == p.turns;
    }
  }

  lemma HearQuitsRight(job: K.Job, p: Proc, reply: Q.Reply)
    requires WorkerOk(job, p) && p.at.Asking?
    ensures QuitsRight(job, Heard(job, p, reply))
  {
    assert Heard(job, p, reply).turns[..|p.turns|] == p.turns;
  }

  lemma WorkerStepQuitsRight(s: Sys, e: Step)
    requires Inv(s) && Books(s) && Enabled(s, e) && OfWorker(e) && !e.Quit?
    ensures QuitsRight(Act(s, e).kg.jobs[e.j], Act(s, e).procs[e.j])
  {
    var job, p := s.kg.jobs[e.j], s.procs[e.j];
    assert WorkerOk(job, p) && QuitsRight(job, p);
    match e {
      case Look(_, expired, pickContext) => LookQuitsRight(job, p, expired, pickContext);
      case Hear(_, reply) => HearQuitsRight(job, p, reply);
      case Make(_) =>
      case Say(_) =>
    }
    hide W.Work, Q.Work, LoadsOk, HistoryOk, JobsRight, ItemsReported, WorkerOk;
  }

  lemma WorkerStepItems(s: Sys, e: Step, j: nat)
    requires Books(s) && Enabled(s, e) && OfWorker(e)
    ensures var s' := Act(s, e);
            && |s'.procs| == |s.procs|
            && (j < |s.procs| ==> ItemsReported(s', j))
            && (j >= |s.procs| ==> Lines(s'.log, K.Line(j, K.ItemDone)) == 0)
  {
    var s' := Act(s, e);
    if j < |s.procs| {
      assert ItemsReported(s, j);
    }
    if e.Say? {
      assert s'.log[..|s.log|] == s.log;
    }
    hide JobsRight, QuitsRight, K.Output, Looked;
  }

  lemma WorkerStepBooks(s: Sys, e: Step)
    requires Inv(s) && Books(s) && Enabled(s, e) && OfWorker(e)
    ensures Books(Act(s, e))
  {
    var s' := Act(s, e);
    WorkerStepFrame(s, e);
    forall j | 0 <= j ensures j < |s.procs| ==> ItemsReported(s', j)
      ensures j >= |s.procs| ==> Lines(s'.log, K.Line(j, K.ItemDone)) == 0
    {
      WorkerStepItems(s, e, j);
    }
    WorkerStepItems(s, e, 0);
    if !e.Quit? {
      WorkerStepQuitsRight(s, e);
    }
    OthersStay(s, e);
    JobsStay(s, e);
    hide Act, Enabled, Inv, ItemsReported, QuitsRight, JobsRight, Lines;
  }

  lemma OthersStay(s: Sys, e: Step)
    requires Enabled(s, e) && OfWorker(e)
    ensures e.j < |s.procs| && |Act(s, e).procs| == |s.procs|
    ensures forall j :: 0 <= j < |s.procs| && j != e.j ==> Act(s, e).procs[j] == s.procs[j]
    ensures Act(s, e).exited <==> e.Quit?
  {
  }

  lemma JobsStay(s: Sys, e: Step)
    requires Enabled(s, e) && OfWorker(e)
    ensures JobsRight(Act(s, e).kg) <==> JobsRight(s.kg)
  {
  }

  lemma LoadStepBooks(s: Sys, e: Step)
    requires Books(s) && Enabled(s, e) && !OfWorker(e)
    ensures Books(Act(s, e))
  {
    var s' := Act(s, e);
    if e.Restart? {
      RestartKeepsJobs(s.kg);
      forall j | 0 <= j < |s.procs| ensures QuitsRight(s'.kg.jobs[j], s'.procs[j]) {
        assert QuitsRight(s.kg.jobs[j], s.procs[j]);
      }
    } else {
      assert JobsRight(s'.kg);
    }
    forall j | 0 <= j < |s'.procs| ensures ItemsReported(s', j) {
      assert j < |s.procs| ==> ItemsReported(s, j);
    }
    hide JobsRight;
  }

  lemma {:induction false} RunKeepsBooks(s: Sys, steps: seq<Step>)
    requires Inv(s) && Books(s) && Runs(s, steps)
    ensures Books(After(s, steps)) && Inv(After(s, steps))
    decreases |steps|
  {
    hide Inv, Act, Enabled, Books;
    if |steps| > 0 {
      StepKeepsInv(s, steps[0]);
      if OfWorker(steps[0]) {
        WorkerStepBooks(s, steps[0]);
      } else {
        LoadStepBooks(s, steps[0]);
      }
      RunKeepsBooks(Act(s, steps[0]), steps[1..]);
    }
  }

  // In every interleaving a worker takes its work from a queue exactly if its
  // configuration names both the queue and its server, and the other workers are
  // numbered from zero in the order in which they were started.
  lemma JobsFollowConfig(steps: seq<Step>, j: nat)
    requires Runs(INIT, steps) && j < |After(INIT, steps).kg.jobs|
    ensures var jobs := After(INIT, steps).kg.jobs;
            && (jobs[j].kind.Consumer? <==> jobs[j].c.memQQueue != "" && jobs[j].c.memQServer != "")
            && (jobs[j].kind.Local? ==> jobs[j].kind.id == Locals(jobs, j))
  {
    RunKeepsBooks(INIT, steps);
  }

  // In every interleaving a worker has reported each item it finished, once, but
  // for the last, which it may be about to report.
  lemma EveryItemReported(steps: seq<Step>, j: nat)
    requires Runs(INIT, steps) && j < |After(INIT, steps).procs|
    ensures var s := After(INIT, steps);
            s.procs[j].generated ==
            Lines(s.log, K.Line(j, K.ItemDone)) + if s.procs[j].at.Saying? && s.procs[j].at.text.ItemDone? then 1 else 0
  {
    RunKeepsBooks(INIT, steps);
    assert ItemsReported(After(INIT, steps), j);
    hide Inv, JobsRight, QuitsRight, Runs, After, Lines;
  }

  // In every interleaving in which nobody has, a worker is on its way to end the
  // process exactly if it is told to exit on completion and has completed: a
  // workload by its timer or its number, a consumer by finding its queue empty.
  lemma QuitsWhenComplete(steps: seq<Step>, j: nat)
    requires Runs(INIT, steps) && !After(INIT, steps).exited && j < |After(INIT, steps).procs|
    ensures var s := After(INIT, steps);
            && j < |s.kg.jobs|
            && var job, p := s.kg.jobs[j], s.procs[j];
               (p.at.Quitting? || (p.at.Saying? && p.at.next.ThenQuit?)) <==>
                 if job.kind.Local? then W.EndsProcess(job.c, p.polls)
                 else Q.EndsProcess(p.turns, job.c.exitOnComplete)
  {
    RunKeepsBooks(INIT, steps);
    var s := After(INIT, steps);
    assert QuitsRight(s.kg.jobs[j], s.procs[j]);
    W.ExitsIff(s.kg.jobs[j].c, s.procs[j].polls);
    Q.ExitedIff(s.procs[j].turns, s.kg.jobs[j].c.exitOnComplete);
  }

  lemma LastLook(job: K.Job, p: Proc, expired: bool, pickContext: bool)
    requires job.kind.Local? && !job.cancelled && job.c.exitOnComplete && 0 < job.c.numToGen <= p.generated
    ensures Looked(job, p, expired, pickContext).at == Saying(K.Exiting, ThenQuit)
  {
  }

  lemma LastSteps(s: Sys, j: nat, expired: bool, pickContext: bool)
    requires WorkersOk(s) && !s.exited && j < |s.kg.jobs| && !s.kg.jobs[j].cancelled && s.kg.jobs[j].kind.Local?
    requires s.procs[j].at.Checking? && s.kg.jobs[j].c.exitOnComplete
    requires 0 < s.kg.jobs[j].c.numToGen <= s.procs[j].generated
    ensures Enabled(s, Look(j, expired, pickContext))
    ensures var s1 := Act(s, Look(j, expired, pickContext));
            && Enabled(s1, Say(j))
            && var s2 := Act(s1, Say(j)); Enabled(s2, Quit(j)) && Act(s2, Quit(j)).exited
  {
    LastLook(s.kg.jobs[j], s.procs[j], expired, pickContext);
    hide Looked, K.Output, WorkerOk;
  }

  // A workload told to exit that has made its number of items ends the process by
  // its next look, its last line and its exit, if it is not cancelled.
  lemma LimitedWorkerExits(s: Sys, j: nat, expired: bool, pickContext: bool)
    requires Inv(s) && !s.exited && j < |s.kg.jobs| && !s.kg.jobs[j].cancelled && s.kg.jobs[j].kind.Local?
    requires s.procs[j].at.Checking? && s.kg.jobs[j].c.exitOnComplete
    requires 0 < s.kg.jobs[j].c.numToGen <= s.procs[j].generated
    ensures var steps := [Look(j, expired, pickContext), Say(j), Quit(j)];
            Runs(s, steps) && After(s, steps).exited
  {
    LastSteps(s, j, expired, pickContext);
    hide Inv, Act, Enabled, Runs, After;
    var s1 := Act(s, Look(j, expired, pickContext));
    var s2 := Act(s1, Say(j));
    NothingToRun(Act(s2, Quit(j)));
    RunsInTurn(s2, Quit(j), []);
    RunsInTurn(s1, Say(j), [Quit(j)] + []);
    RunsInTurn(s, Look(j, expired, pickContext), [Say(j)] + ([Quit(j)] + []));
    assert [Look(j, expired, pickContext)] + ([Say(j)] + ([Quit(j)] + [])) ==
           [Look(j, expired, pickContext), Say(j), Quit(j)];
  }

  // ---- A cancelled worker stops ----

  function StepsOf(steps: seq<Step>, j: nat): nat {
    if |steps| == 0 then 0
    else (if OfWorker(steps[0]) && steps[0].j == j then 1 else 0) + StepsOf(steps[1..], j)
  }

  function StepsLeft(at: At): nat {
    match at
    case Gone => 0
    case Quitting => 1
    case Saying(_, ThenGone) => 1
    case Saying(_, ThenQuit) => 2
    case Checking => 3
    case Saying(_, Again) => 4
    case Generating => 5
    case Asking => 6
  }

  lemma CancelledStepIsCloser(s: Sys, e: Step, j: nat)
    requires Inv(s) && Enabled(s, e) && j < |s.kg.jobs| && s.kg.jobs[j].cancelled
    ensures var s' := Act(s, e);
            && j < |s'.kg.jobs| && s'.kg.jobs[j].cancelled && j < |s'.procs|
            && StepsLeft(s'.procs[j].at) + (if OfWorker(e) && e.j == j then 1 else 0) <= StepsLeft(s.procs[j].at)
  {
    hide K.OneLive, K.CancelOk, HistoryOk, LoadsOk, W.Work, Q.Work, K.Output;
    assert LateOk(s.kg.jobs[j], s.procs[j]) && |s.procs| == |s.kg.jobs| by {
      assert WorkerOk(s.kg.jobs[j], s.procs[j]);
    }
    hide Inv;
    if OfWorker(e) {
      WorkerStepFrame(s, e);
      hide W.Checked, W.Exits;
    }
  }

  // Whatever the others do, a cancelled worker takes at most six more steps.
  lemma {:induction false} CancelledStops(s: Sys, steps: seq<Step>, j: nat)
    requires Inv(s) && Runs(s, steps) && j < |s.kg.jobs| && s.kg.jobs[j].cancelled
    ensures StepsOf(steps, j) <= StepsLeft(s.procs[j].at) <= 6
    decreases |steps|
  {
    if |steps| > 0 {
      CancelledStepIsCloser(s, steps[0], j);
      StepKeepsInv(s, steps[0]);
      hide Inv, Act, Enabled, StepsLeft;
      CancelledStops(Act(s, steps[0]), steps[1..], j);
    }
  }

  // But one of those may be the end of the whole process, although the worker
  // was told to stop: its timer wins the select against its context, or it has
  // asked an empty queue already.
  predicate MayQuit(job: K.Job, at: At) {
    || at.Quitting?
    || (at.Saying? && at.next.ThenQuit?)
    || (job.c.exitOnComplete && if job.kind.Local? then !Ended(at) && job.c.timeToRun > 0 else at.Asking?)
  }

  lemma MayQuitOnly(s: Sys, e: Step, j: nat)
    requires Inv(s) && Enabled(s, e) && j < |s.kg.jobs| && s.kg.jobs[j].cancelled
    requires !MayQuit(s.kg.jobs[j], s.procs[j].at)
    ensures e != Quit(j) && !MayQuit(Act(s, e).kg.jobs[j], Act(s, e).procs[j].at)
  {
    assert WorkerOk(s.kg.jobs[j], s.procs[j]);
    hide W.Work, Q.Work, LoadsOk, HistoryOk, K.Output;
  }

  lemma {:induction false} CannotQuit(s: Sys, steps: seq<Step>, j: nat)
    requires Inv(s) && Runs(s, steps) && j < |s.kg.jobs| && s.kg.jobs[j].cancelled
    requires !MayQuit(s.kg.jobs[j], s.procs[j].at)
    ensures Quit(j) !in steps
    decreases |steps|
  {
    if |steps| > 0 {
      MayQuitOnly(s, steps[0], j);
      CancelledStepIsCloser(s, steps[0], j);
      StepKeepsInv(s, steps[0]);
      hide Inv, Act, Enabled, MayQuit;
      CannotQuit(Act(s, steps[0]), steps[1..], j);
    }
  }

  lemma {:induction false} RunsInTurn(s: Sys, e: Step, rest: seq<Step>)
    requires Enabled(s, e) && Runs(Act(s, e), rest)
    ensures Runs(s, [e] + rest) && After(s, [e] + rest) == After(Act(s, e), rest)
  {
    assert ([e] + rest)[1..] == rest;
  }

  // The worker's own way to the end of the process.
  lemma WayToQuit(s: Sys, j: nat) returns (steps: seq<Step>)
    requires Inv(s) && !s.exited && j < |s.kg.jobs| && s.kg.jobs[j].cancelled
    requires MayQuit(s.kg.jobs[j], s.procs[j].at)
    ensures Runs(s, steps) && Quit(j) in steps
    decreases StepsLeft(s.procs[j].at)
  {
    var at := s.procs[j].at;
    if at.Quitting? {
      steps := [Quit(j)];
    } else {
      var e := match at
        case Checking => Look(j, true, false)
        case Asking => Hear(j, Q.Empty)
        case Generating => Make(j)
        case _ => Say(j);
      OwnStep(s, j, e);
      StepKeepsInv(s, e);
      hide Inv;
      var rest := WayToQuit(Act(s, e), j);
      RunsInTurn(s, e, rest);
      steps := [e] + rest;
    }
  }

  lemma OwnStep(s: Sys, j: nat, e: Step)
    requires Inv(s) && !s.exited && j < |s.kg.jobs| && s.kg.jobs[j].cancelled
    requires MayQuit(s.kg.jobs[j], s.procs[j].at) && !s.procs[j].at.Quitting?
    requires e == match s.procs[j].at
                  case Checking => Look(j, true, false)
                  case Asking => Hear(j, Q.Empty)
                  case Generating => Make(j)
                  case _ => Say(j)
    ensures Enabled(s, e)
    ensures var s' := Act(s, e);
            && !s'.exited && s'.kg.jobs == s.kg.jobs && |s'.procs| == |s.procs|
            && MayQuit(s'.kg.jobs[j], s'.procs[j].at) && StepsLeft(s'.procs[j].at) < StepsLeft(s.procs[j].at)
  {
    assert WorkerOk(s.kg.jobs[j], s.procs[j]);
    hide W.Work, Q.Work, LoadsOk, HistoryOk, K.Output;
  }

  // A cancelled worker can still end the process exactly in those positions.
  lemma CancelledQuitsIff(s: Sys, j: nat)
    requires Inv(s) && !s.exited && j < |s.kg.jobs| && s.kg.jobs[j].cancelled
    ensures (exists steps :: Runs(s, steps) && Quit(j) in steps) <==> MayQuit(s.kg.jobs[j], s.procs[j].at)
  {
    if MayQuit(s.kg.jobs[j], s.procs[j].at) {
      var steps := WayToQuit(s, j);
    } else {
      forall steps | Runs(s, steps) ensures Quit(j) !in steps {
        CannotQuit(s, steps, j);
      }
    }
  }

  // It does happen: here a consumer is cancelled while it waits for a reply.
  function ExitingRun(c: W.Config): seq<Step> {
    [Call(c), Write(0), Restart(0), Say(0), Look(0, false, false)] + ExitingEnd()
  }

  function ExitingEnd(): seq<Step> {
    [Call(K.NO_CONFIG), Write(1), Restart(1), Hear(0, Q.Empty), Quit(0)]
  }

  // One consumer has been started and waits for the queue's reply.
  function Waiting(c: W.Config): Sys {
    var line := K.Line(0, K.Starting);
    Sys(K.State(c, [K.Job(K.Consumer, c, false)], Some(0), 0, [K.Entry(0, line)], 1),
        [NEW_PROC.(at := Asking)], [Load(c, Loaded)], [line], false)
  }

  lemma NothingToRun(s: Sys)
    ensures Runs(s, []) && After(s, []) == s
  {
  }

  lemma CancelledWhileWaiting(c: W.Config)
    requires c.enable && c.memQQueue != "" && c.memQServer != "" && c.exitOnComplete
    ensures Runs(Waiting(c), ExitingEnd())
    ensures var s := After(Waiting(c), ExitingEnd());
            s.exited && |s.kg.jobs| == 1 && s.kg.jobs[0].cancelled && s.kg.config == K.NO_CONFIG
  {
    hide Runs, After;
    var run := ExitingEnd();
    var s6 := Act(Waiting(c), run[0]);
    var s7 := Act(s6, run[1]);
    var s8 := Act(s7, run[2]);
    var s9 := Act(s8, run[3]);
    var s10 := Act(s9, run[4]);
    NothingToRun(s10);
    RunsInTurn(s9, run[4], []);
    assert [run[4]] + [] == [run[4]];
    RunsInTurn(s8, run[3], [run[4]]);
    RunsInTurn(s7, run[2], [run[3]] + [run[4]]);
    RunsInTurn(s6, run[1], [run[2]] + ([run[3]] + [run[4]]));
    RunsInTurn(Waiting(c), run[0], [run[1]] + ([run[2]] + ([run[3]] + [run[4]])));
    assert run == [run[0]] + ([run[1]] + ([run[2]] + ([run[3]] + [run[4]])));
  }

  lemma CancelledWorkerMayExit(c: W.Config)
    requires c.enable && c.memQQueue != "" && c.memQServer != "" && c.exitOnComplete
    ensures Runs(INIT, ExitingRun(c))
    ensures var s := After(INIT, ExitingRun(c));
            s.exited && |s.kg.jobs| == 1 && s.kg.jobs[0].cancelled && s.kg.config == K.NO_CONFIG
  {
    CancelledWhileWaiting(c);
    hide Runs, After;
    var rest := ExitingEnd();
    var s1 := Act(INIT, Call(c));
    var s2 := Act(s1, Write(0));
    var s3 := Act(s2, Restart(0));
    var s4 := Act(s3, Say(0));
    assert Act(s4, Look(0, false, false)) == Waiting(c);
    hide ExitingEnd;
    RunsInTurn(s4, Look(0, false, false), rest);
    RunsInTurn(s3, Say(0), [Look(0, false, false)] + rest);
    RunsInTurn(s2, Restart(0), [Say(0)] + ([Look(0, false, false)] + rest));
    RunsInTurn(s1, Write(0), [Restart(0)] + ([Say(0)] + ([Look(0, false, false)] + rest)));
    RunsInTurn(INIT, Call(c), [Write(0)] + ([Restart(0)] + ([Say(0)] + ([Look(0, false, false)] + rest))));
    assert ExitingRun(c) ==
           [Call(c)] + ([Write(0)] + ([Restart(0)] + ([Say(0)] + ([Look(0, false, false)] + rest))));
  }
}
