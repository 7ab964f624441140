/** The key generator: a configuration, at most one live worker, and the last
    lines of output. */
module KeyGen {
  import opened Wrappers
  import opened History
  import W = Workload

  datatype Text = Starting | ItemDone | Retrying | Exiting

  // A line of output, and the worker that wrote it.
  datatype Line = Line(job: nat, text: Text)

  datatype Entry = Entry(id: int, line: Line)

  // A started worker: its own workload with an id, or a consumer of a queue.
  datatype Kind = Local(id: int) | Consumer

  datatype Job = Job(kind: Kind, c: W.Config, cancelled: bool)

  // `cancel` is the job whose context cancelFunc cancels.
  datatype State = State(config: W.Config, jobs: seq<Job>, cancel: Option<nat>, nextWorkloadID: int,
                         history: seq<Entry>, nextHistoryID: int)

  const NO_CONFIG := W.Config(false, 0, 0, "", "", false, 0)

  const INIT := State(NO_CONFIG, [], None, 0, [], 0)

  predicate FromQueue(c: W.Config) {
    |c.memQQueue| > 0 && |c.memQServer| > 0
  }

  // ---- Restart and output ----

  function LiveCancelled(s: State): State {
    if s.cancel.Some? && s.cancel.value < |s.jobs|
    then s.(jobs := s.jobs[s.cancel.value := s.jobs[s.cancel.value].(cancelled := true)], cancel := None)
    else s.(cancel := None)
  }

  function Started(s: State): State {
    if !s.config.enable then s
    else
      var kind := if FromQueue(s.config) then Consumer else Local(s.nextWorkloadID);
      s.(jobs := s.jobs + [Job(kind, s.config, false)],
         cancel := Some(|s.jobs|),
         nextWorkloadID := if kind.Local? then s.nextWorkloadID + 1 else s.nextWorkloadID)
  }

  function Restarted(s: State): State {
    Started(LiveCancelled(s))
  }

  function Output(s: State, line: Line): State {
    s.(history := Recorded(s.history, Entry(s.nextHistoryID, line)), nextHistoryID := s.nextHistoryID + 1)
  }

  // ---- One live worker ----

  // At most one started worker is not cancelled, and cancelFunc is set exactly
  // when there is one.
  ghost predicate OneLive(s: State) {
    forall j :: 0 <= j < |s.jobs| ==> (!s.jobs[j].cancelled <==> s.cancel == Some(j))
  }

  ghost predicate CancelOk(s: State) {
    s.cancel.Some? ==> s.cancel.value + 1 == |s.jobs|
  }

  // The live worker runs the current configuration.
  predicate UpToDate(s: State) {
    && (s.config.enable <==> s.cancel.Some?)
    && (s.cancel.Some? ==> s.cancel.value < |s.jobs| && s.jobs[s.cancel.value].c == s.config)
  }

  lemma RestartLeavesOneLive(s: State)
    requires OneLive(s) && CancelOk(s)
    ensures OneLive(Restarted(s)) && CancelOk(Restarted(s)) && UpToDate(Restarted(s))
  {
    var t := LiveCancelled(s);
    assert forall j :: 0 <= j < |t.jobs| ==> t.jobs[j].cancelled;
  }

  // ---- The object ----

  class Context {
    var cancelled: bool

    constructor ()
      ensures !cancelled
    {
      cancelled := false;
    }
  }

  // A worker that has been started, with the context it watches.
  datatype Handle = Handle(kind: Kind, c: W.Config, ctx: Context)

  // A worker as the configuration asks for: one that takes its work from a queue if
  // both its server and its name are given, and otherwise one of our own under the
  // next number.
  predicate StartedRight(h: Handle, config: W.Config, id: int, nextID: int) {
    && h.c == config
    && (h.kind.Consumer? <==> config.memQQueue != "" && config.memQServer != "")
    && (h.kind.Local? ==> h.kind.id == id)
    && nextID == if h.kind.Local? then id + 1 else id
  }

  class KeyGen {
    var config: W.Config
    var history: seq<Entry>
    var nextHistoryID: int
    var nextWorkloadID: int
    var cancelFunc: Context?
    var started: seq<Handle>

    ghost function Contexts(): set<object>
      reads this
    {
      set j | 0 <= j < |started| :: started[j].ctx
    }

    ghost predicate Valid()
      reads this
    {
      && (forall i, j :: 0 <= i < j < |started| ==> started[i].ctx != started[j].ctx)
      && (cancelFunc != null ==> started != [] && cancelFunc == started[|started| - 1].ctx)
    }

    ghost function Jobs(): (r: seq<Job>)
      reads this, Contexts()
    {
      seq(|started|, j requires 0 <= j < |started| reads this, Contexts() =>
        Job(started[j].kind, started[j].c, started[j].ctx.cancelled))
    }

    ghost function Value(): State
      reads this, Contexts()
    {
      State(config, Jobs(), if cancelFunc == null then None else if |started| > 0 then Some(|started| - 1) else None,
            nextWorkloadID, history, nextHistoryID)
    }

    constructor ()
      ensures Valid() && Value() == INIT
    {
      config, history, nextHistoryID, nextWorkloadID := NO_CONFIG, [], 0, 0;
      cancelFunc, started := null, [];
    }

    method Cancel()
      requires Valid()
      modifies this`cancelFunc, cancelFunc
      ensures Valid() && Value() == LiveCancelled(old(Value())) && cancelFunc == null
      ensures old(cancelFunc) != null ==> old(cancelFunc).cancelled
    {
      if cancelFunc != null {
        cancelFunc.cancelled := true;
        cancelFunc := null;
      }
      assert Jobs() == LiveCancelled(old(Value())).jobs;
    }

    method Start()
      requires Valid() && cancelFunc == null
      modifies this
      ensures Valid() && Value() == Started(old(Value()))
      ensures !config.enable ==> started == old(started) && cancelFunc == null
      ensures config.enable ==>
                && |started| == |old(started)| + 1 && started[..|old(started)|] == old(started)
                && cancelFunc == started[|old(started)|].ctx && fresh(cancelFunc) && !cancelFunc.cancelled
      ensures config.enable ==> StartedRight(started[|started| - 1], config, old(nextWorkloadID), nextWorkloadID)
      ensures config == old(config) && (!config.enable ==> nextWorkloadID == old(nextWorkloadID))
    {
      if config.enable {
        var ctx := new Context();
        cancelFunc := ctx;
        if |config.memQQueue| > 0 && |config.memQServer| > 0 {
          started := started + [Handle(Consumer, config, ctx)];
        } else {
          started := started + [Handle(Local(nextWorkloadID), config, ctx)];
          nextWorkloadID := nextWorkloadID + 1;
        }
      }
      assert Jobs() == Started(old(Value())).jobs;
    }

    method Restart()
      requires Valid()
      modifies this, cancelFunc
      ensures Valid() && Value() == Restarted(old(Value()))
      ensures old(cancelFunc) != null ==> old(cancelFunc).cancelled
      ensures !config.enable ==> started == old(started) && cancelFunc == null && nextWorkloadID == old(nextWorkloadID)
      ensures config.enable ==>
                && |started| == |old(started)| + 1 && started[..|old(started)|] == old(started)
                && cancelFunc == started[|old(started)|].ctx && fresh(cancelFunc) && !cancelFunc.cancelled
                && StartedRight(started[|old(started)|], config, old(nextWorkloadID), nextWorkloadID)
    {
      Cancel();
      Start();
    }

    method LoadConfig(c: W.Config)
      requires Valid()
      modifies this, cancelFunc
      ensures Valid() && Value() == Restarted(old(Value()).(config := c))
      ensures config == c && (cancelFunc != null <==> c.enable)
      ensures c.enable ==>
                started != [] && StartedRight(started[|started| - 1], c, old(nextWorkloadID), nextWorkloadID)
    {
      config := c;
      assert Jobs() == old(Jobs());
      Restart();
    }

    method WorkloadOutput(line: Line)
      requires Valid()
      modifies this`history, this`nextHistoryID
      ensures Valid() && Value() == Output(old(Value()), line)
      ensures nextHistoryID == old(nextHistoryID) + 1
      ensures var entry := Entry(old(nextHistoryID), line);
              && (|old(history)| < 20 ==> history == old(history) + [entry])
              && (|old(history)| == 20 ==> history == old(history)[1..] + [entry])
    {
      history := history + [Entry(nextHistoryID, line)];
      if |history| > MAX_HISTORY {
        history := history[|history| - MAX_HISTORY..];
      }
      nextHistoryID := nextHistoryID + 1;
      assert Jobs() == old(Jobs());
    }
  }
}
