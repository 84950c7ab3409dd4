/** The browser hook that follows an optimization: it starts at status
    "optimizing" with a loading flag set, polls the batch on a timer, copies
    the status it reads, and clears the flag once the status is ready or
    failed or a poll fails. The timer is modelled as a sequence of events:
    a timer tick with its request outcome, a re-render with the hook's
    arguments, and the unmount. */
module PollStatus {
  import opened Support

  /** What one poll of the batch endpoint gives. */
  datatype PollOutcome = Fetched(status: string) | RequestFailed

  datatype Event = Tick(outcome: PollOutcome) | Render(batchId: string, interval: Option<int>) | Unmount

  /** The hook's two state cells, and the timer its effect has installed:
      whether it runs, and the batch and period it was installed with. */
  datatype HookState = HookState(status: string, loading: bool, polling: bool, batchId: string, interval: int)

  /** The polling period, in milliseconds, when the caller gives none. */
  const DefaultInterval: int := 3000

  /** Statuses after which the hook stops showing progress. */
  predicate Terminal(status: string)
  {
    status == "ready" || status == "failed"
  }

  /** The path a tick requests. */
  function BatchPath(batchId: string): string
  {
    "/delivery-batches/" + batchId + "/"
  }

  /** The first render: the state cells take their initial values and the
      effect installs the timer. An interval the caller leaves out (`None`)
      is `DefaultInterval`. */
  function Mounted(batchId: string, interval: Option<int>): (s: HookState)
    ensures s.status == "optimizing" && s.loading && s.polling
    ensures s.batchId == batchId
    ensures s.interval == if interval.Some? then interval.value else DefaultInterval
  {
    HookState("optimizing", true, true, batchId, interval.GetOr(DefaultInterval))
  }

  /** One event. A tick only fires while the timer runs. A re-render with a
      different batch replaces the timer, keeping the state cells; with the
      same batch the effect does not run again, so a new period is ignored. */
  function Next(s: HookState, e: Event): HookState
  {
    match e
    case Tick(o) =>
      if !s.polling then s
      else (match o
            case RequestFailed => s.(loading := false)
            case Fetched(st) => s.(status := st, loading := s.loading && !Terminal(st)))
    case Render(id, period) =>
      if !s.polling || id == s.batchId then s else s.(batchId := id, interval := period.GetOr(DefaultInterval))
    case Unmount => s.(polling := false)
  }

  /** The state after a sequence of events. */
  function Run(s: HookState, es: seq<Event>): HookState
  {
    if es == [] then s else Next(Run(s, es[..|es| - 1]), es[|es| - 1])
  }

  /** A tick clears the loading flag exactly when the timer runs and the
      poll failed or read a terminal status; otherwise the flag stays. */
  lemma TickClearsLoading(s: HookState, o: PollOutcome)
    ensures Next(s, Tick(o)).loading <==>
            s.loading && !(s.polling && (o.RequestFailed? || (o.Fetched? && Terminal(o.status))))
    ensures s.polling && o.Fetched? ==> Next(s, Tick(o)).status == o.status
    ensures !s.polling ==> Next(s, Tick(o)) == s
  {
  }

  /** Once cleared, the loading flag is never set again. */
  lemma {:induction false} LoadingNeverResumes(s: HookState, es: seq<Event>)
    requires !s.loading
    ensures !Run(s, es).loading
  {
    if es != [] {
      LoadingNeverResumes(s, es[..|es| - 1]);
    }
  }

  /** A terminal status does not stop the timer: it runs until the unmount. */
  lemma {:induction false} PollingUntilUnmount(s: HookState, es: seq<Event>)
    ensures Run(s, es).polling <==> s.polling && forall k :: 0 <= k < |es| ==> es[k] != Unmount
  {
    if es != [] {
      PollingUntilUnmount(s, es[..|es| - 1]);
      assert forall k :: 0 <= k < |es| - 1 ==> es[..|es| - 1][k] == es[k];
    }
  }

  /** The status only changes through polls that read one: without such a
      tick it stays what it was. */
  lemma {:induction false} StatusFromPollsOnly(s: HookState, es: seq<Event>)
    requires forall k :: 0 <= k < |es| ==> !(es[k].Tick? && es[k].outcome.Fetched?)
    ensures Run(s, es).status == s.status
  {
    if es != [] {
      StatusFromPollsOnly(s, es[..|es| - 1]);
    }
  }

  /** Re-rendering for the same batch never changes the polling period. */
  lemma {:induction false} PeriodFixedForBatch(s: HookState, es: seq<Event>)
    requires forall k :: 0 <= k < |es| ==> es[k].Render? ==> es[k].batchId == s.batchId
    ensures Run(s, es).interval == s.interval && Run(s, es).batchId == s.batchId
  {
    if es != [] {
      PeriodFixedForBatch(s, es[..|es| - 1]);
    }
  }

  /** The hook instance: the state cells and the installed timer. */
  class StatusHook {
    var status: string
    var loading: bool
    var polling: bool
    var batchId: string
    var interval: int

    function State(): HookState
      reads this
    {
      HookState(status, loading, polling, batchId, interval)
    }

    /** `useOptimizationStatus(batchId, interval)` on its first render. */
    constructor (batchId: string, interval: Option<int>)
      ensures State() == Mounted(batchId, interval)
    {
      status := "optimizing";
      loading := true;
      polling := true;
      this.batchId := batchId;
      this.interval := interval.GetOr(DefaultInterval);
    }

    /** A timer tick: the path requested, if the timer runs, and the update
        made from the request's outcome. */
    method Poll(outcome: PollOutcome) returns (requested: Option<string>)
      modifies this`status, this`loading
      ensures State() == Next(old(State()), Tick(outcome))
      ensures requested == if old(polling) then Some(BatchPath(batchId)) else None
    {
      if !polling {
        return None;
      }
      requested := Some(BatchPath(batchId));
      match outcome {
        case RequestFailed =>
          loading := false;
        case Fetched(st) =>
          status := st;
          if Terminal(st) {
            loading := false;
          }
      }
    }

    /** A re-render with the hook's arguments. */
    method Rerender(newBatchId: string, newInterval: Option<int>)
      modifies this`batchId, this`interval
      ensures State() == Next(old(State()), Render(newBatchId, newInterval))
    {
      if polling && newBatchId != batchId {
        batchId := newBatchId;
        interval := newInterval.GetOr(DefaultInterval);
      }
    }

    /** The unmount: the effect's clean-up clears the timer. */
    method Cleanup()
      modifies this`polling
      ensures State() == Next(old(State()), Unmount)
    {
      polling := false;
    }
  }
}
