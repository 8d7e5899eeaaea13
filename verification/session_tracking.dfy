/**
 * The session-tracking controller of Classes/UserSession/UserSessionService.swift:
 * the timer, the reporting flag and the two operation queues, driven by
 * lifecycle events and timer ticks.
 *
 * The completion closure of each `performSessionTracking` call is identified
 * by a number the service hands out, so that "completion is called exactly
 * once" can be stated about the service's state.
 */
module SessionTracking {
  import opened Wrappers

  /** The service's `State`; the initial value is the only one this file assigns. */
  datatype ServiceState = Suspended | Resumed

  /** What the service sees of its `RepeatingTimer`: the period and whether it is resumed. */
  datatype RepeatingTimer = RepeatingTimer(timeInterval: int, resumed: bool)

  /** A `UserSessionPersistingOperation` waiting in the persisting queue, with what its finish block captured. */
  datatype PersistingOperation = PersistingOperation(pushRegId: string, sessionTimestamp: int, doReporting: bool, completion: nat)

  /** A `UserSessionsReportingOperation`, holding the completion its finish block calls. */
  datatype ReportingOperation = ReportingOperation(completion: nat)

  function PersistingCompletions(q: seq<PersistingOperation>): seq<nat> {
    if q == [] then [] else [q[0].completion] + PersistingCompletions(q[1..])
  }

  lemma {:induction false} PersistingCompletionsAppend(q: seq<PersistingOperation>, op: PersistingOperation)
    ensures PersistingCompletions(q + [op]) == PersistingCompletions(q) + [op.completion]
  {
    if q != [] {
      assert (q + [op])[1..] == q[1..] + [op];
      PersistingCompletionsAppend(q[1..], op);
    }
  }

  /** The completions still owed by the queued operations. */
  function PendingCompletions(persisting: seq<PersistingOperation>, reporting: Option<ReportingOperation>): seq<nat> {
    PersistingCompletions(persisting) + (if reporting.Some? then [reporting.value.completion] else [])
  }

  /** The completion numbers `0 .. n-1`, in the order they are handed out. */
  function Issued(n: nat): seq<nat> {
    seq(n, i => i)
  }

  lemma {:induction false} IssuedOnce(n: nat, t: nat)
    ensures multiset(Issued(n))[t] == if t < n then 1 else 0
  {
    if n > 0 {
      assert Issued(n) == Issued(n - 1) + [n - 1];
      IssuedOnce(n - 1, t);
    }
  }

  lemma IssuedNext(n: nat)
    ensures multiset(Issued(n + 1)) == multiset(Issued(n)) + multiset{n}
  {
    assert Issued(n + 1) == Issued(n) + [n];
  }

  /** The service's queues and completion record, as one value. */
  datatype WorkState = WorkState(persisting: seq<PersistingOperation>, reporting: Option<ReportingOperation>,
                                 completed: seq<nat>, cancelled: seq<nat>, nextCompletion: nat)

  /** Every completion number handed out, wherever it now is. */
  function Accounted(w: WorkState): seq<nat> {
    w.completed + PendingCompletions(w.persisting, w.reporting) + w.cancelled
  }

  /**
   * Each completion handed out is exactly once either called, owed by a
   * queued operation, or cancelled.
   */
  ghost predicate Accounts(w: WorkState) {
    multiset(Accounted(w)) == multiset(Issued(w.nextCompletion))
  }

  /** Nothing handed out, nothing queued. */
  lemma AccountsInitial()
    ensures Accounts(WorkState([], None, [], [], 0))
  {
    assert Accounted(WorkState([], None, [], [], 0)) == [];
    assert Issued(0) == [];
  }

  /** A new completion that is called at once. */
  lemma AccountsCompleteNew(w: WorkState)
    requires Accounts(w)
    ensures Accounts(w.(completed := w.completed + [w.nextCompletion], nextCompletion := w.nextCompletion + 1))
  {
    var n := w.nextCompletion;
    assert Issued(n + 1) == Issued(n) + [n];
    var pending := PendingCompletions(w.persisting, w.reporting);
    assert multiset(w.completed + [n] + pending + w.cancelled) == multiset(Accounted(w)) + multiset{n};
  }

  /** A new completion handed to a newly queued persisting operation. */
  lemma AccountsEnqueueNew(w: WorkState, op: PersistingOperation)
    requires Accounts(w)
    requires op.completion == w.nextCompletion
    ensures Accounts(w.(persisting := w.persisting + [op], nextCompletion := w.nextCompletion + 1))
  {
    var n := w.nextCompletion;
    var w' := w.(persisting := w.persisting + [op], nextCompletion := n + 1);
    AccountedEnqueue(w, op);
    IssuedNext(n);
    calc {
      multiset(Accounted(w'));
      multiset(Accounted(w)) + multiset{n};
      multiset(Issued(n)) + multiset{n};
      multiset(Issued(n + 1));
    }
  }

  /** Queuing an operation adds its completion to what is accounted for. */
  lemma AccountedEnqueue(w: WorkState, op: PersistingOperation)
    ensures multiset(Accounted(w.(persisting := w.persisting + [op]))) == multiset(Accounted(w)) + multiset{op.completion}
  {
    PersistingCompletionsAppend(w.persisting, op);
    var queued := PersistingCompletions(w.persisting);
    var reporting := if w.reporting.Some? then [w.reporting.value.completion] else [];
    assert Accounted(w.(persisting := w.persisting + [op])) == w.completed + (queued + [op.completion] + reporting) + w.cancelled;
    assert Accounted(w) == w.completed + (queued + reporting) + w.cancelled;
  }

  /** Cancelling both queues moves what they owe to the cancelled completions. */
  lemma AccountsCancel(w: WorkState)
    requires Accounts(w)
    ensures Accounts(w.(persisting := [], reporting := None,
                        cancelled := w.cancelled + PendingCompletions(w.persisting, w.reporting)))
  {
    var pending := PendingCompletions(w.persisting, w.reporting);
    assert PendingCompletions([], None) == [];
    assert multiset(w.completed + [] + (w.cancelled + pending)) == multiset(Accounted(w));
  }

  /** The oldest persisting operation hands its completion to a new reporting operation. */
  lemma AccountsPersistToReport(w: WorkState)
    requires Accounts(w)
    requires w.persisting != [] && w.reporting.None?
    ensures Accounts(w.(persisting := w.persisting[1..], reporting := Some(ReportingOperation(w.persisting[0].completion))))
  {
    var c := w.persisting[0].completion;
    assert PersistingCompletions(w.persisting) == [c] + PersistingCompletions(w.persisting[1..]);
    assert multiset(w.completed + (PersistingCompletions(w.persisting[1..]) + [c]) + w.cancelled) ==
           multiset(Accounted(w));
  }

  /** The oldest persisting operation calls its completion. */
  lemma AccountsPersistCompleted(w: WorkState)
    requires Accounts(w)
    requires w.persisting != []
    ensures Accounts(w.(persisting := w.persisting[1..], completed := w.completed + [w.persisting[0].completion]))
  {
    var c := w.persisting[0].completion;
    var reporting := if w.reporting.Some? then [w.reporting.value.completion] else [];
    assert PersistingCompletions(w.persisting) == [c] + PersistingCompletions(w.persisting[1..]);
    assert multiset(w.completed + [c] + (PersistingCompletions(w.persisting[1..]) + reporting) + w.cancelled) ==
           multiset(Accounted(w));
  }

  /** The reporting operation calls its completion. */
  lemma AccountsReportCompleted(w: WorkState)
    requires Accounts(w)
    requires w.reporting.Some?
    ensures Accounts(w.(reporting := None, completed := w.completed + [w.reporting.value.completion]))
  {
    var c := w.reporting.value.completion;
    var persisting := PersistingCompletions(w.persisting);
    assert multiset(w.completed + [c] + (persisting + []) + w.cancelled) == multiset(Accounted(w));
  }

  class UserSessionService {
    /** `Consts.UserSessions.sessionSaveInterval`. */
    const sessionSaveInterval: int
    /** `isTestingProcessRunning`. */
    const isTestingProcessRunning: bool

    var state: ServiceState
    var isReportingNeeded: bool
    var timer: Option<RepeatingTimer>
    /** `userSessionPersistingQueue`: operations not yet finished, oldest first. */
    var persistingQueue: seq<PersistingOperation>
    /** `userSessionReportingQueue`: exclusive, so at most one operation. */
    var reportingSlot: Option<ReportingOperation>
    /** The completion closures called so far, in call order. */
    var completed: seq<nat>
    /** The completions of operations that `stop` cancelled. */
    ghost var cancelled: seq<nat>
    /** The number the next `performSessionTracking` call gives its completion. */
    var nextCompletion: nat

    ghost function Work(): WorkState
      reads this`persistingQueue, this`reportingSlot, this`completed, this`cancelled, this`nextCompletion
    {
      WorkState(persistingQueue, reportingSlot, completed, cancelled, nextCompletion)
    }

    ghost predicate Valid()
      reads this`persistingQueue, this`reportingSlot, this`completed, this`cancelled, this`nextCompletion
    {
      Accounts(Work())
    }

    /** `init(mmContext:)` with the property initial values. */
    constructor (sessionSaveInterval: int, isTestingProcessRunning: bool)
      ensures Valid()
      ensures this.sessionSaveInterval == sessionSaveInterval
      ensures this.isTestingProcessRunning == isTestingProcessRunning
      ensures state == Suspended
      ensures isReportingNeeded
      ensures timer == None
      ensures persistingQueue == []
      ensures reportingSlot == None
      ensures completed == []
      ensures nextCompletion == 0
    {
      this.sessionSaveInterval := sessionSaveInterval;
      this.isTestingProcessRunning := isTestingProcessRunning;
      state := Suspended;
      isReportingNeeded := true;
      timer := None;
      persistingQueue := [];
      reportingSlot := None;
      completed := [];
      cancelled := [];
      nextCompletion := 0;
      new;
      AccountsInitial();
      assert Work() == WorkState([], None, [], [], 0);
    }

    /** `start`: sets up the timer. */
    method Start()
      requires Valid()
      modifies this`timer
      ensures Valid()
      ensures timer == if isTestingProcessRunning then old(timer) else Some(RepeatingTimer(sessionSaveInterval, true))
      ensures state == old(state)
      ensures isReportingNeeded == old(isReportingNeeded)
      ensures Work() == old(Work())
    {
      SetupTimer();
    }

    /** `setupTimer`: no timer in the testing process; otherwise a new resumed timer. */
    method SetupTimer()
      requires Valid()
      modifies this`timer
      ensures Valid()
      ensures timer == if isTestingProcessRunning then old(timer) else Some(RepeatingTimer(sessionSaveInterval, true))
      ensures state == old(state)
      ensures isReportingNeeded == old(isReportingNeeded)
      ensures Work() == old(Work())
    {
      ghost var w := Work();
      if isTestingProcessRunning {
        return;
      }
      timer := Some(RepeatingTimer(sessionSaveInterval, false));
      timer := Some(timer.value.(resumed := true));
      assert Work() == w;
    }

    /** `stop`: releases the timer and cancels everything queued. */
    method Stop()
      requires Valid()
      modifies this`timer, this`persistingQueue, this`reportingSlot, this`cancelled
      ensures Valid()
      ensures timer == None
      ensures persistingQueue == []
      ensures reportingSlot == None
      ensures completed == old(completed)
      ensures nextCompletion == old(nextCompletion)
      ensures cancelled == old(cancelled) + old(PendingCompletions(persistingQueue, reportingSlot))
      ensures state == old(state)
      ensures isReportingNeeded == old(isReportingNeeded)
    {
      ghost var w := Work();
      timer := None;
      assert Work() == w;
      CancelOperations();
    }

    /** `cancelOperations`: empties both queues. */
    method CancelOperations()
      requires Valid()
      modifies this`persistingQueue, this`reportingSlot, this`cancelled
      ensures Valid()
      ensures persistingQueue == []
      ensures reportingSlot == None
      ensures completed == old(completed)
      ensures nextCompletion == old(nextCompletion)
      ensures cancelled == old(cancelled) + old(PendingCompletions(persistingQueue, reportingSlot))
      ensures state == old(state)
      ensures isReportingNeeded == old(isReportingNeeded)
      ensures timer == old(timer)
    {
      ghost var w := Work();
      AccountsCancel(w);
      cancelled := cancelled + PendingCompletions(persistingQueue, reportingSlot);
      persistingQueue := [];
      reportingSlot := None;
      assert Work() == w.(persisting := [], reporting := None, cancelled := w.cancelled + PendingCompletions(w.persisting, w.reporting));
    }

    /** `appWillEnterForeground`: the next tick also reports. */
    method AppWillEnterForeground()
      requires Valid()
      modifies this`isReportingNeeded
      ensures Valid()
      ensures isReportingNeeded
      ensures timer == old(timer)
      ensures state == old(state)
      ensures Work() == old(Work())
    {
      ghost var w := Work();
      isReportingNeeded := true;
      assert Work() == w;
    }

    /** `appDidBecomeActive`: resumes the timer, if there is one. */
    method AppDidBecomeActive()
      requires Valid()
      modifies this`timer
      ensures Valid()
      ensures timer == if old(timer).Some? then Some(old(timer).value.(resumed := true)) else None
      ensures isReportingNeeded == old(isReportingNeeded)
      ensures state == old(state)
      ensures Work() == old(Work())
    {
      ghost var w := Work();
      if timer.Some? {
        timer := Some(timer.value.(resumed := true));
      }
      assert Work() == w;
    }

    /** `appWillResignActive`: suspends the timer, if there is one. */
    method AppWillResignActive()
      requires Valid()
      modifies this`timer
      ensures Valid()
      ensures timer == if old(timer).Some? then Some(old(timer).value.(resumed := false)) else None
      ensures isReportingNeeded == old(isReportingNeeded)
      ensures state == old(state)
      ensures Work() == old(Work())
    {
      ghost var w := Work();
      if timer.Some? {
        timer := Some(timer.value.(resumed := false));
      }
      assert Work() == w;
    }

    /** `appWillTerminate`: stops the service. */
    method AppWillTerminate()
      requires Valid()
      modifies this`timer, this`persistingQueue, this`reportingSlot, this`cancelled
      ensures Valid()
      ensures timer == None
      ensures persistingQueue == []
      ensures reportingSlot == None
      ensures completed == old(completed)
      ensures nextCompletion == old(nextCompletion)
      ensures cancelled == old(cancelled) + old(PendingCompletions(persistingQueue, reportingSlot))
      ensures state == old(state)
      ensures isReportingNeeded == old(isReportingNeeded)
    {
      Stop();
    }

    /**
     * `performSessionTracking`. The application state, the registration id
     * and the clock are inputs. Returns the number of the completion.
     */
    method PerformSessionTracking(doReporting: bool, appIsActive: bool, pushRegistrationId: Option<string>, now: int)
      returns (completion: nat)
      requires Valid()
      modifies this`persistingQueue, this`completed, this`nextCompletion
      ensures Valid()
      ensures completion == old(nextCompletion)
      ensures nextCompletion == old(nextCompletion) + 1
      ensures !appIsActive || pushRegistrationId.None? ==>
                completed == old(completed) + [completion] && persistingQueue == old(persistingQueue)
      ensures appIsActive && pushRegistrationId.Some? ==>
                completed == old(completed) &&
                persistingQueue == old(persistingQueue) + [PersistingOperation(pushRegistrationId.value, now, doReporting, completion)]
      ensures reportingSlot == old(reportingSlot)
      ensures cancelled == old(cancelled)
      ensures isReportingNeeded == old(isReportingNeeded)
      ensures timer == old(timer)
      ensures state == old(state)
    {
      completion := nextCompletion;
      ghost var w := Work();
      if !appIsActive || pushRegistrationId.None? {
        AccountsCompleteNew(w);
        completed := completed + [completion];
        nextCompletion := nextCompletion + 1;
        assert Work() == w.(completed := w.completed + [w.nextCompletion], nextCompletion := w.nextCompletion + 1);
        return;
      }
      var op := PersistingOperation(pushRegistrationId.value, now, doReporting, completion);
      AccountsEnqueueNew(w, op);
      persistingQueue := persistingQueue + [op];
      nextCompletion := nextCompletion + 1;
      assert Work() == w.(persisting := w.persisting + [op], nextCompletion := w.nextCompletion + 1);
    }

    /** `handleTimerEvent`: tracks, reporting if `isReportingNeeded`. */
    method HandleTimerEvent(appIsActive: bool, pushRegistrationId: Option<string>, now: int)
      returns (completion: nat)
      requires Valid()
      modifies this`persistingQueue, this`completed, this`nextCompletion
      ensures Valid()
      ensures completion == old(nextCompletion)
      ensures nextCompletion == old(nextCompletion) + 1
      ensures !appIsActive || pushRegistrationId.None? ==>
                completed == old(completed) + [completion] && persistingQueue == old(persistingQueue)
      ensures appIsActive && pushRegistrationId.Some? ==>
                completed == old(completed) &&
                persistingQueue == old(persistingQueue) + [PersistingOperation(pushRegistrationId.value, now, old(isReportingNeeded), completion)]
      ensures reportingSlot == old(reportingSlot)
      ensures cancelled == old(cancelled)
      ensures isReportingNeeded == old(isReportingNeeded)
      ensures timer == old(timer)
      ensures state == old(state)
    {
      completion := PerformSessionTracking(isReportingNeeded, appIsActive, pushRegistrationId, now);
    }

    /**
     * A tick of the repeating timer: it reaches `handleTimerEvent` only while
     * the service has a timer and that timer is resumed.
     */
    method TimerTick(appIsActive: bool, pushRegistrationId: Option<string>, now: int)
      returns (completion: Option<nat>)
      requires Valid()
      modifies this`persistingQueue, this`completed, this`nextCompletion
      ensures Valid()
      ensures completion.Some? <==> old(timer).Some? && old(timer).value.resumed
      ensures completion.None? ==> Work() == old(Work())
      ensures completion.Some? ==> completion.value == old(nextCompletion) && nextCompletion == old(nextCompletion) + 1
      ensures completion.Some? && (!appIsActive || pushRegistrationId.None?) ==>
                completed == old(completed) + [completion.value] && persistingQueue == old(persistingQueue)
      ensures completion.Some? && appIsActive && pushRegistrationId.Some? ==>
                completed == old(completed) &&
                persistingQueue == old(persistingQueue) + [PersistingOperation(pushRegistrationId.value, now, old(isReportingNeeded), completion.value)]
      ensures reportingSlot == old(reportingSlot)
      ensures cancelled == old(cancelled)
      ensures isReportingNeeded == old(isReportingNeeded)
      ensures timer == old(timer)
      ensures state == old(state)
    {
      if timer.Some? && timer.value.resumed {
        var c := HandleTimerEvent(appIsActive, pushRegistrationId, now);
        completion := Some(c);
      } else {
        completion := None;
      }
    }

    /**
     * The oldest persisting operation finishes and its finish block runs:
     * with `doReporting` the flag is cleared, then a report is added
     * exclusively; a refused add calls the completion at once.
     */
    method PersistingOperationFinished()
      requires Valid()
      modifies this`isReportingNeeded, this`persistingQueue, this`reportingSlot, this`completed
      ensures Valid()
      ensures old(persistingQueue) == [] ==> Work() == old(Work()) && isReportingNeeded == old(isReportingNeeded)
      ensures old(persistingQueue) != [] ==>
                var op := old(persistingQueue)[0];
                && persistingQueue == old(persistingQueue)[1..]
                && isReportingNeeded == (if op.doReporting then false else old(isReportingNeeded))
                && (if op.doReporting && old(reportingSlot).None?
                    then reportingSlot == Some(ReportingOperation(op.completion)) && completed == old(completed)
                    else reportingSlot == old(reportingSlot) && completed == old(completed) + [op.completion])
      ensures cancelled == old(cancelled)
      ensures nextCompletion == old(nextCompletion)
      ensures timer == old(timer)
      ensures state == old(state)
    {
      if persistingQueue == [] {
        return;
      }
      var op := persistingQueue[0];
      ghost var w := Work();
      if op.doReporting {
        isReportingNeeded := false;
        if reportingSlot.None? {
          AccountsPersistToReport(w);
          persistingQueue := persistingQueue[1..];
          reportingSlot := Some(ReportingOperation(op.completion));
          assert Work() == w.(persisting := w.persisting[1..], reporting := Some(ReportingOperation(w.persisting[0].completion)));
          return;
        }
      }
      AccountsPersistCompleted(w);
      persistingQueue := persistingQueue[1..];
      completed := completed + [op.completion];
      assert Work() == w.(persisting := w.persisting[1..], completed := w.completed + [w.persisting[0].completion]);
    }

    /** The reporting operation finishes and its finish block calls the completion. */
    method ReportingOperationFinished()
      requires Valid()
      modifies this`reportingSlot, this`completed
      ensures Valid()
      ensures reportingSlot == None
      ensures completed == old(completed) + (if old(reportingSlot).Some? then [old(reportingSlot).value.completion] else [])
      ensures persistingQueue == old(persistingQueue)
      ensures cancelled == old(cancelled)
      ensures nextCompletion == old(nextCompletion)
      ensures isReportingNeeded == old(isReportingNeeded)
      ensures timer == old(timer)
      ensures state == old(state)
    {
      if reportingSlot.Some? {
        ghost var w := Work();
        AccountsReportCompleted(w);
        completed := completed + [reportingSlot.value.completion];
        reportingSlot := None;
        assert Work() == w.(reporting := None, completed := w.completed + [w.reporting.value.completion]);
      }
    }
  }

  /**
   * In every state the service reaches (each method keeps `Valid()`), a
   * completion handed out is exactly one of: already called, owed by a queued
   * operation, or cancelled; a called completion was called exactly once.
   */
  lemma {:induction false} CompletionCalledAtMostOnce(w: WorkState, t: nat)
    requires Accounts(w)
    ensures t < w.nextCompletion <==> t in Accounted(w)
    ensures t in w.completed ==> multiset(w.completed)[t] == 1
    ensures t in w.completed ==> t !in PendingCompletions(w.persisting, w.reporting) && t !in w.cancelled
  {
    IssuedOnce(w.nextCompletion, t);
    var pending := PendingCompletions(w.persisting, w.reporting);
    assert multiset(Accounted(w)) == multiset(w.completed) + multiset(pending) + multiset(w.cancelled);
  }
}
