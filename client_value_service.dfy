/** The background send service of the mobile client: the operation codes
    it is started with and the decision state of its send loop. */
module ClientValueService {
  import opened Lang
  import ClientMeters

  /** Above this many consecutive failed sends a requested stop is honoured
      even though meters are still pending. */
  const ErrorThreshold: int := 5

  /** OperationType and its integer codes 0..3. */
  datatype OperationType = UNKNOWN | STOP_SERVICE | UPDATE_SETTINGS | CHECK_VALUES {
    function ToInt(): (code: int)
      ensures 0 <= code <= 3
    {
      match this
      case UNKNOWN => 0
      case STOP_SERVICE => 1
      case UPDATE_SETTINGS => 2
      case CHECK_VALUES => 3
    }
  }

  /** OperationType.values(), in declaration order. */
  const OperationTypes: seq<OperationType> := [UNKNOWN, STOP_SERVICE, UPDATE_SETTINGS, CHECK_VALUES]

  /** Distinct operation types have distinct codes. */
  lemma ToIntInjective(s: OperationType, t: OperationType)
    ensures s.ToInt() == t.ToInt() ==> s == t
  {
  }

  /** The scan of fromInt over `types`: the first type with the code. */
  function Find(types: seq<OperationType>, code: int): (r: Option<OperationType>)
    ensures r.Some? ==> r.value in types && r.value.ToInt() == code
    ensures r.None? ==> forall t :: t in types ==> t.ToInt() != code
  {
    if types == [] then None
    else if types[0].ToInt() == code then Some(types[0])
    else Find(types[1..], code)
  }

  /** fromInt: the type with the given code, UNKNOWN for null or an unmatched code. */
  function FromInt(code: Option<int>): (t: OperationType)
    ensures code.None? ==> t == UNKNOWN
    ensures t != UNKNOWN ==> code == Some(t.ToInt())
  {
    if code.None? then UNKNOWN
    else match Find(OperationTypes, code.value)
      case Some(t) => t
      case None => UNKNOWN
  }

  lemma {:induction false} FromIntToInt(t: OperationType)
    ensures FromInt(Some(t.ToInt())) == t
  {
    assert t in OperationTypes;
    var r := Find(OperationTypes, t.ToInt());
    ToIntInjective(r.value, t);
  }

  lemma {:induction false} FromIntUnknown(code: Option<int>)
    ensures code.None? || !(0 <= code.value <= 3) ==> FromInt(code) == UNKNOWN
    ensures code.Some? && 0 <= code.value <= 3 ==> FromInt(code).ToInt() == code.value
  {
    if code.Some? && 0 <= code.value <= 3 {
      assert OperationTypes[code.value].ToInt() == code.value;
    }
  }

  /** The result of one send: OK, or one of the failures of HTTPClient.Status. */
  datatype SendStatus = OK | SERVICE_UNAVAILABLE | SERVICE_FAILURE | BAD_SETTINGS | ERROR | BAD_CREDENTIALS

  /** The decision state of the send loop: the pending meters (null when
      none), the three flags of the thread and the error count. */
  datatype LoopState = LoopState(
    meters: ClientMeters.Meters?,
    sendInProgress: bool,
    valuesChanged: bool,
    stopRequested: bool,
    errorCount: int)

  /** continueLoop, given `unsent`, the meters getUnsentValues would load:
      the next state and whether the loop goes on. */
  function Decide(s: LoopState, unsent: ClientMeters.Meters?): (r: (LoopState, bool))
    ensures r.0.sendInProgress == s.sendInProgress && r.0.stopRequested == s.stopRequested
    ensures r.0.errorCount == s.errorCount
    ensures !r.1 ==> s.stopRequested && !s.sendInProgress
  {
    if s.sendInProgress then (s, true)
    else
      var t := if s.valuesChanged then s.(meters := unsent, valuesChanged := false) else s;
      if t.stopRequested then
        if t.errorCount > ErrorThreshold then (t, false)
        else if t.meters == null then (t, false)
        else (t, true)
      else (t, true)
  }

  /** The body of the loop: a send is started when meters are pending and
      none is in progress; the result says whether one was started. */
  function Step(s: LoopState): (r: (LoopState, bool))
    ensures r.0.meters == s.meters && r.0.errorCount == s.errorCount && r.0.stopRequested == s.stopRequested
    ensures r.1 ==> !s.sendInProgress && r.0.sendInProgress && r.0.meters != null
    ensures !r.1 ==> r.0 == s
  {
    if s.meters != null && !s.sendInProgress then (s.(sendInProgress := true), true)
    else (s, false)
  }

  /** metersSent: the state after the outcome of a send. */
  function AfterSend(s: LoopState, status: SendStatus): (r: LoopState)
    ensures !r.sendInProgress && r.stopRequested == s.stopRequested && r.valuesChanged == s.valuesChanged
    ensures status == OK ==> r.meters == null && r.errorCount == 0
    ensures status != OK ==> r.meters == s.meters && r.errorCount == s.errorCount + 1
  {
    if status == OK then s.(meters := null, errorCount := 0, sendInProgress := false)
    else s.(errorCount := s.errorCount + 1, sendInProgress := false)
  }

  /** A send is only ever in progress for pending meters, and the error
      count is never negative. */
  predicate Consistent(s: LoopState) {
    (s.sendInProgress ==> s.meters != null) && s.errorCount >= 0
  }

  /** While a send is in progress continueLoop goes on and changes nothing. */
  lemma DecideWhileSending(s: LoopState, unsent: ClientMeters.Meters?)
    ensures s.sendInProgress ==> Decide(s, unsent) == (s, true)
  {
  }

  /** Otherwise a pending change is consumed first: the pending meters are
      reloaded and the flag is cleared; nothing else changes. */
  lemma DecideReloads(s: LoopState, unsent: ClientMeters.Meters?)
    ensures !s.sendInProgress ==>
      var t := Decide(s, unsent).0;
      !t.valuesChanged &&
      t.meters == (if s.valuesChanged then unsent else s.meters) &&
      t.sendInProgress == s.sendInProgress && t.stopRequested == s.stopRequested &&
      t.errorCount == s.errorCount
  {
  }

  /** Without a stop request the loop always goes on; with one, it ends
      exactly when the error count is above the threshold or no meters
      are pending. */
  lemma DecideEnds(s: LoopState, unsent: ClientMeters.Meters?)
    ensures !s.stopRequested ==> Decide(s, unsent).1
    ensures !s.sendInProgress && s.stopRequested ==>
      (!Decide(s, unsent).1 <==>
         s.errorCount > ErrorThreshold || Decide(s, unsent).0.meters == null)
  {
  }

  /** A send is started exactly when meters are pending and none is in progress. */
  lemma StepStarts(s: LoopState)
    ensures Step(s).1 <==> s.meters != null && !s.sendInProgress
    ensures Step(s).1 ==> Step(s).0.sendInProgress
    ensures !Step(s).1 ==> Step(s).0 == s
  {
  }

  /** A successful send clears the pending meters and the error count; a
      failed one keeps the meters and counts one more error. */
  lemma AfterSendMeaning(s: LoopState, status: SendStatus)
    ensures !AfterSend(s, status).sendInProgress
    ensures status == OK ==> AfterSend(s, status).meters == null && AfterSend(s, status).errorCount == 0
    ensures status != OK ==>
      AfterSend(s, status).meters == s.meters && AfterSend(s, status).errorCount == s.errorCount + 1
  {
  }

  /** Every operation of the loop keeps the state consistent. */
  lemma ConsistentPreserved(s: LoopState, unsent: ClientMeters.Meters?, status: SendStatus)
    requires Consistent(s)
    ensures Consistent(Decide(s, unsent).0)
    ensures Consistent(Step(s).0)
    ensures Consistent(AfterSend(s, status))
    ensures Consistent(s.(stopRequested := true))
    ensures Consistent(s.(stopRequested := false, valuesChanged := true))
  {
  }

  /** The state after `n` failed sends in a row. */
  function AfterFailures(s: LoopState, n: nat): LoopState
  {
    if n == 0 then s else AfterSend(AfterFailures(s, n - 1), ERROR)
  }

  lemma {:induction false} AfterFailuresCount(s: LoopState, n: nat)
    ensures AfterFailures(s, n).errorCount == s.errorCount + n
    ensures AfterFailures(s, n).meters == s.meters
    ensures AfterFailures(s, n).stopRequested == s.stopRequested
    ensures AfterFailures(s, n).valuesChanged == s.valuesChanged
    ensures n > 0 ==> !AfterFailures(s, n).sendInProgress
  {
    if n > 0 {
      AfterFailuresCount(s, n - 1);
    }
  }

  /** With a stop requested and no new values, six failed sends in a row from
      a clean error count end the loop even though the meters are still pending. */
  lemma {:induction false} StopAfterRepeatedFailures(s: LoopState, unsent: ClientMeters.Meters?)
    requires s.stopRequested && !s.valuesChanged && s.errorCount == 0
    ensures AfterFailures(s, ErrorThreshold + 1).meters == s.meters
    ensures !Decide(AfterFailures(s, ErrorThreshold + 1), unsent).1
  {
    AfterFailuresCount(s, ErrorThreshold + 1);
  }

  /** The send thread, with the service's error count and running flag
      (static in the source, one per process) kept beside its own state. */
  class SendThread {
    var meters: ClientMeters.Meters?
    var sendInProgress: bool
    var valuesChanged: bool
    var stopRequested: bool
    var errorCount: int
    var running: bool

    function State(): LoopState
      reads this
    {
      LoopState(meters, sendInProgress, valuesChanged, stopRequested, errorCount)
    }

    constructor ()
      ensures State() == LoopState(null, false, false, false, 0) && !running
    {
      meters, sendInProgress, valuesChanged, stopRequested := null, false, false, false;
      errorCount, running := 0, false;
    }

    /** hasPendingErrors */
    predicate HasPendingErrors()
      reads this
    {
      errorCount > 0
    }

    /** The start of run: the stop request and the error count are reset. */
    method Start()
      modifies this
      ensures State() == old(State()).(stopRequested := false, errorCount := 0)
      ensures running && !HasPendingErrors()
    {
      stopRequested := false;
      errorCount := 0;
      running := true;
    }

    /** The end of run. */
    method Stop()
      modifies this
      ensures State() == old(State()) && !running
    {
      running := false;
    }

    method ContinueLoop(unsent: ClientMeters.Meters?) returns (go: bool)
      modifies this
      ensures (State(), go) == Decide(old(State()), unsent)
      ensures running == old(running)
    {
      if sendInProgress {
        return true;
      }
      if valuesChanged {
        valuesChanged := false;
        meters := unsent;
      }
      if stopRequested {
        if errorCount > ErrorThreshold {
          go := false;
        } else if meters == null {
          go := false;
        } else {
          go := true;
        }
      } else {
        go := true;
      }
    }

    /** One pass of the loop body; `send` says whether sendMeters was called. */
    method LoopBody() returns (send: bool)
      modifies this
      ensures (State(), send) == Step(old(State()))
      ensures running == old(running)
    {
      send := false;
      if meters != null && !sendInProgress {
        sendInProgress := true;
        send := true;
      }
    }

    method ValuesChanged()
      modifies this
      ensures State() == old(State()).(stopRequested := false, valuesChanged := true)
      ensures running == old(running)
    {
      stopRequested := false;
      valuesChanged := true;
    }

    method RequestStop()
      modifies this
      ensures State() == old(State()).(stopRequested := true)
      ensures running == old(running)
    {
      stopRequested := true;
    }

    /** metersSent; `marked` is the meters handed to setValuesSent(…, true),
        null when the send failed. */
    method MetersSent(status: SendStatus) returns (marked: ClientMeters.Meters?)
      modifies this
      ensures State() == AfterSend(old(State()), status)
      ensures marked == (if status == OK then old(meters) else null)
      ensures running == old(running)
      ensures status == OK ==> !HasPendingErrors()
    {
      marked := null;
      if status == OK {
        marked := meters;
        meters := null;
        errorCount := 0;
      } else {
        errorCount := errorCount + 1;
      }
      sendInProgress := false;
    }
  }

  /** onStartCommand: CHECK_VALUES notifies the thread of new values; the
      other codes do not touch the thread's state here. */
  method OnStartCommand(thread: SendThread, code: Option<int>) returns (op: OperationType)
    modifies thread
    ensures op == FromInt(code)
    ensures op == CHECK_VALUES ==> thread.State() == old(thread.State()).(stopRequested := false, valuesChanged := true)
    ensures op != CHECK_VALUES ==> thread.State() == old(thread.State())
    ensures thread.running == old(thread.running)
  {
    op := FromInt(code);
    if op == CHECK_VALUES {
      thread.ValuesChanged();
    }
  }
}
