/** The coordinator's bootstrap and shutdown: the application states, the
    transition table, every state handler, the polling loop and the
    table-driven driver that `main` starts. */
module Server {
  import opened Wrappers
  import opened Fsm

  // ---------------------------------------------------------------------
  // Application states (`enum application_states`), numbered from
  // FSM_USER_START.
  // ---------------------------------------------------------------------

  const STATE_PARSE_ARGUMENTS: int := FSM_USER_START
  const STATE_HANDLE_ARGUMENTS: int := FSM_USER_START + 1
  const STATE_CONVERT_ADDRESS: int := FSM_USER_START + 2
  const STATE_CREATE_SOCKET: int := FSM_USER_START + 3
  const STATE_BIND_SOCKET: int := FSM_USER_START + 4
  const STATE_LISTEN: int := FSM_USER_START + 5
  const STATE_SETUP_SIGNAL: int := FSM_USER_START + 6
  const STATE_START_TIMER: int := FSM_USER_START + 7
  const STATE_START_POLLING: int := FSM_USER_START + 8
  const STATE_STOP_TIMER: int := FSM_USER_START + 9
  const STATE_CLEANUP: int := FSM_USER_START + 10
  const STATE_ERROR: int := FSM_USER_START + 11

  const APPLICATION_STATES: seq<int> := [
    STATE_PARSE_ARGUMENTS, STATE_HANDLE_ARGUMENTS, STATE_CONVERT_ADDRESS,
    STATE_CREATE_SOCKET, STATE_BIND_SOCKET, STATE_LISTEN, STATE_SETUP_SIGNAL,
    STATE_START_TIMER, STATE_START_POLLING, STATE_STOP_TIMER, STATE_CLEANUP,
    STATE_ERROR]

  /** Application states are distinct and never collide with a framework id. */
  lemma ApplicationStatesAreUserIds()
    ensures forall i, j :: 0 <= i < j < |APPLICATION_STATES| ==> APPLICATION_STATES[i] != APPLICATION_STATES[j]
    ensures forall s :: s in APPLICATION_STATES ==> FSM_USER_START <= s && s !in {FSM_IGNORE, FSM_INIT, FSM_EXIT}
  {
  }

  // ---------------------------------------------------------------------
  // The transition table.
  // ---------------------------------------------------------------------

  /** The state handlers; NoHandler is the table's NULL function pointer. */
  datatype Handler =
    | ParseArguments | HandleArguments | ConvertAddress | CreateSocket
    | BindSocket | Listen | SetupSignal | StartTimer | StartPolling
    | StopTimer | Cleanup | Error | NoHandler

  /** `struct client_fsm_transition`: entering `toId` from `fromId` runs `perform`. */
  datatype Transition = Transition(fromId: int, toId: int, perform: Handler)

  /** The table exactly as `main` declares it. */
  const TRANSITIONS: seq<Transition> := [
    Transition(FSM_INIT, STATE_PARSE_ARGUMENTS, ParseArguments),
    Transition(STATE_PARSE_ARGUMENTS, STATE_HANDLE_ARGUMENTS, HandleArguments),
    Transition(STATE_HANDLE_ARGUMENTS, STATE_CONVERT_ADDRESS, ConvertAddress),
    Transition(STATE_CONVERT_ADDRESS, STATE_CREATE_SOCKET, CreateSocket),
    Transition(STATE_CREATE_SOCKET, STATE_BIND_SOCKET, BindSocket),
    Transition(STATE_BIND_SOCKET, STATE_LISTEN, Listen),
    Transition(STATE_LISTEN, STATE_SETUP_SIGNAL, SetupSignal),
    Transition(STATE_SETUP_SIGNAL, STATE_START_TIMER, StartTimer),
    Transition(STATE_START_TIMER, STATE_START_POLLING, StartPolling),
    Transition(STATE_START_POLLING, STATE_STOP_TIMER, StopTimer),
    Transition(STATE_STOP_TIMER, STATE_CLEANUP, Cleanup),
    Transition(STATE_ERROR, STATE_CLEANUP, Cleanup),
    Transition(STATE_PARSE_ARGUMENTS, STATE_ERROR, Error),
    Transition(STATE_HANDLE_ARGUMENTS, STATE_ERROR, Error),
    Transition(STATE_CONVERT_ADDRESS, STATE_ERROR, Error),
    Transition(STATE_CREATE_SOCKET, STATE_ERROR, Error),
    Transition(STATE_BIND_SOCKET, STATE_ERROR, Error),
    Transition(STATE_LISTEN, STATE_ERROR, Error),
    Transition(STATE_START_TIMER, STATE_ERROR, Error),
    Transition(STATE_START_POLLING, STATE_ERROR, Error),
    Transition(STATE_STOP_TIMER, STATE_ERROR, Error),
    Transition(STATE_CLEANUP, FSM_EXIT, NoHandler)]

  /** The table with the entry that routes a failed signal setup to the error
      state, which `setup_signal_handler` relies on but the table lacks. */
  const CORRECTED_TRANSITIONS: seq<Transition> := [
    Transition(FSM_INIT, STATE_PARSE_ARGUMENTS, ParseArguments),
    Transition(STATE_PARSE_ARGUMENTS, STATE_HANDLE_ARGUMENTS, HandleArguments),
    Transition(STATE_HANDLE_ARGUMENTS, STATE_CONVERT_ADDRESS, ConvertAddress),
    Transition(STATE_CONVERT_ADDRESS, STATE_CREATE_SOCKET, CreateSocket),
    Transition(STATE_CREATE_SOCKET, STATE_BIND_SOCKET, BindSocket),
    Transition(STATE_BIND_SOCKET, STATE_LISTEN, Listen),
    Transition(STATE_LISTEN, STATE_SETUP_SIGNAL, SetupSignal),
    Transition(STATE_SETUP_SIGNAL, STATE_START_TIMER, StartTimer),
    Transition(STATE_START_TIMER, STATE_START_POLLING, StartPolling),
    Transition(STATE_START_POLLING, STATE_STOP_TIMER, StopTimer),
    Transition(STATE_STOP_TIMER, STATE_CLEANUP, Cleanup),
    Transition(STATE_ERROR, STATE_CLEANUP, Cleanup),
    Transition(STATE_PARSE_ARGUMENTS, STATE_ERROR, Error),
    Transition(STATE_HANDLE_ARGUMENTS, STATE_ERROR, Error),
    Transition(STATE_CONVERT_ADDRESS, STATE_ERROR, Error),
    Transition(STATE_CREATE_SOCKET, STATE_ERROR, Error),
    Transition(STATE_BIND_SOCKET, STATE_ERROR, Error),
    Transition(STATE_LISTEN, STATE_ERROR, Error),
    Transition(STATE_SETUP_SIGNAL, STATE_ERROR, Error),
    Transition(STATE_START_TIMER, STATE_ERROR, Error),
    Transition(STATE_START_POLLING, STATE_ERROR, Error),
    Transition(STATE_STOP_TIMER, STATE_ERROR, Error),
    Transition(STATE_CLEANUP, FSM_EXIT, NoHandler)]

  /** The handler in charge of each state: every entry of a table runs the
      handler of the state it enters. */
  function HandlerFor(id: int): Handler {
    if id == STATE_PARSE_ARGUMENTS then ParseArguments
    else if id == STATE_HANDLE_ARGUMENTS then HandleArguments
    else if id == STATE_CONVERT_ADDRESS then ConvertAddress
    else if id == STATE_CREATE_SOCKET then CreateSocket
    else if id == STATE_BIND_SOCKET then BindSocket
    else if id == STATE_LISTEN then Listen
    else if id == STATE_SETUP_SIGNAL then SetupSignal
    else if id == STATE_START_TIMER then StartTimer
    else if id == STATE_START_POLLING then StartPolling
    else if id == STATE_STOP_TIMER then StopTimer
    else if id == STATE_CLEANUP then Cleanup
    else if id == STATE_ERROR then Error
    else NoHandler
  }

  /** Position of a state in the bootstrap order; every table entry moves to a
      state of smaller rank, which is why a run of the driver ends. */
  function Rank(id: int): nat {
    if id == FSM_INIT then 13
    else if STATE_PARSE_ARGUMENTS <= id <= STATE_STOP_TIMER then 14 - id
    else if id == STATE_ERROR then 2
    else if id == STATE_CLEANUP then 1
    else 0
  }

  /** The state a handler returns when its collaborator succeeds. */
  function Successor(h: Handler): int {
    match h
    case ParseArguments => STATE_HANDLE_ARGUMENTS
    case HandleArguments => STATE_CONVERT_ADDRESS
    case ConvertAddress => STATE_CREATE_SOCKET
    case CreateSocket => STATE_BIND_SOCKET
    case BindSocket => STATE_LISTEN
    case Listen => STATE_SETUP_SIGNAL
    case SetupSignal => STATE_START_TIMER
    case StartTimer => STATE_START_POLLING
    case StartPolling => STATE_STOP_TIMER
    case StopTimer => STATE_CLEANUP
    case Cleanup => FSM_EXIT
    case Error => STATE_CLEANUP
    case NoHandler => FSM_EXIT
  }

  /** The ids a handler can return: its successor, and STATE_ERROR for the
      handlers whose collaborator can fail. */
  predicate MayReturn(h: Handler, n: int) {
    match h
    case StartTimer | StopTimer | Cleanup | Error => n == Successor(h)
    case NoHandler => false
    case _ => n == Successor(h) || n == STATE_ERROR
  }

  /** Every entry of the table moves to a state of smaller rank. */
  predicate RankDecreasing(table: seq<Transition>) {
    forall t :: t in table ==> Rank(t.toId) < Rank(t.fromId)
  }

  /** The state a handler serves; the NULL handler serves only FSM_EXIT. */
  function StateOf(h: Handler): int {
    match h
    case ParseArguments => STATE_PARSE_ARGUMENTS
    case HandleArguments => STATE_HANDLE_ARGUMENTS
    case ConvertAddress => STATE_CONVERT_ADDRESS
    case CreateSocket => STATE_CREATE_SOCKET
    case BindSocket => STATE_BIND_SOCKET
    case Listen => STATE_LISTEN
    case SetupSignal => STATE_SETUP_SIGNAL
    case StartTimer => STATE_START_TIMER
    case StartPolling => STATE_START_POLLING
    case StopTimer => STATE_STOP_TIMER
    case Cleanup => STATE_CLEANUP
    case Error => STATE_ERROR
    case NoHandler => FSM_EXIT
  }

  /** Every entry runs the handler of the state it enters, and only the entry
      into FSM_EXIT has a NULL handler. */
  predicate Consistent(table: seq<Transition>) {
    forall t :: t in table ==> StateOf(t.perform) == t.toId
  }

  /** The table has an entry from `fromId` to `toId`. */
  predicate Covers(table: seq<Transition>, fromId: int, toId: int) {
    exists t :: t in table && t.fromId == fromId && t.toId == toId
  }

  /** Every id a handler can return has an entry leaving that handler's state. */
  ghost predicate Closed(table: seq<Transition>) {
    forall t, n :: t in table && MayReturn(t.perform, n) ==> Covers(table, t.toId, n)
  }

  ghost predicate WellFormed(table: seq<Transition>) {
    RankDecreasing(table) && Consistent(table) && Closed(table)
  }

  /** The table's lookup: the handler of the first entry from `fromId` to
      `toId`, or None when there is none. */
  function Lookup(table: seq<Transition>, fromId: int, toId: int): (r: Option<Handler>)
    ensures r.Some? ==> Transition(fromId, toId, r.value) in table
    ensures r.None? ==> forall t :: t in table ==> t.fromId != fromId || t.toId != toId
  {
    LookupFrom(table, fromId, toId, 0)
  }

  /** The scan behind `Lookup`, from position `i` on. */
  function LookupFrom(table: seq<Transition>, fromId: int, toId: int, i: nat): (r: Option<Handler>)
    requires i <= |table|
    ensures r.Some? ==> Transition(fromId, toId, r.value) in table
    ensures r.None? ==> forall j :: i <= j < |table| ==> table[j].fromId != fromId || table[j].toId != toId
    decreases |table| - i
  {
    if i == |table| then None
    else if table[i].fromId == fromId && table[i].toId == toId then Some(table[i].perform)
    else LookupFrom(table, fromId, toId, i + 1)
  }

  /** In a consistent table, lookup finds an entry exactly when the table covers
      the pair, and then it is the entered state's own handler. */
  lemma LookupConsistent(table: seq<Transition>, fromId: int, toId: int)
    requires Consistent(table)
    ensures Lookup(table, fromId, toId).Some? <==> Covers(table, fromId, toId)
    ensures Lookup(table, fromId, toId).Some? ==> Lookup(table, fromId, toId).value == HandlerFor(toId)
    ensures Lookup(table, fromId, toId).Some? && toId != FSM_EXIT ==> Lookup(table, fromId, toId).value != NoHandler
  {
    var r := Lookup(table, fromId, toId);
    if r.Some? {
      HandlerServesItsState(r.value);
    }
  }

  /** `StateOf` and `HandlerFor` are inverse: each handler is the handler of
      the state it serves. */
  lemma HandlerServesItsState(h: Handler)
    ensures HandlerFor(StateOf(h)) == h
    ensures StateOf(h) == FSM_EXIT <==> h == NoHandler
  {
  }

  /** The entries `main` declares, as a membership test. */
  predicate Declared(t: Transition) {
    || t == Transition(FSM_INIT, STATE_PARSE_ARGUMENTS, ParseArguments)
    || t == Transition(STATE_PARSE_ARGUMENTS, STATE_HANDLE_ARGUMENTS, HandleArguments)
    || t == Transition(STATE_HANDLE_ARGUMENTS, STATE_CONVERT_ADDRESS, ConvertAddress)
    || t == Transition(STATE_CONVERT_ADDRESS, STATE_CREATE_SOCKET, CreateSocket)
    || t == Transition(STATE_CREATE_SOCKET, STATE_BIND_SOCKET, BindSocket)
    || t == Transition(STATE_BIND_SOCKET, STATE_LISTEN, Listen)
    || t == Transition(STATE_LISTEN, STATE_SETUP_SIGNAL, SetupSignal)
    || t == Transition(STATE_SETUP_SIGNAL, STATE_START_TIMER, StartTimer)
    || t == Transition(STATE_START_TIMER, STATE_START_POLLING, StartPolling)
    || t == Transition(STATE_START_POLLING, STATE_STOP_TIMER, StopTimer)
    || t == Transition(STATE_STOP_TIMER, STATE_CLEANUP, Cleanup)
    || t == Transition(STATE_ERROR, STATE_CLEANUP, Cleanup)
    || t == Transition(STATE_PARSE_ARGUMENTS, STATE_ERROR, Error)
    || t == Transition(STATE_HANDLE_ARGUMENTS, STATE_ERROR, Error)
    || t == Transition(STATE_CONVERT_ADDRESS, STATE_ERROR, Error)
    || t == Transition(STATE_CREATE_SOCKET, STATE_ERROR, Error)
    || t == Transition(STATE_BIND_SOCKET, STATE_ERROR, Error)
    || t == Transition(STATE_LISTEN, STATE_ERROR, Error)
    || t == Transition(STATE_START_TIMER, STATE_ERROR, Error)
    || t == Transition(STATE_START_POLLING, STATE_ERROR, Error)
    || t == Transition(STATE_STOP_TIMER, STATE_ERROR, Error)
    || t == Transition(STATE_CLEANUP, FSM_EXIT, NoHandler)
  }

  /** The entry the corrected table adds. */
  const SIGNAL_ERROR_ROUTE: Transition := Transition(STATE_SETUP_SIGNAL, STATE_ERROR, Error)

  /** `table` holds exactly the declared entries. */
  ghost predicate HoldsDeclared(table: seq<Transition>) {
    forall t :: t in table <==> Declared(t)
  }

  /** `table` holds exactly the declared entries and the added route. */
  ghost predicate HoldsCorrected(table: seq<Transition>) {
    forall t :: t in table <==> Declared(t) || t == SIGNAL_ERROR_ROUTE
  }

  lemma DeclaredEntries()
    ensures HoldsDeclared(TRANSITIONS)
  {
  }

  lemma CorrectedEntries()
    ensures HoldsCorrected(CORRECTED_TRANSITIONS)
  {
  }

  /** Every declared entry, and the added route, moves to a state of smaller
      rank and runs the handler of the state it enters. */
  lemma DeclaredEntryOrdered(t: Transition)
    requires Declared(t) || t == SIGNAL_ERROR_ROUTE
    ensures Rank(t.toId) < Rank(t.fromId) && StateOf(t.perform) == t.toId
  {
  }

  /** A table holding the declared entries covers every outcome of every
      declared entry's handler except a failing signal setup. */
  lemma DeclaredOutcomesCovered(table: seq<Transition>, t: Transition, n: int)
    requires forall d :: Declared(d) ==> d in table
    requires Declared(t) && MayReturn(t.perform, n) && !(t.toId == STATE_SETUP_SIGNAL && n == STATE_ERROR)
    ensures Covers(table, t.toId, n)
  {
    assert Transition(FSM_INIT, STATE_PARSE_ARGUMENTS, ParseArguments) in table;
    assert Transition(STATE_PARSE_ARGUMENTS, STATE_HANDLE_ARGUMENTS, HandleArguments) in table;
    assert Transition(STATE_HANDLE_ARGUMENTS, STATE_CONVERT_ADDRESS, ConvertAddress) in table;
    assert Transition(STATE_CONVERT_ADDRESS, STATE_CREATE_SOCKET, CreateSocket) in table;
    assert Transition(STATE_CREATE_SOCKET, STATE_BIND_SOCKET, BindSocket) in table;
    assert Transition(STATE_BIND_SOCKET, STATE_LISTEN, Listen) in table;
    assert Transition(STATE_LISTEN, STATE_SETUP_SIGNAL, SetupSignal) in table;
    assert Transition(STATE_SETUP_SIGNAL, STATE_START_TIMER, StartTimer) in table;
    assert Transition(STATE_START_TIMER, STATE_START_POLLING, StartPolling) in table;
    assert Transition(STATE_START_POLLING, STATE_STOP_TIMER, StopTimer) in table;
    assert Transition(STATE_STOP_TIMER, STATE_CLEANUP, Cleanup) in table;
    assert Transition(STATE_ERROR, STATE_CLEANUP, Cleanup) in table;
    assert Transition(STATE_PARSE_ARGUMENTS, STATE_ERROR, Error) in table;
    assert Transition(STATE_HANDLE_ARGUMENTS, STATE_ERROR, Error) in table;
    assert Transition(STATE_CONVERT_ADDRESS, STATE_ERROR, Error) in table;
    assert Transition(STATE_CREATE_SOCKET, STATE_ERROR, Error) in table;
    assert Transition(STATE_BIND_SOCKET, STATE_ERROR, Error) in table;
    assert Transition(STATE_LISTEN, STATE_ERROR, Error) in table;
    assert Transition(STATE_START_TIMER, STATE_ERROR, Error) in table;
    assert Transition(STATE_START_POLLING, STATE_ERROR, Error) in table;
    assert Transition(STATE_STOP_TIMER, STATE_ERROR, Error) in table;
    assert Transition(STATE_CLEANUP, FSM_EXIT, NoHandler) in table;
  }

  /** Any table with the declared entries keeps the rank order and runs each
      state's own handler, and it covers every handler outcome except one: a
      failing `sigaction` in `setup_signal_handler` returns STATE_ERROR, but
      no entry leaves STATE_SETUP_SIGNAL for STATE_ERROR. */
  lemma DeclaredTableGap(table: seq<Transition>)
    requires HoldsDeclared(table)
    ensures RankDecreasing(table) && Consistent(table)
    ensures MayReturn(SetupSignal, STATE_ERROR)
    ensures Transition(STATE_LISTEN, STATE_SETUP_SIGNAL, SetupSignal) in table
    ensures !Covers(table, STATE_SETUP_SIGNAL, STATE_ERROR)
    ensures !Closed(table)
    ensures forall t, n :: t in table && MayReturn(t.perform, n) && !(t.toId == STATE_SETUP_SIGNAL && n == STATE_ERROR)
              ==> Covers(table, t.toId, n)
  {
    forall t | t in table ensures Rank(t.toId) < Rank(t.fromId) && StateOf(t.perform) == t.toId {
      DeclaredEntryOrdered(t);
    }
    forall t, n | t in table && MayReturn(t.perform, n) && !(t.toId == STATE_SETUP_SIGNAL && n == STATE_ERROR)
      ensures Covers(table, t.toId, n)
    {
      DeclaredOutcomesCovered(table, t, n);
    }
    assert Transition(STATE_LISTEN, STATE_SETUP_SIGNAL, SetupSignal) in table;
  }

  /** Any table with the declared entries and the added route is well formed. */
  lemma CorrectedTableClosed(table: seq<Transition>)
    requires HoldsCorrected(table)
    ensures WellFormed(table)
  {
    forall t | t in table ensures Rank(t.toId) < Rank(t.fromId) && StateOf(t.perform) == t.toId {
      DeclaredEntryOrdered(t);
    }
    forall t, n | t in table && MayReturn(t.perform, n) ensures Covers(table, t.toId, n) {
      if t == SIGNAL_ERROR_ROUTE || (t.toId == STATE_SETUP_SIGNAL && n == STATE_ERROR) {
        assert SIGNAL_ERROR_ROUTE in table;
        assert Transition(STATE_ERROR, STATE_CLEANUP, Cleanup) in table;
      } else {
        DeclaredOutcomesCovered(table, t, n);
      }
    }
  }

  /** The table as `main` declares it is not closed: it lacks exactly the
      route from STATE_SETUP_SIGNAL to STATE_ERROR. */
  lemma AsWrittenTableGap()
    ensures RankDecreasing(TRANSITIONS) && Consistent(TRANSITIONS)
    ensures !Covers(TRANSITIONS, STATE_SETUP_SIGNAL, STATE_ERROR)
    ensures !Closed(TRANSITIONS)
  {
    DeclaredEntries();
    DeclaredTableGap(TRANSITIONS);
  }

  /** The corrected table has none of the gaps: it is well formed. */
  lemma CorrectedTableWellFormed()
    ensures WellFormed(CORRECTED_TRANSITIONS)
    ensures Covers(CORRECTED_TRANSITIONS, FSM_INIT, FSM_USER_START)
  {
    CorrectedEntries();
    assert CORRECTED_TRANSITIONS[0] in CORRECTED_TRANSITIONS;
    CorrectedTableClosed(CORRECTED_TRANSITIONS);
  }

  // ---------------------------------------------------------------------
  // Run state: the parts of `struct arguments` the handlers read or write.
  // ---------------------------------------------------------------------

  /** `struct work_chunk`. */
  datatype WorkChunk = WorkChunk(start: nat, len: nat)

  /** `struct worker_state`; no code shown here reads or writes its fields. */
  datatype WorkerState = WorkerState(
    sockfd: int,
    startIndex: nat,
    workSize: nat,
    endIndex: nat,
    lastCheckpointIndex: nat,
    startedAt: int,
    durationSecs: int,
    lastHeard: int,
    checkpointInterval: nat,
    timeoutSeconds: nat,
    isAssigned: int,
    isAlive: int,
    recvBuf: seq<char>,
    recvLen: nat)

  /** `struct cracking_context`. */
  datatype CrackingContext = CrackingContext(
    hash: Option<string>,
    index: nat,
    workSize: nat,
    checkpoint: nat,
    timeout: nat,
    found: int,
    password: string,
    queue: Option<seq<WorkChunk>>,
    queueLen: nat,
    totalSecs: int)

  /** A resource `cleanup_handler` gives back. */
  datatype Release =
    | CloseSocket(fd: int)
    | CloseClients
    | FreeClientSockets
    | FreeClientStates
    | FreeFileDescriptors
    | FreeQueue

  /** What the handlers see and change: the listening socket, the cracking
      context, the client table, the interrupt flag set by `sigint_handler`,
      and the resources released so far. */
  datatype RunState = RunState(
    sockfd: int,
    crack: CrackingContext,
    clientStates: Option<seq<WorkerState>>,
    exitFlag: bool,
    released: seq<Release>)

  /** The state `main` starts from: its designated initializer zeroes every
      field it does not name, and `exit_flag` starts at 0. */
  function InitialState(): (s: RunState)
    ensures s.crack.index == 0 && s.crack.found == 0 && s.crack.queue == None && s.crack.queueLen == 0
    ensures s.crack.totalSecs == 0 && s.crack.password == "" && s.clientStates == None
    ensures s.sockfd == 0 && !s.exitFlag && s.released == []
  {
    RunState(0, CrackingContext(None, 0, 0, 0, 0, 0, "", None, 0, 0), None, false, [])
  }

  // ---------------------------------------------------------------------
  // Collaborators: functions the handlers call whose bodies are not part of
  // this model, given by what they return.
  // ---------------------------------------------------------------------

  /** One call of `polling`: what it returned, the cracking context and the
      client table it left (it receives both by pointer), and whether SIGINT
      arrived during it. */
  datatype PollStep = PollStep(status: int, crack: CrackingContext, clientStates: Option<seq<WorkerState>>, interrupted: bool)

  /** The results of the collaborators, in the conventions each handler tests:
      nonzero is failure, except `socket_create` and `sigaction` whose failure
      is -1. `polling` is a finite script of successive calls. */
  datatype Collaborators = Collaborators(
    parseArguments: int,
    handleArguments: int,
    convertAddress: int,
    socketCreate: int,
    socketBind: int,
    startListening: int,
    sigaction: int,
    interruptedBeforePolling: bool,
    polling: seq<PollStep>)

  /** The collaborator of a bootstrap handler reports failure. */
  predicate Fails(h: Handler, c: Collaborators) {
    match h
    case ParseArguments => c.parseArguments != 0
    case HandleArguments => c.handleArguments != 0
    case ConvertAddress => c.convertAddress != 0
    case CreateSocket => c.socketCreate == -1
    case BindSocket => c.socketBind != 0
    case Listen => c.startListening != 0
    case SetupSignal => c.sigaction == -1
    case _ => false
  }

  predicate IsBootstrap(h: Handler) {
    h in {ParseArguments, HandleArguments, ConvertAddress, CreateSocket, BindSocket, Listen, SetupSignal}
  }

  // ---------------------------------------------------------------------
  // Handlers.
  // ---------------------------------------------------------------------

  /** What one handler run yields: the id it returns (None while `polling`
      has not stopped by the end of its script), and the new state. */
  datatype Step = Step(next: Option<int>, state: RunState, err: ErrorRecord)

  /** The resources `cleanup_handler` releases from state `s`, in order. */
  function CleanupReleases(s: RunState): seq<Release> {
    (if s.sockfd != 0 then [CloseSocket(s.sockfd)] else [])
    + [CloseClients, FreeClientSockets, FreeClientStates, FreeFileDescriptors]
    + (if s.crack.queue.Some? then [FreeQueue] else [])
  }

  /** `cleanup_handler` closes the listening socket only when its descriptor is
      nonzero, frees the queue only when it was allocated, and releases the
      client tables every time. */
  lemma CleanupReleasesExactly(s: RunState)
    ensures CloseSocket(s.sockfd) in CleanupReleases(s) <==> s.sockfd != 0
    ensures FreeQueue in CleanupReleases(s) <==> s.crack.queue.Some?
    ensures CloseClients in CleanupReleases(s) && FreeClientStates in CleanupReleases(s)
    ensures forall fd :: CloseSocket(fd) in CleanupReleases(s) ==> fd == s.sockfd
  {
  }

  /** The interrupt flag as the polling loop first tests it. */
  function PollEntry(c: Collaborators, s: RunState): RunState {
    s.(exitFlag := s.exitFlag || c.interruptedBeforePolling)
  }

  /** The state one `polling` call leaves. */
  function AfterCall(step: PollStep, s: RunState): RunState {
    s.(crack := step.crack, clientStates := step.clientStates, exitFlag := s.exitFlag || step.interrupted)
  }

  /** `start_polling_handler`'s loop over a script of `polling` calls: stop with
      STATE_STOP_TIMER when the interrupt flag or `found` is set at the loop
      test, return STATE_ERROR on the first failing call, otherwise call again. */
  function Poll(steps: seq<PollStep>, s: RunState): (r: (Option<int>, RunState))
    ensures r.1.sockfd == s.sockfd && r.1.released == s.released
    ensures r.0.None? || r.0 == Some(STATE_STOP_TIMER) || r.0 == Some(STATE_ERROR)
    ensures r.0 == Some(STATE_STOP_TIMER) ==> r.1.exitFlag || r.1.crack.found != 0
    ensures r.0.None? ==> !r.1.exitFlag && r.1.crack.found == 0
    decreases |steps|
  {
    if s.exitFlag || s.crack.found != 0 then (Some(STATE_STOP_TIMER), s)
    else if steps == [] then (None, s)
    else
      var s' := AfterCall(steps[0], s);
      if steps[0].status != 0 then (Some(STATE_ERROR), s') else Poll(steps[1..], s')
  }

  /** The number of `polling` calls the loop makes. */
  function PollCalls(steps: seq<PollStep>, s: RunState): (n: nat)
    ensures n <= |steps|
    decreases |steps|
  {
    if s.exitFlag || s.crack.found != 0 || steps == [] then 0
    else if steps[0].status != 0 then 1
    else 1 + PollCalls(steps[1..], AfterCall(steps[0], s))
  }

  /** The loop returns STATE_ERROR exactly when its last call failed, and every
      call before the last one succeeded; it returns STATE_STOP_TIMER only after
      calls that all succeeded. */
  lemma {:induction false} PollFailsOnFirstError(steps: seq<PollStep>, s: RunState)
    ensures var n := PollCalls(steps, s);
      && (forall j :: 0 <= j < n - 1 ==> steps[j].status == 0)
      && (Poll(steps, s).0 == Some(STATE_ERROR) <==> n > 0 && steps[n - 1].status != 0)
      && (Poll(steps, s).0 != Some(STATE_ERROR) ==> forall j :: 0 <= j < n ==> steps[j].status == 0)
    decreases |steps|
  {
    if s.exitFlag || s.crack.found != 0 || steps == [] || steps[0].status != 0 {
    } else {
      var s' := AfterCall(steps[0], s);
      PollFailsOnFirstError(steps[1..], s');
      var n := PollCalls(steps, s);
      assert n == 1 + PollCalls(steps[1..], s');
      forall j | 0 <= j < n - 1
        ensures steps[j].status == 0
      {
        if j > 0 {
          assert steps[j] == steps[1..][j - 1];
        }
      }
      if Poll(steps, s).0 != Some(STATE_ERROR) {
        forall j | 0 <= j < n
          ensures steps[j].status == 0
        {
          if j > 0 {
            assert steps[j] == steps[1..][j - 1];
          }
        }
      }
      if n > 1 {
        assert steps[n - 1] == steps[1..][n - 2];
      }
    }
  }

  /** A handler run on its own: the id it returns and the state it leaves.
      Bootstrap handlers return STATE_ERROR when their collaborator fails and
      their successor otherwise; `setup_signal_handler` also raises an error
      on the record; `cleanup_handler` releases resources and clears it.
      A handler returns only ids `MayReturn` allows it, and every handler
      except the polling loop returns one. */
  function Handle(h: Handler, c: Collaborators, s: RunState, e: ErrorRecord): (r: Step)
    requires h != NoHandler
    ensures r.next.Some? ==> MayReturn(h, r.next.value)
    ensures h != StartPolling ==> r.next.Some?
  {
    match h
    case CreateSocket =>
      Step(Some(if c.socketCreate == -1 then STATE_ERROR else STATE_BIND_SOCKET), s.(sockfd := c.socketCreate), e)
    case SetupSignal =>
      if c.sigaction == -1 then Step(Some(STATE_ERROR), s, Raised(Some("sigaction"), 176, "setup_signal_handler", "main.c"))
      else Step(Some(STATE_START_TIMER), s, e)
    case StartPolling =>
      var (next, s') := Poll(c.polling, PollEntry(c, s));
      Step(next, s', e)
    case Cleanup =>
      Step(Some(FSM_EXIT), s.(released := s.released + CleanupReleases(s)), Cleared())
    case _ =>
      Step(Some(if Fails(h, c) then STATE_ERROR else Successor(h)), s, e)
  }

  /** Each bootstrap handler returns STATE_ERROR exactly when its collaborator
      fails and its one fixed successor otherwise; the timer, error and cleanup
      handlers always return their successor, so the table's entries from
      STATE_START_TIMER and STATE_STOP_TIMER to STATE_ERROR are never taken. */
  lemma HandlerResults(h: Handler, c: Collaborators, s: RunState, e: ErrorRecord)
    requires h != NoHandler && h != StartPolling
    ensures IsBootstrap(h) ==> Handle(h, c, s, e).next == Some(if Fails(h, c) then STATE_ERROR else Successor(h))
    ensures !IsBootstrap(h) ==> Handle(h, c, s, e).next == Some(Successor(h))
    ensures h == Error ==> Handle(h, c, s, e).next == Some(STATE_CLEANUP)
    ensures h == Cleanup ==> Handle(h, c, s, e).next == Some(FSM_EXIT)
  {
  }

  /** Only the cleanup handler changes the released resources, and only the
      socket, signal and cleanup handlers change anything but the context the
      polling loop owns. */
  lemma HandleKeepsReleases(h: Handler, c: Collaborators, s: RunState, e: ErrorRecord)
    requires h != NoHandler && h != Cleanup
    ensures Handle(h, c, s, e).state.released == s.released
    ensures h != CreateSocket ==> Handle(h, c, s, e).state.sockfd == s.sockfd
  {
  }

  // ---------------------------------------------------------------------
  // The driver.
  // ---------------------------------------------------------------------

  /** How a run ends: in FSM_EXIT, on a pair the table does not cover, or still
      inside the polling loop when its script runs out. */
  datatype End = Exited | NoTransition(fromId: int, toId: int) | StillPolling

  /** The states entered, in order, how the run ended, and the final state. */
  datatype Run = Run(visited: seq<int>, end: End, state: RunState, err: ErrorRecord)

  /** The driver's behaviour from the pair (`fromId`, `toId`): look the pair up,
      run the entry's handler, and continue from the state it returns. */
  function RunFrom(table: seq<Transition>, fromId: int, toId: int, c: Collaborators, s: RunState, e: ErrorRecord): (r: Run)
    requires RankDecreasing(table)
    ensures r.end.NoTransition? ==> Lookup(table, r.end.fromId, r.end.toId) in {None, Some(NoHandler)}
    ensures toId != FSM_EXIT && !r.end.NoTransition? ==> r.visited != []
    decreases Rank(fromId)
  {
    if toId == FSM_EXIT then Run([], Exited, s, e)
    else
      match Lookup(table, fromId, toId)
      case None => Run([], NoTransition(fromId, toId), s, e)
      case Some(h) =>
        if h == NoHandler then Run([], NoTransition(fromId, toId), s, e)
        else
          var step := Handle(h, c, s, e);
          match step.next
          case None => Run([toId], StillPolling, step.state, step.err)
          case Some(n) =>
            var rest := RunFrom(table, toId, n, c, step.state, step.err);
            Run([toId] + rest.visited, rest.end, rest.state, rest.err)
  }

  /** A whole run: the driver starts by entering FSM_USER_START from FSM_INIT. */
  function Execute(table: seq<Transition>, c: Collaborators, s: RunState, e: ErrorRecord): Run
    requires RankDecreasing(table)
  {
    RunFrom(table, FSM_INIT, FSM_USER_START, c, s, e)
  }

  /** A run over a well-formed table never meets an uncovered pair; if it ends
      it has entered STATE_CLEANUP exactly once, as its last state, released
      the cleanup resources once and left the error record cleared; every
      entry into STATE_ERROR is followed by STATE_CLEANUP; and a run still
      polling has released nothing. */
  ghost predicate CleanRun(r: Run, toId: int, s: RunState) {
    && !r.end.NoTransition?
    && |r.visited| > 0 && r.visited[0] == toId
    && (r.end == Exited ==>
          && r.visited[|r.visited| - 1] == STATE_CLEANUP
          && STATE_CLEANUP !in r.visited[..|r.visited| - 1]
          && r.err == Cleared()
          && r.state.released == s.released + CleanupReleases(r.state))
    && (r.end == StillPolling ==> STATE_CLEANUP !in r.visited && r.state.released == s.released)
    && (forall k :: 0 <= k < |r.visited| && r.visited[k] == STATE_ERROR ==>
          k + 1 < |r.visited| && r.visited[k + 1] == STATE_CLEANUP)
  }

  /** Every run of the driver over a well-formed table, from any pair the table
      covers, is a clean run. */
  lemma {:induction false} WellFormedRunsClean(table: seq<Transition>, fromId: int, toId: int, c: Collaborators, s: RunState, e: ErrorRecord)
    requires WellFormed(table) && Covers(table, fromId, toId) && toId != FSM_EXIT
    ensures CleanRun(RunFrom(table, fromId, toId, c, s, e), toId, s)
    decreases Rank(fromId)
  {
    LookupConsistent(table, fromId, toId);
    var h := HandlerFor(toId);
    assert h != NoHandler;
    var step := Handle(h, c, s, e);
    var r := RunFrom(table, fromId, toId, c, s, e);
    if step.next.Some? {
      var n := step.next.value;
      assert Covers(table, toId, n);
      if h != Cleanup {
        HandleKeepsReleases(h, c, s, e);
      }
      if n == FSM_EXIT {
        assert h == Cleanup;
      } else {
        WellFormedRunsClean(table, toId, n, c, step.state, step.err);
        var rest := RunFrom(table, toId, n, c, step.state, step.err);
        assert r.visited == [toId] + rest.visited;
        assert h != Cleanup;
        forall k | 0 <= k < |r.visited| && r.visited[k] == STATE_ERROR
          ensures k + 1 < |r.visited| && r.visited[k + 1] == STATE_CLEANUP
        {
          if k == 0 {
            assert n == STATE_CLEANUP;
          } else {
            assert rest.visited[k - 1] == STATE_ERROR;
          }
        }
        if r.end == Exited {
          assert r.visited[..|r.visited| - 1] == [toId] + rest.visited[..|rest.visited| - 1];
        }
      }
    }
  }

  /** One step of the driver over a consistent table, through one of its
      entries: when the entry's handler returns `next` and leaves `s'` and
      `e'`, the run enters `toId` and continues from (`toId`, `next`). */
  lemma RunStep(table: seq<Transition>, fromId: int, toId: int, h: Handler, c: Collaborators, s: RunState, e: ErrorRecord,
                next: int, s': RunState, e': ErrorRecord)
    requires RankDecreasing(table) && Consistent(table) && Transition(fromId, toId, h) in table
    requires toId != FSM_EXIT && h != NoHandler && Handle(h, c, s, e) == Step(Some(next), s', e')
    ensures RunFrom(table, fromId, toId, c, s, e) == Prepend([toId], RunFrom(table, toId, next, c, s', e'))
  {
    LookupConsistent(table, fromId, toId);
    HandlerServesItsState(h);
  }

  /** The run `r` after the states `vs`. */
  function Prepend(vs: seq<int>, r: Run): (r': Run)
    ensures r'.visited == vs + r.visited && r'.end == r.end && r'.state == r.state && r'.err == r.err
  {
    r.(visited := vs + r.visited)
  }

  /** Prefixing `v` and then `u` prefixes `u + v`. */
  lemma PrependTwice(u: seq<int>, v: seq<int>, r: Run)
    ensures Prepend(u, Prepend(v, r)) == Prepend(u + v, r)
  {
    assert u + (v + r.visited) == (u + v) + r.visited;
  }

  /** The handlers up to STATE_START_POLLING all succeed. */
  predicate BootstrapSucceeds(c: Collaborators) {
    && c.parseArguments == 0 && c.handleArguments == 0 && c.convertAddress == 0
    && c.socketCreate != -1 && c.socketBind == 0 && c.startListening == 0 && c.sigaction != -1
  }

  /** The states a successful run enters, in order. */
  const BOOTSTRAP_CHAIN: seq<int> := [
    STATE_PARSE_ARGUMENTS, STATE_HANDLE_ARGUMENTS, STATE_CONVERT_ADDRESS,
    STATE_CREATE_SOCKET, STATE_BIND_SOCKET, STATE_LISTEN, STATE_SETUP_SIGNAL,
    STATE_START_TIMER, STATE_START_POLLING, STATE_STOP_TIMER, STATE_CLEANUP]

  /** The table holds the bootstrap chain and its exit, in rank order and
      with each state's own handler. */
  ghost predicate ChainPresent(table: seq<Transition>) {
    && RankDecreasing(table) && Consistent(table)
    && Transition(FSM_INIT, STATE_PARSE_ARGUMENTS, ParseArguments) in table
    && Transition(STATE_PARSE_ARGUMENTS, STATE_HANDLE_ARGUMENTS, HandleArguments) in table
    && Transition(STATE_HANDLE_ARGUMENTS, STATE_CONVERT_ADDRESS, ConvertAddress) in table
    && Transition(STATE_CONVERT_ADDRESS, STATE_CREATE_SOCKET, CreateSocket) in table
    && Transition(STATE_CREATE_SOCKET, STATE_BIND_SOCKET, BindSocket) in table
    && Transition(STATE_BIND_SOCKET, STATE_LISTEN, Listen) in table
    && Transition(STATE_LISTEN, STATE_SETUP_SIGNAL, SetupSignal) in table
    && Transition(STATE_SETUP_SIGNAL, STATE_START_TIMER, StartTimer) in table
    && Transition(STATE_START_TIMER, STATE_START_POLLING, StartPolling) in table
    && Transition(STATE_START_POLLING, STATE_STOP_TIMER, StopTimer) in table
    && Transition(STATE_STOP_TIMER, STATE_CLEANUP, Cleanup) in table
    && Transition(STATE_CLEANUP, FSM_EXIT, NoHandler) in table
  }

  lemma DeclaredChainPresent(table: seq<Transition>)
    requires HoldsDeclared(table) || HoldsCorrected(table)
    ensures ChainPresent(table)
  {
    forall t | t in table ensures Rank(t.toId) < Rank(t.fromId) && StateOf(t.perform) == t.toId {
      DeclaredEntryOrdered(t);
    }
  }

  /** The first three handlers succeed: the run enters their states and moves
      on to socket creation with nothing changed. */
  lemma ArgumentsRun(table: seq<Transition>, c: Collaborators, s: RunState, e: ErrorRecord)
    requires ChainPresent(table)
    requires c.parseArguments == 0 && c.handleArguments == 0 && c.convertAddress == 0
    ensures RunFrom(table, FSM_INIT, STATE_PARSE_ARGUMENTS, c, s, e)
      == Prepend(BOOTSTRAP_CHAIN[..3], RunFrom(table, STATE_CONVERT_ADDRESS, STATE_CREATE_SOCKET, c, s, e))
  {
    var tail := RunFrom(table, STATE_CONVERT_ADDRESS, STATE_CREATE_SOCKET, c, s, e);
    assert BOOTSTRAP_CHAIN[..3] == [STATE_PARSE_ARGUMENTS] + ([STATE_HANDLE_ARGUMENTS] + [STATE_CONVERT_ADDRESS]);
    RunStep(table, STATE_HANDLE_ARGUMENTS, STATE_CONVERT_ADDRESS, ConvertAddress, c, s, e, STATE_CREATE_SOCKET, s, e);
    RunStep(table, STATE_PARSE_ARGUMENTS, STATE_HANDLE_ARGUMENTS, HandleArguments, c, s, e, STATE_CONVERT_ADDRESS, s, e);
    PrependTwice([STATE_HANDLE_ARGUMENTS], [STATE_CONVERT_ADDRESS], tail);
    RunStep(table, FSM_INIT, STATE_PARSE_ARGUMENTS, ParseArguments, c, s, e, STATE_HANDLE_ARGUMENTS, s, e);
    PrependTwice([STATE_PARSE_ARGUMENTS], [STATE_HANDLE_ARGUMENTS] + [STATE_CONVERT_ADDRESS], tail);
  }

  /** Socket creation, binding and listening succeed: the run enters their
      states and moves on to signal setup with the new descriptor. */
  lemma SocketRun(table: seq<Transition>, c: Collaborators, s: RunState, e: ErrorRecord)
    requires ChainPresent(table)
    requires c.socketCreate != -1 && c.socketBind == 0 && c.startListening == 0
    ensures RunFrom(table, STATE_CONVERT_ADDRESS, STATE_CREATE_SOCKET, c, s, e)
      == Prepend(BOOTSTRAP_CHAIN[3..6], RunFrom(table, STATE_LISTEN, STATE_SETUP_SIGNAL, c, s.(sockfd := c.socketCreate), e))
  {
    var s1 := s.(sockfd := c.socketCreate);
    var tail := RunFrom(table, STATE_LISTEN, STATE_SETUP_SIGNAL, c, s1, e);
    assert BOOTSTRAP_CHAIN[3..6] == [STATE_CREATE_SOCKET] + ([STATE_BIND_SOCKET] + [STATE_LISTEN]);
    RunStep(table, STATE_BIND_SOCKET, STATE_LISTEN, Listen, c, s1, e, STATE_SETUP_SIGNAL, s1, e);
    RunStep(table, STATE_CREATE_SOCKET, STATE_BIND_SOCKET, BindSocket, c, s1, e, STATE_LISTEN, s1, e);
    PrependTwice([STATE_BIND_SOCKET], [STATE_LISTEN], tail);
    RunStep(table, STATE_CONVERT_ADDRESS, STATE_CREATE_SOCKET, CreateSocket, c, s, e, STATE_BIND_SOCKET, s1, e);
    PrependTwice([STATE_CREATE_SOCKET], [STATE_BIND_SOCKET] + [STATE_LISTEN], tail);
  }

  /** Signal setup succeeds and polling stops normally: the run enters the
      remaining states and exits. */
  lemma ServingRun(table: seq<Transition>, c: Collaborators, s: RunState, e: ErrorRecord)
    requires ChainPresent(table)
    requires c.sigaction != -1 && Poll(c.polling, PollEntry(c, s)).0 == Some(STATE_STOP_TIMER)
    ensures RunFrom(table, STATE_LISTEN, STATE_SETUP_SIGNAL, c, s, e).visited == BOOTSTRAP_CHAIN[6..]
    ensures RunFrom(table, STATE_LISTEN, STATE_SETUP_SIGNAL, c, s, e).end == Exited
  {
    PollingRun(table, c, s, e);
    RunStep(table, STATE_SETUP_SIGNAL, STATE_START_TIMER, StartTimer, c, s, e, STATE_START_POLLING, s, e);
    RunStep(table, STATE_LISTEN, STATE_SETUP_SIGNAL, SetupSignal, c, s, e, STATE_START_TIMER, s, e);
  }

  /** Polling stops normally: the run stops the timer, cleans up and exits. */
  lemma PollingRun(table: seq<Transition>, c: Collaborators, s: RunState, e: ErrorRecord)
    requires ChainPresent(table)
    requires Poll(c.polling, PollEntry(c, s)).0 == Some(STATE_STOP_TIMER)
    ensures RunFrom(table, STATE_START_TIMER, STATE_START_POLLING, c, s, e).visited == BOOTSTRAP_CHAIN[8..]
    ensures RunFrom(table, STATE_START_TIMER, STATE_START_POLLING, c, s, e).end == Exited
  {
    var s2 := Poll(c.polling, PollEntry(c, s)).1;
    RunStep(table, STATE_STOP_TIMER, STATE_CLEANUP, Cleanup, c, s2, e, FSM_EXIT, s2.(released := s2.released + CleanupReleases(s2)), Cleared());
    RunStep(table, STATE_START_POLLING, STATE_STOP_TIMER, StopTimer, c, s2, e, STATE_CLEANUP, s2, e);
    RunStep(table, STATE_START_TIMER, STATE_START_POLLING, StartPolling, c, s, e, STATE_STOP_TIMER, s2, e);
  }

  /** When every step succeeds and polling stops normally, the run visits the
      whole bootstrap chain in order and ends in FSM_EXIT. */
  lemma SuccessPath(c: Collaborators, s: RunState, e: ErrorRecord)
    requires BootstrapSucceeds(c)
    requires Poll(c.polling, PollEntry(c, s.(sockfd := c.socketCreate))).0 == Some(STATE_STOP_TIMER)
    ensures RankDecreasing(CORRECTED_TRANSITIONS)
    ensures Execute(CORRECTED_TRANSITIONS, c, s, e).visited == BOOTSTRAP_CHAIN
    ensures Execute(CORRECTED_TRANSITIONS, c, s, e).end == Exited
  {
    CorrectedEntries();
    DeclaredChainPresent(CORRECTED_TRANSITIONS);
    ChainRun(CORRECTED_TRANSITIONS, c, s, e);
  }

  /** `SuccessPath` for any table holding the bootstrap chain. */
  lemma ChainRun(table: seq<Transition>, c: Collaborators, s: RunState, e: ErrorRecord)
    requires ChainPresent(table)
    requires BootstrapSucceeds(c)
    requires Poll(c.polling, PollEntry(c, s.(sockfd := c.socketCreate))).0 == Some(STATE_STOP_TIMER)
    ensures Execute(table, c, s, e).visited == BOOTSTRAP_CHAIN
    ensures Execute(table, c, s, e).end == Exited
  {
    var s1 := s.(sockfd := c.socketCreate);
    var serving := RunFrom(table, STATE_LISTEN, STATE_SETUP_SIGNAL, c, s1, e);
    var sockets := RunFrom(table, STATE_CONVERT_ADDRESS, STATE_CREATE_SOCKET, c, s, e);
    ArgumentsRun(table, c, s, e);
    SocketRun(table, c, s, e);
    ServingRun(table, c, s1, e);
    assert Execute(table, c, s, e).visited == BOOTSTRAP_CHAIN[..3] + (BOOTSTRAP_CHAIN[3..6] + serving.visited);
    assert BOOTSTRAP_CHAIN == BOOTSTRAP_CHAIN[..3] + (BOOTSTRAP_CHAIN[3..6] + BOOTSTRAP_CHAIN[6..]);
  }

  /** With the table as `main` declares it, a failing `sigaction` after an
      otherwise successful bootstrap leaves the driver on the uncovered pair
      (STATE_SETUP_SIGNAL, STATE_ERROR): the run never reaches the error or
      cleanup handler, so the error is never reported and the listening socket
      is never closed. */
  lemma SignalFailureStrandsRun(c: Collaborators, s: RunState, e: ErrorRecord)
    requires BootstrapSucceeds(c.(sigaction := 0)) && c.sigaction == -1
    ensures RankDecreasing(TRANSITIONS)
    ensures Execute(TRANSITIONS, c, s, e).visited == BOOTSTRAP_CHAIN[..7]
    ensures Execute(TRANSITIONS, c, s, e).end == NoTransition(STATE_SETUP_SIGNAL, STATE_ERROR)
    ensures Execute(TRANSITIONS, c, s, e).state.released == s.released
  {
    DeclaredEntries();
    DeclaredChainPresent(TRANSITIONS);
    DeclaredTableGap(TRANSITIONS);
    StrandedRun(TRANSITIONS, c, s, e);
  }

  /** `SignalFailureStrandsRun` for any table holding the bootstrap chain but
      no entry from STATE_SETUP_SIGNAL to STATE_ERROR. */
  lemma StrandedRun(table: seq<Transition>, c: Collaborators, s: RunState, e: ErrorRecord)
    requires ChainPresent(table) && !Covers(table, STATE_SETUP_SIGNAL, STATE_ERROR)
    requires BootstrapSucceeds(c.(sigaction := 0)) && c.sigaction == -1
    ensures Execute(table, c, s, e).visited == BOOTSTRAP_CHAIN[..7]
    ensures Execute(table, c, s, e).end == NoTransition(STATE_SETUP_SIGNAL, STATE_ERROR)
    ensures Execute(table, c, s, e).state.released == s.released
  {
    ArgumentsRun(table, c, s, e);
    SocketRun(table, c, s, e);
    var s1 := s.(sockfd := c.socketCreate);
    var e1 := Raised(Some("sigaction"), 176, "setup_signal_handler", "main.c");
    LookupConsistent(table, STATE_SETUP_SIGNAL, STATE_ERROR);
    assert RunFrom(table, STATE_SETUP_SIGNAL, STATE_ERROR, c, s1, e1) == Run([], NoTransition(STATE_SETUP_SIGNAL, STATE_ERROR), s1, e1);
    RunStep(table, STATE_LISTEN, STATE_SETUP_SIGNAL, SetupSignal, c, s1, e, STATE_ERROR, s1, e1);
    assert BOOTSTRAP_CHAIN[..7] == BOOTSTRAP_CHAIN[..3] + BOOTSTRAP_CHAIN[3..6] + [STATE_SETUP_SIGNAL];
  }

  /** `start_polling_handler`: the loop over `polling`, tested against the
      interrupt flag and `found` before every call. */
  method StartPollingHandler(c: Collaborators, s: RunState) returns (next: Option<int>, s': RunState)
    ensures (next, s') == Poll(c.polling, PollEntry(c, s))
  {
    s' := PollEntry(c, s);
    var i := 0;
    while !s'.exitFlag && s'.crack.found == 0
      invariant 0 <= i <= |c.polling|
      invariant Poll(c.polling[i..], s') == Poll(c.polling, PollEntry(c, s))
      decreases |c.polling| - i
    {
      if i == |c.polling| {
        return None, s';
      }
      var step := c.polling[i];
      s' := s'.(crack := step.crack, clientStates := step.clientStates, exitFlag := s'.exitFlag || step.interrupted);
      if step.status != 0 {
        return Some(STATE_ERROR), s';
      }
      i := i + 1;
    }
    next := Some(STATE_STOP_TIMER);
  }

  /** Runs one handler against the run state and the caller's error record. */
  method PerformHandler(h: Handler, c: Collaborators, s: RunState, err: FsmError) returns (next: Option<int>, s': RunState)
    requires h != NoHandler && err.initialised
    modifies err
    ensures Step(next, s', err.Record()) == Handle(h, c, s, old(err.Record())) && err.initialised
  {
    match h
    case SetupSignal =>
      if c.sigaction == -1 {
        SetError(err, Some("sigaction"), 176, "setup_signal_handler", "main.c");
        next, s' := Some(STATE_ERROR), s;
      } else {
        next, s' := Some(STATE_START_TIMER), s;
      }
    case StartPolling =>
      next, s' := StartPollingHandler(c, s);
    case Cleanup =>
      s' := s.(released := s.released + CleanupReleases(s));
      ErrorClear(err);
      next := Some(FSM_EXIT);
    case ParseArguments | HandleArguments | ConvertAddress | CreateSocket | BindSocket | Listen | StartTimer | StopTimer | Error =>
      var step := Handle(h, c, s, err.Record());
      next, s' := step.next, step.state;
  }

  /** The driver loop (`fsm_run`): a current pair (from, to); look it up, run
      its handler, and move on until FSM_EXIT is entered. */
  method FsmRun(table: seq<Transition>, c: Collaborators, s0: RunState, err: FsmError) returns (r: Run)
    requires RankDecreasing(table) && err.initialised
    modifies err
    ensures r == Execute(table, c, s0, old(err.Record()))
    ensures err.Record() == r.err
  {
    ghost var whole := Execute(table, c, s0, err.Record());
    var fromId, toId := FSM_INIT, FSM_USER_START;
    var s := s0;
    var visited: seq<int> := [];
    while toId != FSM_EXIT
      invariant err.initialised
      invariant var rest := RunFrom(table, fromId, toId, c, s, err.Record());
        visited + rest.visited == whole.visited && rest.end == whole.end && rest.state == whole.state && rest.err == whole.err
      decreases Rank(fromId)
    {
      var perform := Lookup(table, fromId, toId);
      if perform.None? || perform.value == NoHandler {
        return Run(visited, NoTransition(fromId, toId), s, err.Record());
      }
      ghost var rest := RunFrom(table, fromId, toId, c, s, err.Record());
      var next;
      next, s := PerformHandler(perform.value, c, s, err);
      if next.None? {
        return Run(visited + [toId], StillPolling, s, err.Record());
      }
      ghost var rest' := RunFrom(table, toId, next.value, c, s, err.Record());
      assert rest.visited == [toId] + rest'.visited;
      visited := visited + [toId];
      fromId, toId := toId, next.value;
    }
    r := Run(visited, Exited, s, err.Record());
  }

  /** `main` as it would be with its record initialised and the corrected
      table: the record starts with whatever its storage held, is cleared by
      `fsm_error_init` before the driver runs (so every `free` of its message
      is given NULL or an owned copy), and `main` returns 0 whichever way the
      run ended. */
  method ServerMain(c: Collaborators, uninitialised: ErrorRecord) returns (status: int, r: Run)
    ensures status == 0
    ensures r == Execute(CORRECTED_TRANSITIONS, c, InitialState(), Cleared())
    ensures r.end == Exited || r.end == StillPolling
    ensures r.end == Exited ==> r.visited[|r.visited| - 1] == STATE_CLEANUP && STATE_CLEANUP !in r.visited[..|r.visited| - 1]
    ensures r.end == Exited ==> r.err == Cleared() && r.state.released == CleanupReleases(r.state)
    ensures forall k :: 0 <= k < |r.visited| && r.visited[k] == STATE_ERROR ==> k + 1 < |r.visited| && r.visited[k + 1] == STATE_CLEANUP
  {
    var err := new FsmError(uninitialised);
    ErrorInit(err);
    CorrectedTableWellFormed();
    r := FsmRun(CORRECTED_TRANSITIONS, c, InitialState(), err);
    CleanExecution(CORRECTED_TRANSITIONS, c, InitialState(), Cleared());
    status := 0;
  }

  /** `main` never initialises `err`, and no handler before cleanup writes
      it on a successful run: with the declared table, the cleanup handler
      runs on exactly the record `main` passed in, whose message pointer
      `fsm_error_clear` then frees. */
  lemma UninitialisedRecordReachesCleanup(c: Collaborators, s: RunState, e: ErrorRecord)
    requires BootstrapSucceeds(c)
    requires Poll(c.polling, PollEntry(c, s.(sockfd := c.socketCreate))).0 == Some(STATE_STOP_TIMER)
    ensures RankDecreasing(TRANSITIONS)
    ensures var s2 := Poll(c.polling, PollEntry(c, s.(sockfd := c.socketCreate))).1;
      Execute(TRANSITIONS, c, s, e) == Prepend(BOOTSTRAP_CHAIN[..10], RunFrom(TRANSITIONS, STATE_STOP_TIMER, STATE_CLEANUP, c, s2, e))
  {
    DeclaredEntries();
    DeclaredChainPresent(TRANSITIONS);
    RecordReachesCleanup(TRANSITIONS, c, s, e);
  }

  /** `UninitialisedRecordReachesCleanup` for any table holding the bootstrap
      chain. */
  lemma RecordReachesCleanup(table: seq<Transition>, c: Collaborators, s: RunState, e: ErrorRecord)
    requires ChainPresent(table)
    requires BootstrapSucceeds(c)
    requires Poll(c.polling, PollEntry(c, s.(sockfd := c.socketCreate))).0 == Some(STATE_STOP_TIMER)
    ensures var s2 := Poll(c.polling, PollEntry(c, s.(sockfd := c.socketCreate))).1;
      Execute(table, c, s, e) == Prepend(BOOTSTRAP_CHAIN[..10], RunFrom(table, STATE_STOP_TIMER, STATE_CLEANUP, c, s2, e))
  {
    var s1 := s.(sockfd := c.socketCreate);
    var s2 := Poll(c.polling, PollEntry(c, s1)).1;
    var tail := RunFrom(table, STATE_STOP_TIMER, STATE_CLEANUP, c, s2, e);
    assert BOOTSTRAP_CHAIN[3..6] + BOOTSTRAP_CHAIN[6..10] == BOOTSTRAP_CHAIN[3..10];
    assert BOOTSTRAP_CHAIN[..3] + BOOTSTRAP_CHAIN[3..10] == BOOTSTRAP_CHAIN[..10];
    SignalToStopTimer(table, c, s1, e);
    SocketRun(table, c, s, e);
    PrependTwice(BOOTSTRAP_CHAIN[3..6], BOOTSTRAP_CHAIN[6..10], tail);
    ArgumentsRun(table, c, s, e);
    PrependTwice(BOOTSTRAP_CHAIN[..3], BOOTSTRAP_CHAIN[3..10], tail);
  }

  /** From signal setup, with polling stopping normally, the run enters the
      signal, timer, polling and stop-timer states and reaches the pair
      (STATE_STOP_TIMER, STATE_CLEANUP) with the record unchanged. */
  lemma SignalToStopTimer(table: seq<Transition>, c: Collaborators, s: RunState, e: ErrorRecord)
    requires ChainPresent(table)
    requires c.sigaction != -1 && Poll(c.polling, PollEntry(c, s)).0 == Some(STATE_STOP_TIMER)
    ensures var s2 := Poll(c.polling, PollEntry(c, s)).1;
      RunFrom(table, STATE_LISTEN, STATE_SETUP_SIGNAL, c, s, e) == Prepend(BOOTSTRAP_CHAIN[6..10], RunFrom(table, STATE_STOP_TIMER, STATE_CLEANUP, c, s2, e))
  {
    var s2 := Poll(c.polling, PollEntry(c, s)).1;
    var tail := RunFrom(table, STATE_STOP_TIMER, STATE_CLEANUP, c, s2, e);
    var polling := [STATE_START_POLLING] + [STATE_STOP_TIMER];
    var timer := [STATE_START_TIMER] + polling;
    assert BOOTSTRAP_CHAIN[6..10] == [STATE_SETUP_SIGNAL] + timer;
    RunStep(table, STATE_START_POLLING, STATE_STOP_TIMER, StopTimer, c, s2, e, STATE_CLEANUP, s2, e);
    RunStep(table, STATE_START_TIMER, STATE_START_POLLING, StartPolling, c, s, e, STATE_STOP_TIMER, s2, e);
    PrependTwice([STATE_START_POLLING], [STATE_STOP_TIMER], tail);
    RunStep(table, STATE_SETUP_SIGNAL, STATE_START_TIMER, StartTimer, c, s, e, STATE_START_POLLING, s, e);
    PrependTwice([STATE_START_TIMER], polling, tail);
    RunStep(table, STATE_LISTEN, STATE_SETUP_SIGNAL, SetupSignal, c, s, e, STATE_START_TIMER, s, e);
    PrependTwice([STATE_SETUP_SIGNAL], timer, tail);
  }

  /** A whole run over a well-formed table that covers the first pair is a
      clean run. */
  lemma CleanExecution(table: seq<Transition>, c: Collaborators, s: RunState, e: ErrorRecord)
    requires WellFormed(table) && Covers(table, FSM_INIT, FSM_USER_START)
    ensures CleanRun(Execute(table, c, s, e), FSM_USER_START, s)
  {
    WellFormedRunsClean(table, FSM_INIT, FSM_USER_START, c, s, e);
  }
}
