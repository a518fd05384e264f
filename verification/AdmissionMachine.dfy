/** Every interleaving of sessions over one admission gate.

    Each session has a program counter that says at which `await` it is suspended. A
    step runs one session from that await to the next; steps of different sessions
    alternate freely, and cancellation is a step at every await that can receive it. */
module AdmissionMachine {
  import opened Options
  import opened AdmissionGate

  datatype Pc =
    | Idle                                    // no open_attempt in progress, no attempt held
    | Waiting(generation: nat, notified: bool, asWaiter: bool)   // in condition.wait()
    | Sleeping(generation: nat, wakeAt: real) // the leader's back-off
    | LeavingLead(generation: nat)            // cancelled while sleeping: abandon is due
    | AtLimiter(permit: Permit)               // in acquire_if
    | AtSemaphore(permit: Permit)             // waiting for a concurrency slot
    | DroppingPermit(permit: Permit, again: bool)   // abandon is due, then loop or raise
    | Running(permit: Permit, latched: bool)  // attempt held, not resolved
    | Resolved                                // attempt held and resolved
    | Closing(permit: Permit)                 // aclose of an unresolved attempt
  {
    /** The generation of the unresolved probe this session holds, if any. */
    function Held(): Option<nat> {
      match this
      case AtLimiter(Probe(g)) => Some(g)
      case AtSemaphore(Probe(g)) => Some(g)
      case DroppingPermit(Probe(g), _) => Some(g)
      case Running(Probe(g), _) => Some(g)
      case Closing(Probe(g)) => Some(g)
      case _ => None
    }

    predicate HoldsSlot() { Running? || Resolved? || Closing? }

    /** Inside open_attempt, after its budget check. */
    predicate Entering() {
      Waiting? || Sleeping? || AtLimiter? || AtSemaphore? || (DroppingPermit? && again)
    }

    /** May reach a claim without another look at the session's terminal error. */
    predicate PastChecks() { Sleeping? || AtLimiter? || AtSemaphore? }
  }

  /** What a run's history records. `Backoff`: a retryable failure of the episode set
      its probe time. `Dropped`: the episode lost its leader without a failure. */
  datatype Event =
    | Claim(session: SessionId, permit: Permit, at: real)
    | Backoff(generation: nat, until: real)
    | Dropped(generation: nat)

  datatype State = State(
    config: Config, now: real, gate: Gate, pcs: map<SessionId, Pc>,
    detached: set<(SessionId, nat)>,   // abandons left running by a cancelled aclose
    log: seq<Event>)

  datatype Step =
    | NewSession(s: SessionId)
    | OpenAttempt(s: SessionId)
    | Wake(s: SessionId)
    | EndSleep(s: SessionId)
    | LeaveLead(s: SessionId)
    | PassLimiter(s: SessionId)
    | TakeSlot(s: SessionId)
    | DropPermit(s: SessionId)
    | Succeed(s: SessionId)
    | Correct(s: SessionId)
    | LatchOn(s: SessionId, error: Error)
    | Reject(s: SessionId)
    | Fail(s: SessionId, error: Error, jitter: real, terminalJitter: real)
    | Close(s: SessionId)
    | FinishClose(s: SessionId)
    | CancelClose(s: SessionId)
    | FinishDetached(s: SessionId, generation: nat)
    | Cancel(s: SessionId)

  type Elapsed = d: real | d >= 0.0 witness 0.0

  predicate WellFormed(st: State) { st.pcs.Keys == st.gate.sessions.Keys }

  function Init(config: Config): State {
    State(config, 0.0, Gate(None, 1, None, config.maxConcurrency, map[]), map[], {}, [])
  }

  function Goto(st: State, s: SessionId, pc: Pc): State { st.(pcs := st.pcs[s := pc]) }

  function NotifyAll(pcs: map<SessionId, Pc>): map<SessionId, Pc> {
    map s | s in pcs :: if pcs[s].Waiting? then pcs[s].(notified := true) else pcs[s]
  }

  function WithEffect(st: State, e: Effect): State {
    st.(gate := e.gate, pcs := if e.notify then NotifyAll(st.pcs) else st.pcs)
  }

  /** A block with effect `e` that leaves session `s` at `pc`. */
  function Run(st: State, s: SessionId, e: Effect, pc: Pc): State { Goto(WithEffect(st, e), s, pc) }

  function Record(st: State, e: Event): State { st.(log := st.log + [e]) }

  /** One iteration of the gate's loop up to its await. The condition's lock is never held
      across a suspension, so taking it does not suspend: the checks and the locked block
      are one stretch. */
  function AtTop(st: State, s: SessionId): State
    requires s in st.gate.sessions
  {
    var (gate, outcome) := CheckTop(st.gate, s, st.now);
    if outcome.Proceed? then TakeGate(st.(gate := gate), s) else Goto(st.(gate := gate), s, Idle)
  }

  function DoOpen(st: State, s: SessionId): State
    requires s in st.gate.sessions
  {
    if st.gate.sessions[s].CanAttempt() then AtTop(st, s) else st
  }

  function TakeGate(st: State, s: SessionId): State {
    var (gate, outcome) := EnterEpisode(st.gate, s, st.now);
    Goto(st.(gate := gate), s, GatePc(outcome, st.now))
  }

  /** Where the gate's locked block leaves its session. */
  function GatePc(outcome: GateOutcome, now: real): Pc {
    match outcome
    case Granted(p) => AtLimiter(p)
    case Quarantined(_) => Idle
    case AwaitOwnProbe(g) => Waiting(g, false, false)
    case AwaitEpisode(g) => Waiting(g, false, true)
    case SleepFor(g, d) => Sleeping(g, now + d)
  }

  function DoEndSleep(st: State, s: SessionId, generation: nat): State
    requires s in st.gate.sessions
  {
    var (gate, granted) := ClaimAfterSleep(st.gate, s, generation);
    if granted then Goto(st.(gate := gate), s, AtLimiter(Probe(generation))) else AtTop(st, s)
  }

  function DoLeaveLead(st: State, s: SessionId, generation: nat): State {
    var e := AbandonWaitingLeader(st.gate, s, generation);
    var left := Run(st, s, e, Idle);
    if e.notify then Record(left, Dropped(generation)) else left
  }

  /** Run an abandon of `permit`; the session's own program counter is set by the caller. */
  function DoAbandon(st: State, s: SessionId, p: Permit): State {
    var e := Abandoned(st.gate, s, p, st.now);
    var left := WithEffect(st, e);
    if e.notify then Record(left, Dropped(p.generation)) else left
  }

  function DoDropPermit(st: State, s: SessionId, p: Permit, again: bool): State
    requires s in st.gate.sessions
  {
    var left := DoAbandon(st, s, p);
    if again then AtTop(left, s) else Goto(left, s, Idle)
  }

  function DoPassLimiter(st: State, s: SessionId, p: Permit): State {
    Goto(st, s, if PermitIsCurrent(st.gate, s, p) then AtSemaphore(p) else DroppingPermit(p, true))
  }

  function DoTakeSlot(st: State, s: SessionId, p: Permit): State
    requires s in st.gate.sessions && st.gate.freeSlots > 0
  {
    if !PermitIsCurrent(st.gate, s, p) then Goto(st, s, DroppingPermit(p, true))
    else if !st.gate.sessions[s].CanAttempt() then Goto(st, s, DroppingPermit(p, false))
    else
      var b := st.gate.sessions[s];
      var gate := st.gate.(freeSlots := st.gate.freeSlots - 1,
                           sessions := st.gate.sessions[s := b.(attemptsStarted := b.attemptsStarted + 1)]);
      Record(Goto(st.(gate := gate), s, Running(p, false)), Claim(s, p, st.now))
  }

  function DoFail(st: State, s: SessionId, p: Permit, error: Error, jitter: real, terminalJitter: real): State
    requires s in st.gate.sessions
  {
    var attempt := st.gate.sessions[s].attemptsStarted;
    var delay := RetryDelay(st.config, error, attempt, jitter);
    var terminalDelay := RetryDelay(st.config, error, attempt, terminalJitter);
    var e := Failed(st.gate, s, p, error, delay, terminalDelay, st.now);
    var failed := Run(st, s, e, Resolved);
    if st.gate.sessions[s].CanAttempt() && (st.gate.episode.None? || MatchingProbe(st.gate, s, p))
    then Record(failed, Backoff(e.gate.episode.value.generation, st.now + delay))
    else failed
  }

  function DoCancel(st: State, s: SessionId): State
    requires s in st.pcs
  {
    match st.pcs[s]
    case Waiting(g, _, asWaiter) =>
      Goto(if asWaiter then st.(gate := LeaveWaiters(st.gate, s, g)) else st, s, Idle)
    case Sleeping(g, _) => Goto(st, s, LeavingLead(g))
    case AtLimiter(p) => Goto(st, s, DroppingPermit(p, false))
    case AtSemaphore(p) => Goto(st, s, DroppingPermit(p, false))
    case _ => st
  }

  function ReleaseSlot(st: State): State {
    st.(gate := st.gate.(freeSlots := st.gate.freeSlots + 1))
  }

  /** What the holder of an unresolved attempt may do: resolve it or close it. */
  function ActRunning(st: State, s: SessionId, step: Step, p: Permit, latched: bool): State
    requires s in st.gate.sessions
  {
    if step.Close? then Goto(st, s, Closing(p))
    else if step.Reject? then Run(st, s, Rejected(st.gate, s, p), Resolved)
    else if latched then st
    else if step.Succeed? then Run(st, s, Succeeded(st.gate, s, p), Resolved)
    else if step.Correct? then Run(st, s, Corrected(st.gate, s, p, st.now), Resolved)
    else if step.LatchOn? then
      Run(st, s, LatchAuth(st.gate, st.now + st.config.authLatchTtl, step.error), Running(p, true))
    else if step.Fail? && JitterSample(st.config, step.jitter) && JitterSample(st.config, step.terminalJitter) then
      DoFail(st, s, p, step.error, step.jitter, step.terminalJitter)
    else st
  }

  function ActClosing(st: State, s: SessionId, step: Step, p: Permit): State {
    if step.FinishClose? then Goto(ReleaseSlot(DoAbandon(st, s, p)), s, Idle)
    else if step.CancelClose? then
      Goto(ReleaseSlot(st.(detached := if p.Probe? then st.detached + {(s, p.generation)} else st.detached)), s, Idle)
    else st
  }

  /** What a known session's step does, by the await the session is suspended at. */
  function ActKnown(st: State, s: SessionId, step: Step): State
    requires s in st.pcs && s in st.gate.sessions
  {
    if step.Cancel? then DoCancel(st, s)
    else
      match st.pcs[s]
      case Idle => if step.OpenAttempt? then DoOpen(st, s) else st
      case Waiting(_, notified, _) => if step.Wake? && notified then AtTop(st, s) else st
      case Sleeping(g, wakeAt) => if step.EndSleep? && st.now >= wakeAt then DoEndSleep(st, s, g) else st
      case LeavingLead(g) => if step.LeaveLead? then DoLeaveLead(st, s, g) else st
      case AtLimiter(p) => if step.PassLimiter? then DoPassLimiter(st, s, p) else st
      case AtSemaphore(p) => if step.TakeSlot? && st.gate.freeSlots > 0 then DoTakeSlot(st, s, p) else st
      case DroppingPermit(p, again) => if step.DropPermit? then DoDropPermit(st, s, p, again) else st
      case Running(p, latched) => ActRunning(st, s, step, p, latched)
      case Resolved => if step.Close? then Goto(ReleaseSlot(st), s, Idle) else st
      case Closing(p) => ActClosing(st, s, step, p)
  }

  function DoNewSession(st: State, s: SessionId): State {
    Goto(st.(gate := st.gate.(sessions := st.gate.sessions[s := Budget(st.config.maxAttempts, 0, None)])), s, Idle)
  }

  function DoFinishDetached(st: State, s: SessionId, generation: nat): State {
    DoAbandon(st.(detached := st.detached - {(s, generation)}), s, Probe(generation))
  }

  /** One step at time `st.now`. A step whose session is elsewhere changes nothing. */
  function Act(st: State, step: Step): State {
    if step.s !in st.pcs || step.s !in st.gate.sessions then if step.NewSession? then DoNewSession(st, step.s) else st
    else if step.FinishDetached? then
      if (step.s, step.generation) in st.detached then DoFinishDetached(st, step.s, step.generation) else st
    else ActKnown(st, step.s, step)
  }

  /** Either time passes, or one step is taken. */
  datatype Move = Wait(elapsed: Elapsed) | Take(step: Step)

  function Next(st: State, move: Move): State {
    match move
    case Wait(elapsed) => st.(now := st.now + elapsed)
    case Take(step) => Act(st, step)
  }

  /** A whole run: any steps of any sessions in any order, at any times. */
  function Execute(st: State, moves: seq<Move>): State {
    if moves == [] then st else Next(Execute(st, moves[..|moves| - 1]), moves[|moves| - 1])
  }
}
