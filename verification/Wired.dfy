/** The settled system together with the handler it listens to. A message is read
    only if the handler has sent it, in order; a handler that is awaited says the rest
    of its conversation first; and a handler whose task has returned takes nothing any
    more. */
module Wired {
  import opened Wrappers
  import opened StateMachine
  import opened ManagerModel
  import opened Async
  import opened Drained
  import opened DrainedInvariant
  import opened HandlerLine

  datatype Wired = Wired(b: Settled, line: Line)

  /** The handler sends a message, or returns, or the manager takes a step; `farewell`
      is what a handler says while the step awaits it. */
  datatype Move = Speak(update: WsUpdate) | Return | Take(step: Step, farewell: seq<WsUpdate>)

  predicate Awaits(b: Settled, step: Step)
    requires CanStep(b, step)
  {
    b.m.ws.joinHandle.Some? && Reacted(b, step).ws.joinHandle.None?
  }

  predicate Starts(b: Settled, step: Step) {
    step.HandleUpdate? && b.pend != [] && b.pend[0].Emitted? && b.pend[0].output.ConnectToTv?
  }

  predicate Refuses(env: Env) {
    !env.answer.sent && forall a | a in env.queryAnswers :: !a.sent
  }

  predicate Reads(step: Step) {
    step.HandleExternal? && step.event.FromWs?
  }

  predicate CanTake(w: Wired, step: Step, farewell: seq<WsUpdate>) {
    && CanStep(w.b, step)
    && (Reads(step) ==> w.line.inbox != [] && w.line.inbox[0] == step.event.update)
    && (!w.line.open ==> Refuses(step.env))
    && (if Awaits(w.b, step) then SaysAll(w.line.stage, farewell) == Some(Ended) else farewell == [])
  }

  predicate CanMove(w: Wired, mv: Move) {
    match mv
    case Speak(u) => Says(w.line.stage, u).Some?
    case Return => w.line.stage.Ended? && w.line.open
    case Take(step, farewell) => CanTake(w, step, farewell)
  }

  function ReadOne(line: Line): Line {
    if line.inbox == [] || Says(line.heard, line.inbox[0]).None? then line
    else line.(heard := Says(line.heard, line.inbox[0]).value, inbox := line.inbox[1..])
  }

  function LineAfter(w: Wired, step: Step, farewell: seq<WsUpdate>): Line
    requires CanTake(w, step, farewell)
  {
    if Starts(w.b, step) then NEW_HANDLER
    else
      var line := if Reads(step) then ReadOne(w.line) else w.line;
      var held := !Awaits(w.b, step);
      line.(inbox := line.inbox + farewell, stage := if held then line.stage else Ended, open := line.open && held)
  }

  function AfterMove(w: Wired, mv: Move): Wired
    requires CanMove(w, mv)
  {
    match mv
    case Speak(u) => w.(line := w.line.(inbox := w.line.inbox + [u], stage := Says(w.line.stage, u).value))
    case Return => w.(line := w.line.(open := false))
    case Take(step, farewell) => Wired(After(w.b, step), LineAfter(w, step, farewell))
  }

  predicate CanMoves(w: Wired, mvs: seq<Move>)
    decreases |mvs|
  {
    mvs == [] || (CanMove(w, mvs[0]) && CanMoves(AfterMove(w, mvs[0]), mvs[1..]))
  }

  function MovesFrom(w: Wired, mvs: seq<Move>): Wired
    requires CanMoves(w, mvs)
    decreases |mvs|
  {
    if mvs == [] then w else MovesFrom(AfterMove(w, mvs[0]), mvs[1..])
  }

  function StartWired(created: Disk, started: Disk, operational: bool): Wired {
    Wired(Settle(Start(created, started, operational)), NO_HANDLER)
  }

  /** The steps the manager takes. */
  function StepsOf(mvs: seq<Move>): seq<Step> {
    if mvs == [] then []
    else if !mvs[0].Take? then StepsOf(mvs[1..])
    else [mvs[0].step] + StepsOf(mvs[1..])
  }

  /** Main result: every run with its handlers is, step for step of the manager, a run
      of the settled system; so whatever holds of all its runs holds of these. */
  lemma {:induction false} MovesAreSteps(w: Wired, mvs: seq<Move>)
    requires CanMoves(w, mvs)
    ensures CanRun(w.b, StepsOf(mvs)) && RunFrom(w.b, StepsOf(mvs)) == MovesFrom(w, mvs).b
    decreases |mvs|
  {
    hide After, CanStep, LineAfter, CanTake;
    if mvs != [] {
      MoveIsStep(w, mvs[0]);
      MovesAreSteps(AfterMove(w, mvs[0]), mvs[1..]);
      if mvs[0].Take? {
        assert StepsOf(mvs)[1..] == StepsOf(mvs[1..]);
      }
    }
  }

  lemma MoveIsStep(w: Wired, mv: Move)
    requires CanMove(w, mv)
    ensures !mv.Take? ==> AfterMove(w, mv).b == w.b
    ensures mv.Take? ==> CanStep(w.b, mv.step) && AfterMove(w, mv).b == After(w.b, mv.step)
  {
    hide After, CanStep;
  }

  // --------------------------------------------------------------- the invariant

  /** How far the manager has read agrees with the machine. */
  predicate Placed(heard: Stage, fsm: State, tail: Option<Output>) {
    match fsm
    case Connecting(_) => tail == None ==> heard.Starting? || heard.Dialling?
    case Connected(_) => heard.Talking? || heard.Failing? || heard.Ended?
    case Pairing(_) => heard.Talking? || heard.Failing? || heard.Ended?
    case Initializing(_) => heard.Talking? || heard.Failing? || heard.Ended?
    case Communicating(_) => heard.Talking? || heard.Failing? || heard.Ended?
    case Disconnecting(_) => heard.Talking? || heard.Failing? || heard.Ended?
    case _ => true
  }

  predicate WiredInv(w: Wired) {
    && Inv(w.b)
    && Coherent(w.line)
    && (w.b.m.ws.joinHandle.None? ==> !w.line.open)
    && Placed(w.line.heard, w.b.fsm, Tail(w.b.pend))
  }

  lemma StartIsWired(created: Disk, started: Disk, operational: bool)
    ensures WiredInv(StartWired(created, started, operational))
  {
  }

  lemma PlacedAfterInput(heard: Stage, fsm: State, i: Input)
    requires Placed(heard, fsm, None) && !i.AttemptRegister?
    ensures Placed(heard, Next(fsm, i), Tail(Emit(fsm, i)))
  {
  }

  lemma PlacedAfterReading(heard: Stage, fsm: State, u: WsUpdate, sent: seq<Input>)
    requires Placed(heard, fsm, None) && Says(heard, u).Some?
    requires |sent| <= 1 && (sent != [] ==> !sent[0].Connect? && !sent[0].Reset?)
    requires u.WsConnected? ==> sent == [AttemptRegister]
    requires !u.WsConnected? ==> AttemptRegister !in sent
    requires u.WsDisconnected? ==> sent == [DisconnectionComplete]
    requires u.WsConnectError? || u.WsServerClosedConnection? || u.WsMessageReadError? ==> sent == [Error]
    ensures sent == [] ==> Placed(Says(heard, u).value, fsm, None)
    ensures sent != [] ==> Placed(Says(heard, u).value, Next(fsm, sent[0]), Tail(Emit(fsm, sent[0])))
  {
  }
}
