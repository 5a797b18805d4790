/**
 `Run`, `Stop`, the main loop and the key/value operations of one server, called by any number of
 threads at the same time. As in module Interleaving, a run is a sequence of step labels, a
 label that is not possible when its turn comes changes nothing, and a statement about
 `After(s, steps)` for all `steps` is about every reachable state.
 */
module Lifecycle {
  import opened Wrappers

  type Tid = nat

  datatype Node = Fresh | Started | Closed

  datatype Loop = NotStarted | Looping | LoopDone

  datatype Pc =
    | Idle
    | RunSawStopped | RunChecked                                      // running was false; the node was there
    | RunStarted | RunReady                                          // node started, chain there
    | RunHasCancel | RunHasLoop                                       // cancelFunc set, main loop registered
    | StopWon | StopWaiting | StopLocking | StopHasDB | StopClosedDB  // up to the state database
    | StopBeacon | StopNode
    | KvSawRunning | KvLocked | KvUsing | KvUsed
    | Generating                                                      // between its call and its use of the chain

  /** A field that points to something that can be closed: not nil, not yet closed, closed how often. */
  datatype Resource = Resource(there: bool, open: bool, closes: nat)

  /** What the calls so far have come to. The owner is the thread between starting the node and the end of its Run, or
      between winning the swap and the end of its Stop. */
  datatype History = History(
    runsWon: nat, stopsWon: nat,              // Runs that returned nil, Stops that won the swap
    closed: bool, timedOut: bool,             // how the winning Stop ended
    owner: Option<Tid>)

  datatype Faults = Faults(
    closedDB: bool, closedBeacon: bool, closedChain: bool,   // used after it was closed
    blindStop: bool)                          // a Stop that won found no cancel function or no registered main loop

  datatype Fields = Fields(
    running: bool,
    node: Resource, nodeState: Node,
    db: Resource, dbMu: Option<Tid>,          // the state database, and the owner of stateDBMu
    beacon: Resource,
    cancelSet: bool, loop: Loop,
    h: History, bad: Faults,
    crashed: bool)                            // a Run found the node nil after it had checked it

  datatype State = State(f: Fields, pcs: map<Tid, Pc>)   // absent: Idle

  datatype Step =
    | RunBegin(t: Tid) | RunCheckNode(t: Tid) | RunStart(t: Tid, works: bool) | RunEnsureChain(t: Tid, works: bool)
    | RunSetCancel(t: Tid) | RunAddLoop(t: Tid) | RunSetRunning(t: Tid)
    | LoopTick(t: Tid) | LoopExit(t: Tid)
    | GenerateBegin(t: Tid) | GenerateUse(t: Tid)
    | StopSwap(t: Tid) | StopCancel(t: Tid) | StopJoined(t: Tid) | StopTimesOut(t: Tid)
    | StopLock(t: Tid) | StopCloseDB(t: Tid) | StopForgetDB(t: Tid) | StopCloseBeacon(t: Tid) | StopCloseNode(t: Tid)
    | KvBegin(t: Tid) | KvLock(t: Tid) | KvCheckDB(t: Tid) | KvUse(t: Tid) | KvUnlock(t: Tid)

  const OPEN := Resource(true, true, 0)

  const CREATED := State(
    Fields(false, OPEN, Fresh, OPEN, None, OPEN, false, NotStarted,
           History(0, 0, false, false, None), Faults(false, false, false, false), false), map[])

  function Close(r: Resource): Resource {
    if r.there then Resource(false, false, r.closes + 1) else r
  }

  function PcOf(s: State, t: Tid): Pc {
    if t in s.pcs then s.pcs[t] else Idle
  }

  // ----- The steps: what a thread at `pc` does to the fields, and where it goes -----

  function DoRun(f: Fields, pc: Pc, step: Step): (Fields, Pc) {
    match step
    case RunBegin(_) => (f, if pc.Idle? && !f.running then RunSawStopped else pc)
    case RunCheckNode(_) => (f, if pc.RunSawStopped? then if f.node.there then RunChecked else Idle else pc)
    case RunStart(t, works) =>
      if !pc.RunChecked? then (f, pc)
      else if !f.node.there then (f.(crashed := true), pc)
      else if !f.nodeState.Fresh? then (f, Idle)                 // node.Start fails on a node that was started before
      else if works then (f.(nodeState := Started, h := f.h.(owner := Some(t))), RunStarted)
      else (f.(nodeState := Closed), Idle)
    case RunEnsureChain(_, works) =>
      if !pc.RunStarted? then (f, pc) else if works then (f, RunReady) else (f.(h := f.h.(owner := None)), Idle)
    case RunSetCancel(_) => if pc.RunReady? then (f.(cancelSet := true), RunHasCancel) else (f, pc)
    case RunAddLoop(_) => if pc.RunHasCancel? then (f.(loop := Looping), RunHasLoop) else (f, pc)
    case RunSetRunning(_) =>
      if pc.RunHasLoop?
      then (f.(running := true, h := f.h.(owner := None, runsWon := f.h.runsWon + 1)), Idle) else (f, pc)
    case _ => (f, pc)
  }

  function DoLoop(f: Fields, pc: Pc, step: Step): (Fields, Pc) {
    match step
    case LoopTick(_) =>                                      // a tick may fork, which uses the beacon
      (if f.loop.Looping?
       then f.(bad := f.bad.(closedBeacon := f.bad.closedBeacon || !f.beacon.there || !f.beacon.open)) else f, pc)
    case LoopExit(_) => (if f.loop.Looping? then f.(loop := LoopDone) else f, pc)
    case GenerateBegin(_) => (f, if pc.Idle? then Generating else pc)   // it does not ask whether the server runs
    case GenerateUse(_) =>
      if pc.Generating?
      then (f.(bad := f.bad.(closedChain := f.bad.closedChain || f.node.closes > 0)), Idle) else (f, pc)
    case _ => (f, pc)
  }

  function DoStop(f: Fields, pc: Pc, step: Step): (Fields, Pc) {
    match step
    case StopSwap(t) =>
      if pc.Idle? && f.running
      then (f.(running := false, h := f.h.(owner := Some(t), stopsWon := f.h.stopsWon + 1)), StopWon) else (f, pc)
    case StopCancel(_) =>
      if pc.StopWon?
      then (f.(bad := f.bad.(blindStop := f.bad.blindStop || !f.cancelSet || f.loop.NotStarted?), cancelSet := false),
            StopWaiting)
      else (f, pc)
    case StopJoined(_) => (f, if pc.StopWaiting? && !f.loop.Looping? then StopLocking else pc)
    case StopTimesOut(_) => if pc.StopWaiting? then (f.(h := f.h.(owner := None, timedOut := true)), Idle) else (f, pc)
    case StopLock(t) => if pc.StopLocking? && f.dbMu.None? then (f.(dbMu := Some(t)), StopHasDB) else (f, pc)
    case StopCloseDB(_) =>
      if !pc.StopHasDB? then (f, pc)
      else (if f.db.there then f.(db := Resource(true, false, f.db.closes + 1)) else f, StopClosedDB)
    case StopForgetDB(_) =>
      if pc.StopClosedDB? then (f.(db := f.db.(there := false), dbMu := None), StopBeacon) else (f, pc)
    case StopCloseBeacon(_) =>
      if !pc.StopBeacon? then (f, pc)
      else (f.(beacon := Close(f.beacon)), StopNode)
    case StopCloseNode(_) =>
      if !pc.StopNode? then (f, pc)
      else (f.(node := Close(f.node), nodeState := Closed, h := f.h.(owner := None, closed := true)), Idle)
    case _ => (f, pc)
  }

  function DoKv(f: Fields, pc: Pc, step: Step): (Fields, Pc) {
    match step
    case KvBegin(_) => (f, if pc.Idle? && f.running then KvSawRunning else pc)
    case KvLock(t) => if pc.KvSawRunning? && f.dbMu.None? then (f.(dbMu := Some(t)), KvLocked) else (f, pc)
    case KvCheckDB(_) => (f, if pc.KvLocked? then if f.db.there then KvUsing else KvUsed else pc)
    case KvUse(_) =>
      if pc.KvUsing? then (f.(bad := f.bad.(closedDB := f.bad.closedDB || !f.db.open)), KvUsed) else (f, pc)
    case KvUnlock(_) => if pc.KvUsed? then (f.(dbMu := None), Idle) else (f, pc)
    case _ => (f, pc)
  }

  predicate IsRun(step: Step) {
    step.RunBegin? || step.RunCheckNode? || step.RunStart? || step.RunEnsureChain? ||
    step.RunSetCancel? || step.RunAddLoop? || step.RunSetRunning?
  }

  predicate IsLoop(step: Step) {
    step.LoopTick? || step.LoopExit? || step.GenerateBegin? || step.GenerateUse?
  }

  predicate IsKv(step: Step) {
    step.KvBegin? || step.KvLock? || step.KvCheckDB? || step.KvUse? || step.KvUnlock?
  }

  function Act(f: Fields, pc: Pc, step: Step): (Fields, Pc) {
    if f.crashed then (f, pc)
    else if IsRun(step) then DoRun(f, pc, step)
    else if IsKv(step) then DoKv(f, pc, step)
    else if IsLoop(step) then DoLoop(f, pc, step)
    else DoStop(f, pc, step)
  }

  function Do(s: State, step: Step): State {
    var (f, next) := Act(s.f, PcOf(s, step.t), step);
    State(f, s.pcs[step.t := next])
  }

  function After(s: State, steps: seq<Step>): State {
    if steps == [] then s else Do(After(s, steps[..|steps| - 1]), steps[|steps| - 1])
  }

  // ----- The invariant -----

  predicate InRun(pc: Pc) {
    pc.RunStarted? || pc.RunReady? || pc.RunHasCancel? || pc.RunHasLoop?
  }

  predicate BeforeClosing(pc: Pc) {
    pc.StopWon? || pc.StopWaiting? || pc.StopLocking? || pc.StopHasDB?
  }

  predicate Closing(pc: Pc) {
    pc.StopClosedDB? || pc.StopBeacon? || pc.StopNode?
  }

  predicate HoldsDB(pc: Pc) {
    pc.StopHasDB? || pc.StopClosedDB? || pc.KvLocked? || pc.KvUsing? || pc.KvUsed?
  }

  predicate NothingClosed(f: Fields) {
    f.db.there && f.db.open && f.beacon.there && f.beacon.open && f.node.there
  }

  /** What holds of the fields. A server has three phases: no Run has won, one has and no Stop has, both have. */
  predicate Shared(f: Fields) {
    f.h.runsWon <= 1 && f.h.stopsWon <= f.h.runsWon &&
    (f.running <==> f.h.runsWon == 1 && f.h.stopsWon == 0) &&
    (f.h.owner.Some? || f.h.runsWon == 1 ==> !f.nodeState.Fresh?) &&
    (f.running ==> f.h.owner.None? && f.cancelSet && !f.loop.NotStarted?) &&
    (f.h.stopsWon == 0 ==> NothingClosed(f)) &&
    (f.loop.Looping? ==> f.beacon.open) &&
    f.db.closes == (if f.db.open then 0 else 1) &&
    f.beacon.there == f.beacon.open && f.beacon.closes == (if f.beacon.open then 0 else 1) &&
    f.node.closes == (if f.node.there then 0 else 1) &&
    (f.h.closed ==> f.h.stopsWon == 1 && f.h.owner.None? && !f.db.open && !f.beacon.open && !f.node.there) &&
    (f.h.timedOut ==> f.h.stopsWon == 1 && f.h.owner.None? && NothingClosed(f)) &&
    (f.h.stopsWon == 1 ==> f.h.owner.Some? || f.h.closed || f.h.timedOut) &&
    (f.bad.closedChain ==> f.h.closed) &&
    (!f.node.there ==> f.h.closed) && (f.crashed ==> !f.node.there) &&
    (f.db.there && !f.db.open ==> f.h.owner.Some? && f.dbMu == f.h.owner) &&
    !f.bad.closedDB && !f.bad.closedBeacon && !f.bad.blindStop
  }

  /** What holds for a thread `t` at `pc`. */
  predicate Local(f: Fields, t: Tid, pc: Pc) {
    Holds(f, t, pc) && Relies(f, pc)
  }

  predicate Holds(f: Fields, t: Tid, pc: Pc) {
    (InRun(pc) || BeforeClosing(pc) || Closing(pc) <==> f.h.owner == Some(t)) &&
    (HoldsDB(pc) <==> f.dbMu == Some(t))
  }

  predicate Relies(f: Fields, pc: Pc) {
    (InRun(pc) ==> f.h.runsWon == 0) &&
    (BeforeClosing(pc) || Closing(pc) ==> f.h.stopsWon == 1 && !f.h.closed && !f.h.timedOut) &&
    (pc.RunHasCancel? || pc.RunHasLoop? || pc.StopWon? ==> f.cancelSet) &&
    (pc.RunHasLoop? || pc.StopWon? ==> !f.loop.NotStarted?) &&
    (pc.StopLocking? || pc.StopHasDB? || Closing(pc) ==> !f.loop.Looping?) &&
    (BeforeClosing(pc) ==> NothingClosed(f)) &&
    (Closing(pc) ==> !f.db.open && f.node.there) &&
    (pc.StopBeacon? || pc.StopNode? ==> !f.db.there) &&
    (pc.StopNode? ==> !f.beacon.open) &&
    (pc.KvUsing? ==> f.db.there && f.db.open)
  }

  /** The fields and two threads, one of them at work, are in order. */
  predicate Sound(f: Fields, t: Tid, pc: Pc, u: Tid, other: Pc) {
    Shared(f) && Local(f, t, pc) && (u != t ==> Local(f, u, other))
  }

  ghost predicate Inv(s: State) {
    Shared(s.f) && forall t: Tid :: Local(s.f, t, PcOf(s, t))
  }

  lemma {:induction false} RunKeepsFields(f: Fields, pc: Pc, step: Step)
    requires Shared(f) && Local(f, step.t, pc)
    ensures Shared(DoRun(f, pc, step).0)
  {
  }

  lemma {:induction false} RunKeepsHolding(f: Fields, pc: Pc, step: Step)
    requires Shared(f) && Local(f, step.t, pc)
    ensures Holds(DoRun(f, pc, step).0, step.t, DoRun(f, pc, step).1)
  {
  }

  lemma {:induction false} RunKeepsRelying(f: Fields, pc: Pc, step: Step)
    requires Shared(f) && Local(f, step.t, pc)
    ensures Relies(DoRun(f, pc, step).0, DoRun(f, pc, step).1)
  {
  }

  lemma {:induction false} RunKeepsOwn(f: Fields, pc: Pc, step: Step)
    requires Shared(f) && Local(f, step.t, pc)
    ensures Local(DoRun(f, pc, step).0, step.t, DoRun(f, pc, step).1)
  {
    RunKeepsHolding(f, pc, step);
    RunKeepsRelying(f, pc, step);
    hide DoRun, Holds, Relies;
  }

  lemma {:induction false} RunKeepsOthers(f: Fields, pc: Pc, step: Step, u: Tid, other: Pc)
    requires Shared(f) && Local(f, step.t, pc) && u != step.t && Local(f, u, other)
    ensures Local(DoRun(f, pc, step).0, u, other)
  {
  }

  lemma {:induction false} RunKeepsInv(f: Fields, pc: Pc, step: Step, u: Tid, other: Pc)
    requires Sound(f, step.t, pc, u, other)
    ensures Sound(DoRun(f, pc, step).0, step.t, DoRun(f, pc, step).1, u, other)
  {
    RunKeepsFields(f, pc, step);
    RunKeepsOwn(f, pc, step);
    if u != step.t {
      RunKeepsOthers(f, pc, step, u, other);
    }
  }

  lemma {:induction false} LoopKeepsFields(f: Fields, pc: Pc, step: Step)
    requires Shared(f) && Local(f, step.t, pc)
    ensures Shared(DoLoop(f, pc, step).0)
  {
  }

  lemma {:induction false} LoopKeepsOwn(f: Fields, pc: Pc, step: Step)
    requires Shared(f) && Local(f, step.t, pc)
    ensures Local(DoLoop(f, pc, step).0, step.t, DoLoop(f, pc, step).1)
  {
  }

  lemma {:induction false} LoopKeepsOthers(f: Fields, pc: Pc, step: Step, u: Tid, other: Pc)
    requires Shared(f) && Local(f, step.t, pc) && u != step.t && Local(f, u, other)
    ensures Local(DoLoop(f, pc, step).0, u, other)
  {
  }

  lemma {:induction false} LoopKeepsInv(f: Fields, pc: Pc, step: Step, u: Tid, other: Pc)
    requires Sound(f, step.t, pc, u, other)
    ensures Sound(DoLoop(f, pc, step).0, step.t, DoLoop(f, pc, step).1, u, other)
  {
    LoopKeepsFields(f, pc, step);
    LoopKeepsOwn(f, pc, step);
    if u != step.t {
      LoopKeepsOthers(f, pc, step, u, other);
    }
  }

  lemma {:induction false} StopKeepsFields(f: Fields, pc: Pc, step: Step)
    requires Shared(f) && Local(f, step.t, pc)
    ensures Shared(DoStop(f, pc, step).0)
  {
  }

  lemma {:induction false} StopKeepsHolding(f: Fields, pc: Pc, step: Step)
    requires Shared(f) && Local(f, step.t, pc)
    ensures Holds(DoStop(f, pc, step).0, step.t, DoStop(f, pc, step).1)
  {
  }

  lemma {:induction false} StopKeepsRelying(f: Fields, pc: Pc, step: Step)
    requires Shared(f) && Local(f, step.t, pc)
    ensures Relies(DoStop(f, pc, step).0, DoStop(f, pc, step).1)
  {
  }

  lemma {:induction false} StopKeepsOwn(f: Fields, pc: Pc, step: Step)
    requires Shared(f) && Local(f, step.t, pc)
    ensures Local(DoStop(f, pc, step).0, step.t, DoStop(f, pc, step).1)
  {
    StopKeepsHolding(f, pc, step);
    StopKeepsRelying(f, pc, step);
    hide DoStop, Holds, Relies;
  }

  lemma {:induction false} StopKeepsOthers(f: Fields, pc: Pc, step: Step, u: Tid, other: Pc)
    requires Shared(f) && Local(f, step.t, pc) && u != step.t && Local(f, u, other)
    ensures Local(DoStop(f, pc, step).0, u, other)
  {
  }

  lemma {:induction false} StopKeepsInv(f: Fields, pc: Pc, step: Step, u: Tid, other: Pc)
    requires Sound(f, step.t, pc, u, other)
    ensures Sound(DoStop(f, pc, step).0, step.t, DoStop(f, pc, step).1, u, other)
  {
    StopKeepsFields(f, pc, step);
    StopKeepsOwn(f, pc, step);
    if u != step.t {
      StopKeepsOthers(f, pc, step, u, other);
    }
  }

  lemma {:induction false} KvKeepsFields(f: Fields, pc: Pc, step: Step)
    requires Shared(f) && Local(f, step.t, pc)
    ensures Shared(DoKv(f, pc, step).0)
  {
  }

  lemma {:induction false} KvKeepsOwn(f: Fields, pc: Pc, step: Step)
    requires Shared(f) && Local(f, step.t, pc)
    ensures Local(DoKv(f, pc, step).0, step.t, DoKv(f, pc, step).1)
  {
  }

  lemma {:induction false} KvKeepsOthers(f: Fields, pc: Pc, step: Step, u: Tid, other: Pc)
    requires Shared(f) && Local(f, step.t, pc) && u != step.t && Local(f, u, other)
    ensures Local(DoKv(f, pc, step).0, u, other)
  {
  }

  lemma {:induction false} KvKeepsInv(f: Fields, pc: Pc, step: Step, u: Tid, other: Pc)
    requires Sound(f, step.t, pc, u, other)
    ensures Sound(DoKv(f, pc, step).0, step.t, DoKv(f, pc, step).1, u, other)
  {
    KvKeepsFields(f, pc, step);
    KvKeepsOwn(f, pc, step);
    if u != step.t {
      KvKeepsOthers(f, pc, step, u, other);
    }
  }

  /** Every step keeps the fields, its own thread and all other threads in order. */
  lemma {:induction false} ActKeepsInv(f: Fields, pc: Pc, step: Step, u: Tid, other: Pc)
    requires Sound(f, step.t, pc, u, other)
    ensures Sound(Act(f, pc, step).0, step.t, Act(f, pc, step).1, u, other)
  {
    hide Sound, DoRun, DoLoop, DoStop, DoKv;
    RunKeepsInv(f, pc, step, u, other);
    KvKeepsInv(f, pc, step, u, other);
    LoopKeepsInv(f, pc, step, u, other);
    StopKeepsInv(f, pc, step, u, other);
  }

  lemma {:induction false} EveryRunKeepsInv(steps: seq<Step>)
    ensures Inv(After(CREATED, steps))
  {
    if steps != [] {
      var before, step := After(CREATED, steps[..|steps| - 1]), steps[|steps| - 1];
      EveryRunKeepsInv(steps[..|steps| - 1]);
      var pc := PcOf(before, step.t);
      assert Local(before.f, step.t, pc);
      ActKeepsInv(before.f, pc, step, step.t, pc);
      forall u: Tid ensures Local(Do(before, step).f, u, PcOf(Do(before, step), u)) {
        assert Local(before.f, u, PcOf(before, u));
        ActKeepsInv(before.f, pc, step, u, PcOf(before, u));
      }
    }
  }

  // ----- What this means -----

  /** No key/value operation ever touches a closed database and no tick a stopped beacon, also when a Stop runs between
      the IsRunning check and the lock. */
  lemma {:induction false} NothingUsedAfterClose(steps: seq<Step>)
    ensures var f := After(CREATED, steps).f;
            !f.bad.closedDB && !f.bad.closedBeacon && (f.loop.Looping? ==> f.beacon.there && f.beacon.open)
    ensures forall t: Tid :: var s := After(CREATED, steps); PcOf(s, t).KvUsing? ==> s.f.db.open && s.f.dbMu == Some(t)
  {
    EveryRunKeepsInv(steps);
    var s := After(CREATED, steps);
    forall t: Tid | PcOf(s, t).KvUsing? ensures s.f.db.open && s.f.dbMu == Some(t) {
      assert Local(s.f, t, PcOf(s, t));
    }
  }

  /** At most one Run and one Stop win, however many overlap; that Stop finds the cancel function set and the main
      loop registered; each resource is closed at most once. Once the winning Stop has ended, each of them has been
      closed exactly once if it did not give up waiting, and none if it did. */
  lemma {:induction false} OneRunOneStop(steps: seq<Step>)
    ensures var f := After(CREATED, steps).f;
            f.h.stopsWon <= f.h.runsWon <= 1 && !f.bad.blindStop &&
            f.db.closes <= 1 && f.beacon.closes <= 1 && f.node.closes <= 1 &&
            (f.h.stopsWon == 1 && f.h.owner.None? ==>
               (f.h.closed <==> !f.h.timedOut) &&
               f.db.closes == f.beacon.closes == f.node.closes == if f.h.timedOut then 0 else 1)
    ensures forall t: Tid :: var s := After(CREATED, steps);
              PcOf(s, t).StopWon? ==> s.f.cancelSet && !s.f.loop.NotStarted?
  {
    EveryRunKeepsInv(steps);
    var s := After(CREATED, steps);
    forall t: Tid | PcOf(s, t).StopWon? ensures s.f.cancelSet && !s.f.loop.NotStarted? {
      assert Local(s.f, t, PcOf(s, t));
    }
  }

  lemma {:induction false} KvActs(f: Fields, t: Tid)
    requires !f.crashed
    ensures Act(f, Idle, KvBegin(t)) == (f, if f.running then KvSawRunning else Idle)
    ensures f.dbMu.None? ==> Act(f, KvSawRunning, KvLock(t)) == (f.(dbMu := Some(t)), KvLocked)
    ensures Act(f, Idle, KvLock(t)) == (f, Idle)
    ensures Act(f, KvLocked, KvCheckDB(t)) == (f, if f.db.there then KvUsing else KvUsed)
    ensures Act(f, Idle, KvCheckDB(t)) == (f, Idle)
    ensures f.db.open ==> Act(f, KvUsing, KvUse(t)) == (f, KvUsed)
    ensures Act(f, KvUsed, KvUnlock(t)) == (f.(dbMu := None), Idle)
  {
    hide DoRun, DoStop, DoLoop;
  }

  /** While nobody holds the database's mutex, an idle thread comes to use the database if and only if the server runs;
      it finds it open, and changes nothing in the end. */
  lemma {:induction false} KvWorks(steps: seq<Step>, t: Tid)
    requires var s := After(CREATED, steps); !s.f.crashed && PcOf(s, t).Idle? && s.f.dbMu.None?
    ensures var s := After(CREATED, steps);
            var using := Do(Do(Do(s, KvBegin(t)), KvLock(t)), KvCheckDB(t));
            (PcOf(using, t).KvUsing? <==> s.f.running) &&
            (s.f.running ==> using.f.db.open && Do(Do(using, KvUse(t)), KvUnlock(t)).f == s.f)
  {
    var s := After(CREATED, steps);
    EveryRunKeepsInv(steps);
    assert s.f.running ==> s.f.db.open && s.f.db.there;
    hide After, Inv, Shared, Act;
    KvActs(s.f, t);
    KvActs(s.f.(dbMu := Some(t)), t);
  }

  lemma {:induction false} StopLeaves(f: Fields, pc: Pc, step: Step)
    ensures DoStop(f, pc, step).0.crashed == f.crashed && DoStop(f, pc, step).0.bad.closedChain == f.bad.closedChain
  {
  }

  lemma {:induction false} KvLeaves(f: Fields, pc: Pc, step: Step)
    ensures DoKv(f, pc, step).0.crashed == f.crashed && DoKv(f, pc, step).0.bad.closedChain == f.bad.closedChain
  {
  }

  lemma {:induction false} RunLeaves(f: Fields, pc: Pc, step: Step)
    requires !f.crashed
    ensures DoRun(f, pc, step).0.bad.closedChain == f.bad.closedChain
    ensures DoRun(f, pc, step).0.crashed <==> step.RunStart? && pc.RunChecked? && !f.node.there
  {
  }

  lemma {:induction false} LoopLeaves(f: Fields, pc: Pc, step: Step)
    requires !f.bad.closedChain
    ensures DoLoop(f, pc, step).0.bad.closedChain <==> step.GenerateUse? && pc.Generating? && f.node.closes > 0
  {
  }

  lemma {:induction false} UseMeetsClosed(f: Fields, pc: Pc, step: Step)
    requires Shared(f) && !f.crashed && !f.bad.closedChain
    ensures Act(f, pc, step).0.bad.closedChain <==> step.GenerateUse? && pc.Generating? && f.h.closed
  {
    assert f.node.closes > 0 <==> f.h.closed;
    hide Shared, DoRun, DoStop, DoKv, DoLoop;
    RunLeaves(f, pc, step);
    StopLeaves(f, pc, step);
    KvLeaves(f, pc, step);
    LoopLeaves(f, pc, step);
  }

  lemma {:induction false} StartMeetsNil(f: Fields, pc: Pc, step: Step)
    requires Shared(f) && !f.crashed
    ensures Act(f, pc, step).0.crashed <==> step.RunStart? && pc.RunChecked? && f.h.closed
  {
    assert !f.node.there <==> f.h.closed;
    hide Shared, DoRun, DoStop, DoKv, DoLoop;
    RunLeaves(f, pc, step);
    StopLeaves(f, pc, step);
    KvLeaves(f, pc, step);
    TicksDoNotCrash(f, pc, step);
  }

  lemma {:induction false} TicksDoNotCrash(f: Fields, pc: Pc, step: Step)
    ensures DoLoop(f, pc, step).0.crashed == f.crashed
  {
  }

  /** Nothing protects a block generation: it uses the chain of a closed node if and only if it comes to that after
      a Stop has closed everything, whether it was called before or after. */
  lemma {:induction false} GenerationAfterClose(steps: seq<Step>, step: Step)
    requires var f := After(CREATED, steps).f; !f.crashed && !f.bad.closedChain
    ensures var s := After(CREATED, steps);
            Do(s, step).f.bad.closedChain <==> step.GenerateUse? && PcOf(s, step.t).Generating? && s.f.h.closed
  {
    EveryRunKeepsInv(steps);
    var s := After(CREATED, steps);
    UseMeetsClosed(s.f, PcOf(s, step.t), step);
    hide After, Inv, Act, PcOf;
  }

  lemma {:induction false} AfterAppend(s: State, a: seq<Step>, b: seq<Step>)
    ensures After(s, a + b) == After(After(s, a), b)
  {
    if b == [] {
      assert a + b == a;
    } else {
      AfterAppend(s, a, b[..|b| - 1]);
      assert (a + b)[..|a + b| - 1] == a + b[..|b| - 1];
    }
  }

  /** What no step takes back. */
  predicate Grown(f: Fields, after: Fields) {
    f.h.runsWon <= after.h.runsWon && f.h.stopsWon <= after.h.stopsWon &&
    (f.h.timedOut ==> after.h.timedOut) && (f.h.closed ==> after.h.closed)
  }

  lemma {:induction false} RunGrows(f: Fields, pc: Pc, step: Step)
    ensures Grown(f, DoRun(f, pc, step).0)
  {
  }

  lemma {:induction false} LoopGrows(f: Fields, pc: Pc, step: Step)
    ensures Grown(f, DoLoop(f, pc, step).0)
  {
  }

  lemma {:induction false} StopGrows(f: Fields, pc: Pc, step: Step)
    ensures Grown(f, DoStop(f, pc, step).0)
  {
  }

  lemma {:induction false} KvGrows(f: Fields, pc: Pc, step: Step)
    ensures Grown(f, DoKv(f, pc, step).0)
  {
  }

  lemma {:induction false} HistoryStays(s: State, more: seq<Step>)
    ensures Grown(s.f, After(s, more).f)
  {
    if more != [] {
      var before := After(s, more[..|more| - 1]);
      HistoryStays(s, more[..|more| - 1]);
      var pc, step := PcOf(before, more[|more| - 1].t), more[|more| - 1];
      RunGrows(before.f, pc, step);
      LoopGrows(before.f, pc, step);
      StopGrows(before.f, pc, step);
      KvGrows(before.f, pc, step);
    }
  }

  /** Once a Stop has won, no Run and no Stop ever wins again. */
  lemma {:induction false} StoppedForGood(steps: seq<Step>, more: seq<Step>)
    requires After(CREATED, steps).f.h.stopsWon == 1
    ensures var after := After(CREATED, steps + more).f;
            after.h.runsWon == 1 && after.h.stopsWon == 1 && !after.running
  {
    AfterAppend(CREATED, steps, more);
    HistoryStays(After(CREATED, steps), more);
    EveryRunKeepsInv(steps + more);
  }

  /** The price of that: when the winning Stop gives up waiting, nothing is ever closed, whatever is called later. */
  lemma {:induction false} TimedOutStopLeaks(steps: seq<Step>, more: seq<Step>)
    requires After(CREATED, steps).f.h.timedOut
    ensures var after := After(CREATED, steps + more).f;
            after.db.closes == 0 && after.beacon.closes == 0 && after.node.closes == 0
  {
    AfterAppend(CREATED, steps, more);
    HistoryStays(After(CREATED, steps), more);
    EveryRunKeepsInv(steps + more);
  }

  /** A step dereferences the nil node if and only if it is a Run that has checked the node and then starts it
      after a Stop has closed everything. */
  lemma {:induction false} NilNodeExactlyAfterStop(steps: seq<Step>, step: Step)
    requires !After(CREATED, steps).f.crashed
    ensures var s := After(CREATED, steps);
            Do(s, step).f.crashed <==> step.RunStart? && PcOf(s, step.t).RunChecked? && s.f.h.closed
  {
    EveryRunKeepsInv(steps);
    var s := After(CREATED, steps);
    StartMeetsNil(s.f, PcOf(s, step.t), step);
    hide After, Inv, Act, PcOf;
  }

  // ----- It happens -----

  ghost predicate Reachable(s: State) {
    exists steps :: After(CREATED, steps) == s
  }

  lemma {:induction false} ReachableStep(s: State, step: Step) returns (next: State)
    requires Reachable(s)
    ensures Reachable(next) && next == Do(s, step)
  {
    var steps :| After(CREATED, steps) == s;
    assert (steps + [step])[..|steps|] == steps;
    assert After(CREATED, steps + [step]) == Do(s, step);
    next := Do(s, step);
  }

  /** A thread at `pc` takes a step on its own; the other thread of interest stays where it is. */
  lemma {:induction false} Advance(s: State, step: Step, u: Tid, f: Fields, pc: Pc) returns (next: State)
    requires Reachable(s) && u != step.t && Act(s.f, PcOf(s, step.t), step) == (f, pc)
    ensures Reachable(next) && next.f == f && PcOf(next, step.t) == pc && PcOf(next, u) == PcOf(s, u)
  {
    next := ReachableStep(s, step);
  }

  lemma {:induction false} ChecksHappen() returns (s: State)
    ensures Reachable(s) && PcOf(s, 1).RunChecked? && PcOf(s, 2).RunChecked? && s.f == CREATED.f
  {
    assert After(CREATED, []) == CREATED;
    hide After, Reachable, Do;
    var f := CREATED.f;
    s := Advance(CREATED, RunBegin(2), 1, f, RunSawStopped);
    s := Advance(s, RunCheckNode(2), 1, f, RunChecked);
    s := Advance(s, RunBegin(1), 2, f, RunSawStopped);
    s := Advance(s, RunCheckNode(1), 2, f, RunChecked);
  }

  /** Thread 1 can run the server while thread 2 has also found it stopped and its node there. */
  lemma {:induction false} RunHappens() returns (s: State)
    ensures Reachable(s) && PcOf(s, 1).Idle? && PcOf(s, 2).RunChecked?
    ensures s.f == CREATED.f.(running := true, nodeState := Started, cancelSet := true, loop := Looping,
                              h := History(1, 0, false, false, None))
  {
    s := ChecksHappen();
    hide After, Reachable, Do;
    var f := s.f;
    f := f.(nodeState := Started, h := f.h.(owner := Some(1)));
    s := Advance(s, RunStart(1, true), 2, f, RunStarted);
    s := Advance(s, RunEnsureChain(1, true), 2, f, RunReady);
    f := f.(cancelSet := true);
    s := Advance(s, RunSetCancel(1), 2, f, RunHasCancel);
    f := f.(loop := Looping);
    s := Advance(s, RunAddLoop(1), 2, f, RunHasLoop);
    f := f.(running := true, h := History(1, 0, false, false, None));
    s := Advance(s, RunSetRunning(1), 2, f, Idle);
  }

  lemma {:induction false} StopLocks() returns (s: State)
    ensures Reachable(s) && PcOf(s, 1).StopHasDB? && PcOf(s, 2).RunChecked?
    ensures s.f == CREATED.f.(nodeState := Started, loop := LoopDone, dbMu := Some(1),
                              h := History(1, 1, false, false, Some(1)))
  {
    s := RunHappens();
    hide After, Reachable, Do;
    var f := s.f.(running := false, h := History(1, 1, false, false, Some(1)));
    s := Advance(s, StopSwap(1), 2, f, StopWon);
    f := f.(cancelSet := false);
    s := Advance(s, StopCancel(1), 2, f, StopWaiting);
    f := f.(loop := LoopDone);
    s := Advance(s, LoopExit(1), 2, f, StopWaiting);
    s := Advance(s, StopJoined(1), 2, f, StopLocking);
    f := f.(dbMu := Some(1));
    s := Advance(s, StopLock(1), 2, f, StopHasDB);
  }

  /** A Stop can then close everything. */
  lemma {:induction false} StopHappens() returns (s: State)
    ensures Reachable(s) && PcOf(s, 1).Idle? && PcOf(s, 2).RunChecked?
    ensures s.f.h.closed && !s.f.node.there && !s.f.crashed
    ensures s.f.db.closes == 1 && s.f.beacon.closes == 1 && s.f.node.closes == 1
  {
    s := StopLocks();
    hide After, Reachable, Do;
    var f := s.f;
    f := f.(db := Resource(true, false, 1));
    s := Advance(s, StopCloseDB(1), 2, f, StopClosedDB);
    f := f.(db := Resource(false, false, 1), dbMu := None);
    s := Advance(s, StopForgetDB(1), 2, f, StopBeacon);
    f := f.(beacon := Resource(false, false, 1));
    s := Advance(s, StopCloseBeacon(1), 2, f, StopNode);
    f := f.(node := Resource(false, false, 1), nodeState := Closed, h := History(1, 1, true, false, None));
    s := Advance(s, StopCloseNode(1), 2, f, Idle);
  }

  /** And a Run that it has overtaken then finds the node nil. */
  lemma {:induction false} OvertakenRunCrashes()
    ensures exists steps :: var f := After(CREATED, steps).f; f.h.closed && f.crashed
  {
    var s := StopHappens();
    s := ReachableStep(s, RunStart(2, true));
    var steps :| After(CREATED, steps) == s;
  }

  /** And so does a generation that is called then. */
  lemma {:induction false} GenerationAfterCloseHappens()
    ensures exists steps :: var f := After(CREATED, steps).f; f.h.closed && f.bad.closedChain
  {
    var s := StopHappens();
    s := Advance(s, GenerateBegin(1), 2, s.f, Generating);
    s := Advance(s, GenerateUse(1), 2, s.f.(bad := s.f.bad.(closedChain := true)), Idle);
    var steps :| After(CREATED, steps) == s;
  }
}
