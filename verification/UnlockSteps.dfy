/** The shared lock at a finer grain. `unlockSdo1` waits for the SDO's own mutex, then clears the
    flag and resets `busy_` in two steps; everything that does not need the mutex may happen at
    any of these points. Two threads unlock: the real-time thread after a timeout, which has
    reset both state machines before it waits, and the reader thread after a completed transfer.
    Mutual exclusion holds up to the first time that an SDO takes the lock again while a thread
    has still to unlock it for its previous transfer, and not beyond. */
module UnlockSteps {
  import opened Can
  import opened SdoProtocol
  import opened SdoRuns

  /** The real-time thread in `execute`: before it, waiting to unlock after a timeout, between
      the halves of `unlockSdo1`, before the pending write, before the read sampling. */
  datatype Executor = Outside | GivenUp | Unlocking | HeadDone | PendingDone

  /** The reader thread in `newRxFrame`: outside, waiting to unlock after the last frame of a
      transfer, between the halves of `unlockSdo1`. */
  datatype Reader = Listening | Completed | Releasing

  datatype Cell = Cell(sdo: SdoState, executor: Executor, reader: Reader)

  /** A thread holds the mutex: the flag is cleared, `busy_` is still set. */
  predicate Clearing(x: Cell) {
    x.executor == Unlocking || x.reader == Releasing
  }

  /** A thread is done with the transfer and has still to get the mutex. */
  predicate WantsUnlock(x: Cell) {
    x.executor == GivenUp || x.reader == Completed
  }

  /** Busy, and the flag is not yet cleared. */
  predicate Owner(x: Cell) {
    x.sdo.busy && !Clearing(x)
  }

  datatype Micro =
    | Call(call: SdoProtocol.Call)   // of execute only the part up to `unlockSdo1`
    | ExecutorLocks | ExecutorClearsBusy | RunsPending | RunsSampling
    | ReaderLocks | ReaderClearsBusy

  /** Each thread is in one place at a time, and a step that takes the mutex finds it free. */
  predicate Enabled(c: Config, x: Cell, m: Micro) {
    match m
    case Call(Cycle) => x.executor == Outside
    case Call(Frame(_)) => x.reader == Listening
    case Call(Set(src, _)) => c.size <= |src|
    case Call(Request) => true
    case ExecutorLocks => x.executor == GivenUp && x.reader != Releasing
    case ExecutorClearsBusy => x.executor == Unlocking
    case RunsPending => x.executor == HeadDone
    case RunsSampling => x.executor == PendingDone && !(x.reader == Releasing && ReadDue(c, x.sdo))
    case ReaderLocks => x.reader == Completed && x.executor != Unlocking
    case ReaderClearsBusy => x.reader == Releasing
  }

  /** One step: the cell and the flag afterwards. */
  function MicroStep(c: Config, x: Cell, lock: bool, m: Micro): (r: (Cell, bool))
    requires Shaped(c, x.sdo) && Enabled(c, x, m)
    ensures Shaped(c, r.0.sdo)
  {
    match m
    case Call(Cycle) =>
      if TimesOut(x.sdo) then (x.(sdo := TimeoutReset(c, x.sdo), executor := GivenUp), lock)
      else (x.(sdo := x.sdo.(busyCounter := Counted(x.sdo)), executor := HeadDone), lock)
    case ExecutorLocks =>
      if x.sdo.busy then (x.(executor := Unlocking), false) else (x.(executor := HeadDone), lock)
    case ExecutorClearsBusy => (x.(sdo := x.sdo.(busy := false), executor := HeadDone), lock)
    case RunsPending =>
      var p := ExecutePending(c, x.sdo, lock);
      (x.(sdo := p.sdo, executor := PendingDone), p.lock)
    case RunsSampling =>
      var q := ExecuteSample(c, x.sdo, lock);
      (x.(sdo := q.sdo, executor := Outside), q.lock)
    case Call(Frame(f)) =>
      var r := Receive(c, x.sdo, lock, f);
      if x.sdo.busy && !r.sdo.busy then (x.(sdo := r.sdo.(busy := true), reader := Completed), lock)
      else (x.(sdo := r.sdo), r.lock)
    case ReaderLocks =>
      if x.sdo.busy then (x.(reader := Releasing), false) else (x.(reader := Listening), lock)
    case ReaderClearsBusy => (x.(sdo := x.sdo.(busy := false), reader := Listening), lock)
    case Call(Set(src, bytes)) => (x.(sdo := SetValue(c, x.sdo, src, bytes)), lock)
    case Call(Request) => var r := WriteValue(c, x.sdo, lock); (x.(sdo := r.sdo), r.lock)
  }

  // ---- the parts make the calls ------------------------------------------------------------

  /** Without anything in between, the parts of an execute are the execute call. */
  lemma PartsMakeExecute(c: Config, s: SdoState, lock: bool)
    requires Shaped(c, s)
    ensures var x := MicroStep(c, Cell(s, Outside, Listening), lock, Call(Cycle));
            && (x.0.executor == GivenUp <==> TimesOut(s))
            && (x.0.executor == GivenUp ==> MicroStep(c, x.0, x.1, ExecutorLocks).0.executor == Unlocking)
            && var u := if x.0.executor == GivenUp then MicroStep(c, x.0, x.1, ExecutorLocks) else x;
               var h := if u.0.executor == Unlocking then MicroStep(c, u.0, u.1, ExecutorClearsBusy) else u;
               var p := MicroStep(c, h.0, h.1, RunsPending);
               var q := MicroStep(c, p.0, p.1, RunsSampling);
               q == (Cell(Execute(c, s, lock).sdo, Outside, Listening), Execute(c, s, lock).lock)
  {
    hide WriteValue;
  }

  /** Without anything in between, the parts of a receive are the receive call. */
  lemma PartsMakeReceive(c: Config, s: SdoState, lock: bool, f: CanFrame)
    requires Shaped(c, s)
    ensures var r := Receive(c, s, lock, f);
            var x := MicroStep(c, Cell(s, Outside, Listening), lock, Call(Frame(f)));
            && (x.0.reader == Completed <==> s.busy && !r.sdo.busy)
            && (x.0.reader == Completed ==> MicroStep(c, x.0, x.1, ReaderLocks).0.reader == Releasing)
            && var u := if x.0.reader == Completed then MicroStep(c, x.0, x.1, ReaderLocks) else x;
               var z := if u.0.reader == Releasing then MicroStep(c, u.0, u.1, ReaderClearsBusy) else u;
               z == (Cell(r.sdo, Outside, Listening), r.lock)
  {
    hide SegmentFrame;
  }

  // ---- one step ------------------------------------------------------------------------------

  predicate CellSound(c: Config, x: Cell) {
    && Sound(c, x.sdo)
    && (Clearing(x) ==> x.sdo.busy && AtRest(x.sdo))
    && (WantsUnlock(x) ==> AtRest(x.sdo))
    && !(x.executor == Unlocking && x.reader == Releasing)
  }

  /** The SDO takes the lock again although a thread has still to unlock it. */
  predicate Retakes(c: Config, x: Cell, lock: bool, m: Micro)
    requires Shaped(c, x.sdo) && Enabled(c, x, m)
  {
    WantsUnlock(x) && !x.sdo.busy && MicroStep(c, x, lock, m).0.sdo.busy
  }

  /** One step and the flag: as for whole calls, with ownership in place of `busy_`. */
  lemma MicroStepAndLock(c: Config, x: Cell, lock: bool, m: Micro)
    requires CellSound(c, x) && Enabled(c, x, m)
    requires Owner(x) ==> lock
    ensures CellSound(c, MicroStep(c, x, lock, m).0) <==> !Retakes(c, x, lock, m)
    ensures var r := MicroStep(c, x, lock, m); r.1 <==> Owner(r.0) || (lock && !Owner(x))
    ensures lock && !Owner(x) ==> !Owner(MicroStep(c, x, lock, m).0)
  {
    if m.Call? && m.call.Frame? {
      FrameAndLock(c, x.sdo, lock || x.sdo.busy, m.call.f);
      FrameAtRest(c, x.sdo, lock, m.call.f);
    }
  }

  /** A frame does nothing to an SDO at rest, and the flag matters to no frame. */
  lemma FrameAtRest(c: Config, s: SdoState, lock: bool, f: CanFrame)
    requires Sound(c, s)
    ensures AtRest(s) ==> Receive(c, s, lock, f) == Outcome(s, lock, [])
    ensures Receive(c, s, lock, f).sdo == Receive(c, s, true, f).sdo
    ensures s.busy == Receive(c, s, lock, f).sdo.busy ==> Receive(c, s, lock, f).lock == lock
    ensures s.busy && !Receive(c, s, lock, f).sdo.busy ==> AtRest(Receive(c, s, lock, f).sdo)
  {
  }

  // ---- every interleaving --------------------------------------------------------------------

  datatype Fine = Fine(cells: seq<Cell>, lock: bool)

  /** The flag is set iff exactly one SDO owns it. An SDO away from rest owns it. */
  ghost predicate OneOwner(cs: seq<Config>, y: Fine) {
    && |y.cells| == |cs|
    && (forall i :: 0 <= i < |cs| ==> CellSound(cs[i], y.cells[i]))
    && (y.lock <==> exists i :: 0 <= i < |cs| && Owner(y.cells[i]))
    && (forall i, j :: 0 <= i < |cs| && 0 <= j < |cs| && Owner(y.cells[i]) && Owner(y.cells[j]) ==> i == j)
  }

  datatype FineAction = FineAction(sdo: nat, step: Micro)

  predicate ShapedFine(cs: seq<Config>, y: Fine) {
    |y.cells| == |cs| && forall i :: 0 <= i < |cs| ==> Shaped(cs[i], y.cells[i].sdo)
  }

  function FreshFine(cs: seq<Config>): (y: Fine)
    ensures ShapedFine(cs, y)
  {
    Fine(seq(|cs|, i requires 0 <= i < |cs| => Cell(Fresh(cs[i]), Outside, Listening)), false)
  }

  predicate Possible(cs: seq<Config>, y: Fine, a: FineAction)
    requires ShapedFine(cs, y)
  {
    a.sdo < |cs| && Enabled(cs[a.sdo], y.cells[a.sdo], a.step)
  }

  function FineStep(cs: seq<Config>, y: Fine, a: FineAction): (r: Fine)
    requires ShapedFine(cs, y) && Possible(cs, y, a)
    ensures ShapedFine(cs, r)
  {
    var r := MicroStep(cs[a.sdo], y.cells[a.sdo], y.lock, a.step);
    Fine(y.cells[a.sdo := r.0], r.1)
  }

  predicate Hazard(cs: seq<Config>, y: Fine, a: FineAction)
    requires ShapedFine(cs, y) && Possible(cs, y, a)
  {
    Retakes(cs[a.sdo], y.cells[a.sdo], y.lock, a.step)
  }

  predicate FineRunOk(cs: seq<Config>, y: Fine, acts: seq<FineAction>)
    requires ShapedFine(cs, y)
    decreases |acts|
  {
    acts == [] || (Possible(cs, y, acts[0]) && FineRunOk(cs, FineStep(cs, y, acts[0]), acts[1..]))
  }

  function FineRun(cs: seq<Config>, y: Fine, acts: seq<FineAction>): (r: Fine)
    requires ShapedFine(cs, y) && FineRunOk(cs, y, acts)
    ensures ShapedFine(cs, r)
    decreases |acts|
  {
    if acts == [] then y else FineRun(cs, FineStep(cs, y, acts[0]), acts[1..])
  }

  /** No SDO of the run takes the lock again before it is unlocked. */
  predicate HazardFree(cs: seq<Config>, y: Fine, acts: seq<FineAction>)
    requires ShapedFine(cs, y) && FineRunOk(cs, y, acts)
    decreases |acts|
  {
    acts == [] || (!Hazard(cs, y, acts[0]) && HazardFree(cs, FineStep(cs, y, acts[0]), acts[1..]))
  }

  /** The invariant survives exactly the steps that are no such retaking. */
  lemma OneOwnerStep(cs: seq<Config>, y: Fine, a: FineAction)
    requires OneOwner(cs, y) && Possible(cs, y, a)
    ensures OneOwner(cs, FineStep(cs, y, a)) <==> !Hazard(cs, y, a)
  {
    hide MicroStep, Retakes;
    assert CellSound(cs[a.sdo], y.cells[a.sdo]);
    MicroStepAndLock(cs[a.sdo], y.cells[a.sdo], y.lock, a.step);
    var t := FineStep(cs, y, a);
    if Owner(t.cells[a.sdo]) {
      assert t.lock;
    } else if y.lock && !Owner(y.cells[a.sdo]) {
      var h :| 0 <= h < |cs| && Owner(y.cells[h]);
      assert Owner(t.cells[h]);
    }
  }

  lemma OneOwnerIsShaped(cs: seq<Config>, y: Fine)
    requires OneOwner(cs, y)
    ensures ShapedFine(cs, y)
  {
  }

  lemma {:induction false} OneOwnerRun(cs: seq<Config>, y: Fine, acts: seq<FineAction>)
    requires OneOwner(cs, y) && FineRunOk(cs, y, acts) && HazardFree(cs, y, acts)
    ensures OneOwner(cs, FineRun(cs, y, acts))
    decreases |acts|
  {
    hide FineStep, Hazard, OneOwner;
    if acts != [] {
      OneOwnerIsShaped(cs, y);
      OneOwnerStep(cs, y, acts[0]);
      OneOwnerRun(cs, FineStep(cs, y, acts[0]), acts[1..]);
    }
  }

  /** Mutual exclusion does not depend on `unlockSdo1` being atomic, as long as no SDO takes the
      lock again before a thread that is done with its previous transfer has unlocked it: at
      most one SDO of the device is away from rest, and it is the owner of the flag. */
  lemma MutualExclusionAcrossUnlock(cs: seq<Config>, acts: seq<FineAction>, i: nat, j: nat)
    requires FineRunOk(cs, FreshFine(cs), acts) && HazardFree(cs, FreshFine(cs), acts) && i < |cs| && j < |cs|
    ensures var y := FineRun(cs, FreshFine(cs), acts);
            && (!AtRest(y.cells[i].sdo) && !AtRest(y.cells[j].sdo) ==> i == j)
            && (!AtRest(y.cells[i].sdo) ==> Owner(y.cells[i]) && y.lock)
            && (y.lock <==> exists h :: 0 <= h < |cs| && Owner(y.cells[h]))
            && (CanLock(y.cells[i].sdo, y.lock) ==> y.cells[i].sdo.writeState == WriteIdle)
  {
    hide FineStep, Hazard;
    assert OneOwner(cs, FreshFine(cs));
    OneOwnerRun(cs, FreshFine(cs), acts);
  }

  // ---- the condition is exact ------------------------------------------------------------------

  /** The step and the state after it. */
  lemma Does(cs: seq<Config>, y: Fine, a: FineAction, rest: seq<FineAction>)
    requires ShapedFine(cs, y) && Possible(cs, y, a) && FineRunOk(cs, FineStep(cs, y, a), rest)
    ensures FineRunOk(cs, y, [a] + rest)
    ensures FineRun(cs, y, [a] + rest) == FineRun(cs, FineStep(cs, y, a), rest)
  {
    hide FineStep;
    assert ([a] + rest)[1..] == rest;
  }

  lemma TakingLeavesRest(c: Config, x: Cell, lock: bool, m: Micro)
    requires CellSound(c, x) && Enabled(c, x, m) && Retakes(c, x, lock, m)
    ensures var r := MicroStep(c, x, lock, m);
            && !lock && r.1 && !AtRest(r.0.sdo) && r.0.reader == x.reader
            && (x.executor == GivenUp ==> r.0.executor == GivenUp)
            && !Clearing(r.0) && WantsUnlock(r.0)
  {
  }

  /** The thread that has still to unlock: its two steps. */
  function UnlockOf(i: nat, x: Cell): seq<FineAction> {
    if x.executor == GivenUp then [FineAction(i, ExecutorLocks), FineAction(i, ExecutorClearsBusy)]
    else [FineAction(i, ReaderLocks), FineAction(i, ReaderClearsBusy)]
  }

  /** The late unlock gives the flag away under the running transfer. */
  lemma LateUnlock(cs: seq<Config>, y: Fine, i: nat)
    requires ShapedFine(cs, y) && i < |cs| && y.lock
    requires var x := y.cells[i]; x.sdo.busy && !Clearing(x) && WantsUnlock(x)
    ensures FineRunOk(cs, y, UnlockOf(i, y.cells[i]))
    ensures var z := FineRun(cs, y, UnlockOf(i, y.cells[i]));
            && !z.lock && z.cells[i].sdo == y.cells[i].sdo.(busy := false)
            && forall j :: 0 <= j < |cs| && j != i ==> z.cells[j] == y.cells[j]
  {
    var us := UnlockOf(i, y.cells[i]);
    var y1 := FineStep(cs, y, us[0]);
    var y2 := FineStep(cs, y1, us[1]);
    Does(cs, y1, us[1], []);
    Does(cs, y, us[0], [us[1]]);
    assert [us[1]] + [] == [us[1]] && [us[0]] + [us[1]] == us;
  }

  /** Once the flag is free, any other SDO at rest starts a transfer at the next request. */
  lemma OtherStarts(cs: seq<Config>, y: Fine, j: nat) returns (acts: seq<FineAction>)
    requires ShapedFine(cs, y) && j < |cs| && !y.lock && CellSound(cs[j], y.cells[j]) && !Owner(y.cells[j])
    ensures FineRunOk(cs, y, acts)
    ensures var z := FineRun(cs, y, acts);
            && z.cells[j].sdo.writeState == WriteWaitForConf
            && forall i :: 0 <= i < |cs| && i != j ==> z.cells[i] == y.cells[i]
  {
    var request := FineAction(j, Call(Request));
    if y.cells[j].sdo.busy {
      var m := if y.cells[j].executor == Unlocking then ExecutorClearsBusy else ReaderClearsBusy;
      var a := FineAction(j, m);
      var y1 := FineStep(cs, y, a);
      Does(cs, y1, request, []);
      Does(cs, y, a, [request]);
      acts := [a, request];
      assert [request] + [] == [request] && [a] + [request] == acts;
    } else {
      Does(cs, y, request, []);
      acts := [request];
      assert [request] + [] == [request];
    }
  }

  lemma {:induction false} FineRunOfConcat(cs: seq<Config>, y: Fine, a: seq<FineAction>, b: seq<FineAction>)
    requires ShapedFine(cs, y) && FineRunOk(cs, y, a) && FineRunOk(cs, FineRun(cs, y, a), b)
    ensures FineRunOk(cs, y, a + b) && FineRun(cs, y, a + b) == FineRun(cs, FineRun(cs, y, a), b)
    decreases |a|
  {
    hide FineStep;
    if a == [] {
      assert a + b == b;
    } else {
      assert (a + b)[1..] == a[1..] + b;
      FineRunOfConcat(cs, FineStep(cs, y, a[0]), a[1..], b);
    }
  }

  /** The condition is exact: a step that takes the lock again leads, by the unlock that is still
      to come, to a state in which the SDO could take the lock in the middle of its transfer, so
      that `writeValue` would keep the lock unused; and from there, for every other SDO of the
      device, to a state in which both are in a transfer. */
  lemma RetakingBreaksExclusion(cs: seq<Config>, y: Fine, a: FineAction, j: nat)
      returns (unlock: seq<FineAction>, start: seq<FineAction>)
    requires OneOwner(cs, y) && Possible(cs, y, a) && Hazard(cs, y, a) && j < |cs| && j != a.sdo
    ensures FineRunOk(cs, FineStep(cs, y, a), unlock)
    ensures var z := FineRun(cs, FineStep(cs, y, a), unlock);
            && CanLock(z.cells[a.sdo].sdo, z.lock) && !AtRest(z.cells[a.sdo].sdo)
            && FineRunOk(cs, z, start)
            && !AtRest(FineRun(cs, z, start).cells[a.sdo].sdo) && !AtRest(FineRun(cs, z, start).cells[j].sdo)
  {
    hide MicroStep;
    var i := a.sdo;
    TakingLeavesRest(cs[i], y.cells[i], y.lock, a.step);
    assert CellSound(cs[j], y.cells[j]) && !Owner(y.cells[j]);
    var t := FineStep(cs, y, a);
    assert t.cells[j] == y.cells[j];
    LateUnlock(cs, t, i);
    unlock := UnlockOf(i, t.cells[i]);
    var z := FineRun(cs, t, unlock);
    start := OtherStarts(cs, z, j);
  }

  // ---- a run of the new device in which it happens -------------------------------------------

  /** Two SDOs; the first one makes the steps. */
  function Pair(x: Cell, other: Cell, lock: bool): Fine {
    Fine([x, other], lock)
  }

  /** A run of the first SDO that retakes nothing and leads to `y`. */
  ghost predicate Leads(c: Config, d: Config, acts: seq<FineAction>, y: Fine) {
    var cs := [c, d];
    FineRunOk(cs, FreshFine(cs), acts) && HazardFree(cs, FreshFine(cs), acts) && FineRun(cs, FreshFine(cs), acts) == y
  }

  lemma {:induction false} Append(cs: seq<Config>, y: Fine, acts: seq<FineAction>, a: FineAction)
    requires ShapedFine(cs, y) && FineRunOk(cs, y, acts) && HazardFree(cs, y, acts)
    requires Possible(cs, FineRun(cs, y, acts), a) && !Hazard(cs, FineRun(cs, y, acts), a)
    ensures FineRunOk(cs, y, acts + [a]) && HazardFree(cs, y, acts + [a])
    ensures FineRun(cs, y, acts + [a]) == FineStep(cs, FineRun(cs, y, acts), a)
    decreases |acts|
  {
    hide FineStep, Hazard;
    if acts == [] {
      assert acts + [a] == [a] && [a][1..] == [];
    } else {
      assert (acts + [a])[1..] == acts[1..] + [a];
      Append(cs, FineStep(cs, y, acts[0]), acts[1..], a);
    }
  }

  lemma Next(c: Config, d: Config, acts: seq<FineAction>, x: Cell, o: Cell, lock: bool, m: Micro)
      returns (more: seq<FineAction>)
    requires Leads(c, d, acts, Pair(x, o, lock)) && Shaped(c, x.sdo) && Enabled(c, x, m) && !Retakes(c, x, lock, m)
    ensures var r := MicroStep(c, x, lock, m); Leads(c, d, more, Pair(r.0, o, r.1))
  {
    hide MicroStep;
    var cs := [c, d];
    var y := Pair(x, o, lock);
    var a := FineAction(0, m);
    more := acts + [a];
    Append(cs, FreshFine(cs), acts, a);
    var r := MicroStep(c, x, lock, m);
    assert [x, o][0 := r.0] == [r.0, o];
  }

  lemma {:induction false} Waits(c: Config, d: Config, acts: seq<FineAction>, s: SdoState, o: Cell, k: nat)
      returns (more: seq<FineAction>)
    requires Leads(c, d, acts, Pair(Cell(s, Outside, Listening), o, true))
    requires c.rw == Write && Shaped(c, s) && s.busy && s.busyCounter + k <= REPLY_TIMEOUT
    ensures Leads(c, d, more, Pair(Cell(s.(busyCounter := s.busyCounter + k), Outside, Listening), o, true))
    decreases k
  {
    hide Leads;
    more := acts;
    if k > 0 {
      var t := s.(busyCounter := s.busyCounter + 1);
      more := Next(c, d, more, Cell(s, Outside, Listening), o, true, Call(Cycle));
      more := Next(c, d, more, Cell(t, HeadDone, Listening), o, true, RunsPending);
      more := Next(c, d, more, Cell(t, PendingDone, Listening), o, true, RunsSampling);
      more := Waits(c, d, more, t, o, k - 1);
    }
  }

  lemma LeadsToItself(c: Config, d: Config)
    ensures Leads(c, d, [], Pair(Cell(Fresh(c), Outside, Listening), Cell(Fresh(d), Outside, Listening), false))
  {
    assert FreshFine([c, d]).cells == [Cell(Fresh(c), Outside, Listening), Cell(Fresh(d), Outside, Listening)];
  }

  /** A write of one segment has been sent and waits for the confirmation of its segment. */
  predicate Unconfirmed(c: Config, s: SdoState) {
    && c.rw == Write && Sound(c, s) && s.busy && !s.writePending
    && s.writeState == WriteData && s.written == c.size && !s.useTg1
  }

  lemma SendsOneSegment(c: Config, d: Config) returns (acts: seq<FineAction>, s: SdoState)
    requires c.rw == Write && 0 < c.size <= 7
    ensures Unconfirmed(c, s) && s.busyCounter == 0
    ensures Leads(c, d, acts, Pair(Cell(s, Outside, Listening), Cell(Fresh(d), Outside, Listening), true))
  {
    hide Leads, SegmentFrame;
    var o := Cell(Fresh(d), Outside, Listening);
    var x := Cell(Fresh(c), Outside, Listening);
    LeadsToItself(c, d);
    acts := Next(c, d, [], x, o, false, Call(Request));
    var t := WriteValue(c, x.sdo, false).sdo;
    acts := Next(c, d, acts, x.(sdo := t), o, true, Call(Frame(WriteConf(c))));
    s := Receive(c, t, true, WriteConf(c)).sdo;
  }

  /** It is confirmed after 1000 executes. While the reader unlocks, the 1001st times out and
      waits for the mutex; then the SDO is not busy any more. */
  lemma TimeoutMeetsCompletion(c: Config, d: Config, k: nat) returns (acts: seq<FineAction>, x: Cell)
    requires c.rw == Write && 0 < c.size <= 7 && k == REPLY_TIMEOUT
    ensures x.executor == GivenUp && x.reader == Listening && Sound(c, x.sdo) && !x.sdo.busy
    ensures Leads(c, d, acts, Pair(x, Cell(Fresh(d), Outside, Listening), false))
  {
    hide Leads, WriteNext;
    var o := Cell(Fresh(d), Outside, Listening);
    var s;
    acts, s := SendsOneSegment(c, d);
    acts := Waits(c, d, acts, s, o, k);
    x := Cell(s.(busyCounter := k), Outside, Listening);
    acts := Next(c, d, acts, x, o, true, Call(Frame(WriteSegmentConf(c, false))));
    x := x.(sdo := x.sdo.(writeState := WriteIdle, useTg1 := false), reader := Completed);
    acts := Next(c, d, acts, x, o, true, ReaderLocks);
    x := x.(reader := Releasing);
    acts := Next(c, d, acts, x, o, false, Call(Cycle));
    x := x.(sdo := TimeoutReset(c, x.sdo), executor := GivenUp);
    acts := Next(c, d, acts, x, o, false, ReaderClearsBusy);
    x := x.(sdo := x.sdo.(busy := false), reader := Listening);
  }

  lemma TakesAgain(c: Config, d: Config, x: Cell, o: Cell) returns (t: Cell)
    requires Sound(c, x.sdo) && !x.sdo.busy && x.executor == GivenUp && x.reader == Listening && Shaped(d, o.sdo)
    ensures var take := FineAction(0, Call(Request));
            && FineRunOk([c, d], Pair(x, o, false), [take])
            && FineRun([c, d], Pair(x, o, false), [take]) == Pair(t, o, true)
    ensures t.executor == GivenUp && t.reader == Listening && Shaped(c, t.sdo)
    ensures t.sdo.busy && t.sdo.writeState == WriteWaitForConf
  {
    var take := FineAction(0, Call(Request));
    t := MicroStep(c, x, false, Call(Request)).0;
    assert [x, o][0 := t] == [t, o];
    Does([c, d], Pair(x, o, false), take, []);
    assert [take] + [] == [take];
  }

  /** Mutual exclusion fails: from there `writeValue` takes the lock again, the execute call that
      timed out gives it away, and `writeValue` of the other SDO takes it too. In between the
      first SDO finds the lock free with its write machine not idle. */
  lemma ExclusionFails(c: Config, d: Config, k: nat) returns (acts: seq<FineAction>, more: seq<FineAction>)
    requires c.rw == Write && 0 < c.size <= 7 && k == REPLY_TIMEOUT
    ensures FineRunOk([c, d], FreshFine([c, d]), acts) && FineRunOk([c, d], FreshFine([c, d]), acts + more)
    ensures var y := FineRun([c, d], FreshFine([c, d]), acts);
            CanLock(y.cells[0].sdo, y.lock) && y.cells[0].sdo.writeState != WriteIdle
    ensures var z := FineRun([c, d], FreshFine([c, d]), acts + more);
            z.cells[0].sdo.writeState == WriteWaitForConf && z.cells[1].sdo.writeState == WriteWaitForConf
  {
    hide FineStep, MicroStep;
    var cs, y0 := [c, d], FreshFine([c, d]);
    var before, x := TimeoutMeetsCompletion(c, d, k);
    var o := Cell(Fresh(d), Outside, Listening);
    var take := FineAction(0, Call(Request));
    var t := TakesAgain(c, d, x, o);
    FineRunOfConcat(cs, y0, before, [take]);
    var z := Pair(t, o, true);
    LateUnlock(cs, z, 0);
    FineRunOfConcat(cs, y0, before + [take], UnlockOf(0, t));
    acts := before + [take] + UnlockOf(0, t);
    var free := FineRun(cs, z, UnlockOf(0, t));
    assert free.cells[1] == o;
    more := OtherStarts(cs, free, 1);
    FineRunOfConcat(cs, y0, acts, more);
  }
}
