/** The SDOs of one device around their shared lock flag: mutual exclusion over every
    interleaving of calls, dispatch of received frames, arbitration in the device cycle. */
module SdoBank {
  import opened Can
  import opened SdoProtocol
  import opened SdoRuns

  datatype Bank = Bank(sdos: seq<SdoState>, lock: bool)

  predicate ShapedBank(cs: seq<Config>, b: Bank) {
    |b.sdos| == |cs| && forall i :: 0 <= i < |cs| ==> Shaped(cs[i], b.sdos[i])
  }

  function FreshBank(cs: seq<Config>): (b: Bank)
    ensures ShapedBank(cs, b)
  {
    Bank(seq(|cs|, i requires 0 <= i < |cs| => Fresh(cs[i])), false)
  }

  datatype BankOutcome = BankOutcome(bank: Bank, sent: seq<CanFrame>)

  /** One call on SDO `i`. */
  function BankStep(cs: seq<Config>, b: Bank, i: nat, call: Call): (r: BankOutcome)
    requires ShapedBank(cs, b) && i < |cs| && Callable(cs[i], call)
    ensures ShapedBank(cs, r.bank)
  {
    var o := Step(cs[i], b.sdos[i], b.lock, call);
    BankOutcome(Bank(b.sdos[i := o.sdo], o.lock), o.sent)
  }

  // ---- mutual exclusion -----------------------------------------------------------------

  /** The flag is set iff exactly one SDO is busy, and the others are at rest. */
  ghost predicate Exclusive(cs: seq<Config>, b: Bank) {
    && |b.sdos| == |cs|
    && (forall i :: 0 <= i < |cs| ==> Sound(cs[i], b.sdos[i]))
    && (b.lock <==> exists i :: 0 <= i < |cs| && b.sdos[i].busy)
    && (forall i, j :: 0 <= i < |cs| && 0 <= j < |cs| && b.sdos[i].busy && b.sdos[j].busy ==> i == j)
  }

  lemma ExclusiveStep(cs: seq<Config>, b: Bank, i: nat, call: Call)
    requires Exclusive(cs, b) && i < |cs| && Callable(cs[i], call)
    ensures Exclusive(cs, BankStep(cs, b, i, call).bank)
    ensures b.lock && !b.sdos[i].busy ==>
              var r := BankStep(cs, b, i, call); !r.bank.sdos[i].busy && r.bank.lock && r.sent == []
  {
    CallAndLock(cs[i], b.sdos[i], b.lock, call);
    var t := BankStep(cs, b, i, call).bank;
    if t.sdos[i].busy {
      assert t.lock;
    } else if b.lock && !b.sdos[i].busy {
      var h :| 0 <= h < |cs| && b.sdos[h].busy;
      assert t.sdos[h].busy;
    }
  }

  datatype Action = Action(sdo: nat, call: Call)

  predicate ActionsOk(cs: seq<Config>, acts: seq<Action>) {
    forall k :: 0 <= k < |acts| ==> acts[k].sdo < |cs| && Callable(cs[acts[k].sdo], acts[k].call)
  }

  function BankRun(cs: seq<Config>, b: Bank, acts: seq<Action>): (r: Bank)
    requires ShapedBank(cs, b) && ActionsOk(cs, acts)
    ensures ShapedBank(cs, r)
    decreases |acts|
  {
    if acts == [] then b else BankRun(cs, BankStep(cs, b, acts[0].sdo, acts[0].call).bank, acts[1..])
  }

  lemma {:induction false} ExclusiveRun(cs: seq<Config>, b: Bank, acts: seq<Action>)
    requires Exclusive(cs, b) && ActionsOk(cs, acts)
    ensures Exclusive(cs, BankRun(cs, b, acts))
    decreases |acts|
  {
    if acts != [] {
      ExclusiveStep(cs, b, acts[0].sdo, acts[0].call);
      ExclusiveRun(cs, BankStep(cs, b, acts[0].sdo, acts[0].call).bank, acts[1..]);
    }
  }

  /** Over every interleaving of execute, receive, set and write calls of all SDOs: at most one
      SDO is away from rest, the flag is set iff some SDO is busy, and an SDO that is not busy has
      both machines idle. One that could take the lock thus has its write machine idle, so
      `writeValue` never keeps the lock unused. */
  lemma MutualExclusion(cs: seq<Config>, acts: seq<Action>, i: nat, j: nat)
    requires ActionsOk(cs, acts) && i < |cs| && j < |cs|
    ensures var b := BankRun(cs, FreshBank(cs), acts);
            && (!AtRest(b.sdos[i]) && !AtRest(b.sdos[j]) ==> i == j)
            && (b.sdos[i].busy && b.sdos[j].busy ==> i == j)
            && (b.lock <==> exists h :: 0 <= h < |cs| && b.sdos[h].busy)
            && (!b.sdos[i].busy ==> AtRest(b.sdos[i]))
            && (CanLock(b.sdos[i], b.lock) ==> b.sdos[i].writeState == WriteIdle)
  {
    assert Exclusive(cs, FreshBank(cs));
    ExclusiveRun(cs, FreshBank(cs), acts);
  }

  // ---- one SDO of the device -----------------------------------------------------------------

  /** Executes of SDO `i` in a run of the device. */
  function CyclesOf(acts: seq<Action>, i: nat): nat {
    if acts == [] then 0
    else (if acts[0] == Action(i, Cycle) then 1 else 0) + CyclesOf(acts[1..], i)
  }

  /** The frames that SDO `i` sends in a run of the device. */
  function SentBy(cs: seq<Config>, b: Bank, acts: seq<Action>, i: nat): seq<CanFrame>
    requires ShapedBank(cs, b) && ActionsOk(cs, acts)
    decreases |acts|
  {
    if acts == [] then []
    else
      var r := BankStep(cs, b, acts[0].sdo, acts[0].call);
      (if acts[0].sdo == i then r.sent else []) + SentBy(cs, r.bank, acts[1..], i)
  }

  lemma RunOfOneMore(c: Config, s: SdoState, e: Event, rest: seq<Event>)
    requires Shaped(c, s) && Callable(c, e.call) && AllCallable(c, rest)
    ensures var t := After(c, s, e);
            && AllCallable(c, [e] + rest) && Run(c, s, [e] + rest) == Run(c, t.sdo, rest)
            && Sent(c, s, [e] + rest) == t.sent + Sent(c, t.sdo, rest)
            && Cycles([e] + rest) == (if e.call.Cycle? then 1 else 0) + Cycles(rest)
  {
    hide After;
    assert ([e] + rest)[1..] == rest;
  }

  /** The run `es` of SDO `i` alone does to it what the run `acts` of the device does. */
  ghost predicate SameRun(cs: seq<Config>, b: Bank, acts: seq<Action>, i: nat, es: seq<Event>)
    requires ShapedBank(cs, b) && ActionsOk(cs, acts) && i < |cs|
  {
    && AllCallable(cs[i], es) && Run(cs[i], b.sdos[i], es) == BankRun(cs, b, acts).sdos[i]
    && Sent(cs[i], b.sdos[i], es) == SentBy(cs, b, acts, i)
    && Cycles(es) == CyclesOf(acts, i)
  }

  lemma SameRunOfOther(cs: seq<Config>, b: Bank, acts: seq<Action>, i: nat, es: seq<Event>)
    requires ShapedBank(cs, b) && ActionsOk(cs, acts) && i < |cs| && acts != [] && acts[0].sdo != i
    requires SameRun(cs, BankStep(cs, b, acts[0].sdo, acts[0].call).bank, acts[1..], i, es)
    ensures SameRun(cs, b, acts, i, es)
  {
    hide Step, Run, Sent, Cycles;
  }

  lemma SameRunOfOwn(cs: seq<Config>, b: Bank, acts: seq<Action>, i: nat, es: seq<Event>)
    requires Exclusive(cs, b) && ActionsOk(cs, acts) && i < |cs| && acts != [] && acts[0].sdo == i
    requires SameRun(cs, BankStep(cs, b, i, acts[0].call).bank, acts[1..], i, es)
    ensures SameRun(cs, b, acts, i, [Event(b.lock, acts[0].call)] + es)
  {
    hide Step, Run, Sent, Cycles;
    var e := Event(b.lock, acts[0].call);
    assert After(cs[i], b.sdos[i], e) == Step(cs[i], b.sdos[i], b.lock, e.call);
    RunOfOneMore(cs[i], b.sdos[i], e, es);
  }

  /** Each SDO of a device goes through a run of its own, in which the shared flag has the value
      the others give it and in which it sends the same frames; so everything shown for the runs
      of one SDO holds in the device. */
  lemma {:induction false} RunOfOneSdo(cs: seq<Config>, b: Bank, acts: seq<Action>, i: nat) returns (es: seq<Event>)
    requires Exclusive(cs, b) && ActionsOk(cs, acts) && i < |cs|
    ensures AllCallable(cs[i], es) && Run(cs[i], b.sdos[i], es) == BankRun(cs, b, acts).sdos[i]
    ensures Sent(cs[i], b.sdos[i], es) == SentBy(cs, b, acts, i)
    ensures Cycles(es) == CyclesOf(acts, i)
    ensures (forall k :: 0 <= k < |acts| ==> FromPlugin(cs[acts[k].sdo], acts[k].call)) ==> AllFromPlugin(cs[i], es)
    decreases |acts|
  {
    hide BankStep;
    es := [];
    if acts != [] {
      ExclusiveStep(cs, b, acts[0].sdo, acts[0].call);
      es := RunOfOneSdo(cs, BankStep(cs, b, acts[0].sdo, acts[0].call).bank, acts[1..], i);
      if acts[0].sdo == i {
        SameRunOfOwn(cs, b, acts, i, es);
        es := [Event(b.lock, acts[0].call)] + es;
      } else {
        SameRunOfOther(cs, b, acts, i, es);
      }
    }
  }

  // ---- loops over the SDOs ---------------------------------------------------------------------

  /** The same call on every SDO from `i` on, in the order of their indices. */
  function OneEach(n: nat, call: Call, i: nat): (acts: seq<Action>)
    requires i <= n
    ensures |acts| == n - i && forall k :: 0 <= k < n - i ==> acts[k] == Action(i + k, call)
  {
    seq(n - i, k requires 0 <= k < n - i => Action(i + k, call))
  }

  /** The frames sent in a run of the device, in their order. */
  function BankSent(cs: seq<Config>, b: Bank, acts: seq<Action>): seq<CanFrame>
    requires ShapedBank(cs, b) && ActionsOk(cs, acts)
    decreases |acts|
  {
    if acts == [] then []
    else
      var r := BankStep(cs, b, acts[0].sdo, acts[0].call);
      r.sent + BankSent(cs, r.bank, acts[1..])
  }

  // ---- dispatch of a received frame --------------------------------------------------------

  /** The forwarding loop of the device's `newRxFrame`, from SDO `i` on. */
  function Dispatch(cs: seq<Config>, b: Bank, f: CanFrame, i: nat): (r: BankOutcome)
    requires ShapedBank(cs, b) && i <= |cs|
    ensures ShapedBank(cs, r.bank)
    decreases |cs| - i
  {
    if i == |cs| then BankOutcome(b, [])
    else
      var o := BankStep(cs, b, i, Frame(f));
      var t := Dispatch(cs, o.bank, f, i + 1);
      BankOutcome(t.bank, o.sent + t.sent)
  }

  lemma DispatchUnfolds(cs: seq<Config>, b: Bank, f: CanFrame, i: nat)
    requires ShapedBank(cs, b) && i < |cs|
    ensures var o := BankStep(cs, b, i, Frame(f));
            var t := Dispatch(cs, o.bank, f, i + 1);
            Dispatch(cs, b, f, i) == BankOutcome(t.bank, o.sent + t.sent)
  {
    hide BankStep;
  }

  lemma DispatchEnds(cs: seq<Config>, b: Bank, f: CanFrame)
    requires ShapedBank(cs, b)
    ensures Dispatch(cs, b, f, |cs|) == BankOutcome(b, [])
  {
  }

  /** The loop hands the frame to every SDO once. */
  lemma {:induction false} DispatchIsRun(cs: seq<Config>, b: Bank, f: CanFrame, i: nat)
    requires ShapedBank(cs, b) && i <= |cs|
    ensures var acts := OneEach(|cs|, Frame(f), i);
            && ActionsOk(cs, acts)
            && Dispatch(cs, b, f, i) == BankOutcome(BankRun(cs, b, acts), BankSent(cs, b, acts))
    decreases |cs| - i
  {
    hide BankStep;
    if i < |cs| {
      var acts := OneEach(|cs|, Frame(f), i);
      assert acts[1..] == OneEach(|cs|, Frame(f), i + 1);
      DispatchIsRun(cs, BankStep(cs, b, i, Frame(f)).bank, f, i + 1);
    }
  }

  lemma IgnoredFrame(cs: seq<Config>, b: Bank, f: CanFrame, i: nat)
    requires ShapedBank(cs, b) && i < |cs|
    requires !b.sdos[i].busy || f.id != cs[i].cobIdTx
    ensures BankStep(cs, b, i, Frame(f)) == BankOutcome(b, [])
  {
    assert b.sdos[i := b.sdos[i]] == b.sdos;
  }

  lemma {:induction false} DispatchSkips(cs: seq<Config>, b: Bank, f: CanFrame, i: nat)
    requires ShapedBank(cs, b) && i <= |cs|
    requires forall j :: i <= j < |cs| ==> !b.sdos[j].busy || f.id != cs[j].cobIdTx
    ensures Dispatch(cs, b, f, i) == BankOutcome(b, [])
    decreases |cs| - i
  {
    hide BankStep, Dispatch;
    if i == |cs| {
      DispatchEnds(cs, b, f);
    } else {
      DispatchUnfolds(cs, b, f, i);
      IgnoredFrame(cs, b, f, i);
      DispatchSkips(cs, b, f, i + 1);
    }
  }

  lemma {:induction false} DispatchReachesHolder(cs: seq<Config>, b: Bank, f: CanFrame, i: nat, h: nat)
    requires Exclusive(cs, b) && i <= h < |cs| && b.sdos[h].busy
    ensures Dispatch(cs, b, f, i) == BankStep(cs, b, h, Frame(f))
    decreases |cs| - i
  {
    hide Step, Dispatch;
    DispatchUnfolds(cs, b, f, i);
    if i < h {
      assert !b.sdos[i].busy;
      IgnoredFrame(cs, b, f, i);
      DispatchReachesHolder(cs, b, f, i + 1, h);
    } else {
      var o := BankStep(cs, b, h, Frame(f));
      ExclusiveStep(cs, b, h, Frame(f));
      DispatchSkips(cs, o.bank, f, h + 1);
    }
  }

  /** One frame, one SDO: the loop does to the device exactly what the frame does to the lock
      holder, even when the holder releases the lock inside the loop; every other SDO is left
      as it is, and so is the holder if the frame does not carry its identifier. */
  lemma OneFrameOneSdo(cs: seq<Config>, b: Bank, f: CanFrame)
    requires Exclusive(cs, b)
    ensures Exclusive(cs, Dispatch(cs, b, f, 0).bank)
    ensures forall h :: 0 <= h < |cs| && b.sdos[h].busy ==> Dispatch(cs, b, f, 0) == BankStep(cs, b, h, Frame(f))
    ensures forall j :: 0 <= j < |cs| && (!b.sdos[j].busy || f.id != cs[j].cobIdTx) ==>
              Dispatch(cs, b, f, 0).bank.sdos[j] == b.sdos[j]
    ensures !b.lock ==> Dispatch(cs, b, f, 0) == BankOutcome(b, [])
  {
    if h :| 0 <= h < |cs| && b.sdos[h].busy {
      DispatchReachesHolder(cs, b, f, 0, h);
      ExclusiveStep(cs, b, h, Frame(f));
    } else {
      DispatchSkips(cs, b, f, 0);
    }
  }

  // ---- the device cycle ------------------------------------------------------------------------

  /** The execute loop of the device, from SDO `i` on. */
  function CycleAll(cs: seq<Config>, b: Bank, i: nat): (r: BankOutcome)
    requires ShapedBank(cs, b) && i <= |cs|
    ensures ShapedBank(cs, r.bank)
    decreases |cs| - i
  {
    if i == |cs| then BankOutcome(b, [])
    else
      var o := BankStep(cs, b, i, Cycle);
      var t := CycleAll(cs, o.bank, i + 1);
      BankOutcome(t.bank, o.sent + t.sent)
  }

  lemma CycleAllUnfolds(cs: seq<Config>, b: Bank, i: nat)
    requires ShapedBank(cs, b) && i < |cs|
    ensures var o := BankStep(cs, b, i, Cycle);
            var t := CycleAll(cs, o.bank, i + 1);
            CycleAll(cs, b, i) == BankOutcome(t.bank, o.sent + t.sent)
  {
    hide BankStep;
  }

  lemma CycleAllEnds(cs: seq<Config>, b: Bank)
    requires ShapedBank(cs, b)
    ensures CycleAll(cs, b, |cs|) == BankOutcome(b, [])
  {
  }

  /** The loop executes every SDO once, whoever holds the lock. */
  lemma {:induction false} CycleAllIsRun(cs: seq<Config>, b: Bank, i: nat)
    requires ShapedBank(cs, b) && i <= |cs|
    ensures var acts := OneEach(|cs|, Cycle, i);
            && ActionsOk(cs, acts)
            && CycleAll(cs, b, i) == BankOutcome(BankRun(cs, b, acts), BankSent(cs, b, acts))
    decreases |cs| - i
  {
    hide BankStep;
    if i < |cs| {
      var acts := OneEach(|cs|, Cycle, i);
      assert acts[1..] == OneEach(|cs|, Cycle, i + 1);
      CycleAllIsRun(cs, BankStep(cs, b, i, Cycle).bank, i + 1);
    }
  }

  /** The SDO wants the lock: a write is pending, or its read period has expired. */
  predicate Due(c: Config, s: SdoState) {
    s.writePending || ReadDue(c, s)
  }

  ghost predicate NoneDue(cs: seq<Config>, b: Bank, from: nat, to: nat)
    requires |b.sdos| == |cs|
  {
    forall j :: from <= j < to && j < |cs| ==> !Due(cs[j], b.sdos[j])
  }

  /** The frame by which an SDO opens its transfer. */
  function OpeningFrame(c: Config, s: SdoState): CanFrame {
    if s.writePending then WriteReq(c) else ReadReq(c)
  }

  lemma CycleOfFree(c: Config, s: SdoState)
    requires Sound(c, s) && !s.busy
    ensures var r := Step(c, s, false, Cycle);
            && r.sdo.busy == r.lock == Due(c, s)
            && r.sent == (if Due(c, s) then [OpeningFrame(c, s)] else [])
  {
  }

  lemma HeldStep(cs: seq<Config>, b: Bank, i: nat, h: nat)
    requires Exclusive(cs, b) && h < i < |cs| && b.sdos[h].busy
    ensures var r := BankStep(cs, b, i, Cycle);
            Exclusive(cs, r.bank) && r.bank.sdos[h] == b.sdos[h] && r.sent == []
  {
    hide Step;
    ExclusiveStep(cs, b, i, Cycle);
    assert !b.sdos[i].busy;
  }

  lemma {:induction false} CycleWhileHeld(cs: seq<Config>, b: Bank, i: nat, h: nat)
    requires Exclusive(cs, b) && h < i <= |cs| && b.sdos[h].busy
    ensures var r := CycleAll(cs, b, i);
            Exclusive(cs, r.bank) && r.bank.sdos[h] == b.sdos[h] && r.bank.sdos[h].busy && r.sent == []
    decreases |cs| - i
  {
    hide BankStep;
    if i < |cs| {
      HeldStep(cs, b, i, h);
      CycleWhileHeld(cs, BankStep(cs, b, i, Cycle).bank, i + 1, h);
    }
  }

  lemma FreeStep(cs: seq<Config>, b: Bank, i: nat)
    requires Exclusive(cs, b) && i < |cs| && !b.lock
    ensures var r := BankStep(cs, b, i, Cycle);
            && Exclusive(cs, r.bank)
            && (if Due(cs[i], b.sdos[i]) then r.bank.sdos[i].busy && r.sent == [OpeningFrame(cs[i], b.sdos[i])]
                else !r.bank.lock && r.sent == [])
            && forall j :: i < j < |cs| ==> r.bank.sdos[j] == b.sdos[j]
  {
    hide Step, Due, OpeningFrame;
    CycleOfFree(cs[i], b.sdos[i]);
    ExclusiveStep(cs, b, i, Cycle);
  }

  /** `h` is the first due SDO from `i` on, or the number of SDOs if none is due. */
  lemma {:induction false} CycleFromFree(cs: seq<Config>, b: Bank, i: nat) returns (h: nat)
    requires Exclusive(cs, b) && i <= |cs| && !b.lock
    ensures i <= h <= |cs| && NoneDue(cs, b, i, h)
    ensures var r := CycleAll(cs, b, i);
            && Exclusive(cs, r.bank)
            && if h < |cs|
               then Due(cs[h], b.sdos[h]) && r.bank.sdos[h].busy && r.sent == [OpeningFrame(cs[h], b.sdos[h])]
               else !r.bank.lock && r.sent == []
    decreases |cs| - i
  {
    hide BankStep, Due, OpeningFrame;
    h := i;
    if i < |cs| {
      FreeStep(cs, b, i);
      if Due(cs[i], b.sdos[i]) {
        CycleWhileHeld(cs, BankStep(cs, b, i, Cycle).bank, i + 1, i);
      } else {
        h := CycleFromFree(cs, BankStep(cs, b, i, Cycle).bank, i + 1);
      }
    }
  }

  /** Work-conserving arbitration: if the lock is free when the device cycle starts, then at its
      end the lock is held iff some SDO was due, the holder is the due SDO of lowest index, and
      its opening frame is the only frame sent. */
  lemma LowestDueSdoWins(cs: seq<Config>, b: Bank)
    requires Exclusive(cs, b) && !b.lock
    ensures var r := CycleAll(cs, b, 0);
            && (r.bank.lock <==> exists i :: 0 <= i < |cs| && Due(cs[i], b.sdos[i]))
            && forall h :: 0 <= h < |cs| && r.bank.sdos[h].busy ==>
                 Due(cs[h], b.sdos[h]) && NoneDue(cs, b, 0, h) && r.sent == [OpeningFrame(cs[h], b.sdos[h])]
  {
    var w := CycleFromFree(cs, b, 0);
    var r := CycleAll(cs, b, 0).bank;
    if w < |cs| {
      assert r.lock && r.sdos[w].busy;
      assert forall h :: 0 <= h < |cs| && r.sdos[h].busy ==> h == w;
    }
  }
}
