/** What one SDO keeps over every run: any interleaving of its real-time cycle, received frames
    and asyn calls, while the other SDOs of the device take and release the shared lock. */
module SdoRuns {
  import opened Can
  import opened SdoProtocol

  /** One call and the value of the shared flag when it is made. A flag that this SDO holds
      itself is necessarily set. */
  datatype Event = Event(flag: bool, call: Call)

  function After(c: Config, s: SdoState, e: Event): (r: Outcome)
    requires Shaped(c, s) && Callable(c, e.call)
    ensures Shaped(c, r.sdo)
  {
    Step(c, s, e.flag || s.busy, e.call)
  }

  predicate AllCallable(c: Config, es: seq<Event>) {
    forall k :: 0 <= k < |es| ==> Callable(c, es[k].call)
  }

  predicate AllFromPlugin(c: Config, es: seq<Event>) {
    forall k :: 0 <= k < |es| ==> FromPlugin(c, es[k].call)
  }

  function Run(c: Config, s: SdoState, es: seq<Event>): (r: SdoState)
    requires Shaped(c, s) && AllCallable(c, es)
    ensures Shaped(c, r)
    decreases |es|
  {
    if es == [] then s else Run(c, After(c, s, es[0]).sdo, es[1..])
  }

  /** All frames sent along a run. */
  function Sent(c: Config, s: SdoState, es: seq<Event>): seq<CanFrame>
    requires Shaped(c, s) && AllCallable(c, es)
    decreases |es|
  {
    if es == [] then [] else After(c, s, es[0]).sent + Sent(c, After(c, s, es[0]).sdo, es[1..])
  }

  lemma CycleSendsToServer(c: Config, s: SdoState, lock: bool)
    requires Shaped(c, s)
    ensures forall f :: f in Execute(c, s, lock).sent ==> f.id == c.cobIdRx && 1 <= f.dlc <= 8
  {
    var h := ExecuteHead(c, s, lock);
    var p := ExecutePending(c, h.sdo, h.lock);
    assert forall f :: f in p.sent ==> f == WriteReq(c);
    assert forall f :: f in ExecuteSample(c, p.sdo, p.lock).sent ==> f == ReadReq(c);
  }

  lemma CallSendsToServer(c: Config, s: SdoState, e: Event)
    requires Shaped(c, s) && Callable(c, e.call)
    ensures forall f :: f in After(c, s, e).sent ==> f.id == c.cobIdRx && 1 <= f.dlc <= 8
  {
    hide SegmentFrame, Collect, Execute;
    if e.call.Cycle? {
      CycleSendsToServer(c, s, e.flag || s.busy);
    }
  }

  /** Whatever is called and received, every frame that an SDO sends has the identifier on which
      the server of the node listens. */
  lemma {:induction false} SentToServer(c: Config, s: SdoState, es: seq<Event>)
    requires Shaped(c, s) && AllCallable(c, es)
    ensures forall f :: f in Sent(c, s, es) ==> f.id == c.cobIdRx && 1 <= f.dlc <= 8
    decreases |es|
  {
    hide After;
    if es != [] {
      CallSendsToServer(c, s, es[0]);
      SentToServer(c, After(c, s, es[0]).sdo, es[1..]);
    }
  }

  // ---- at rest unless busy ------------------------------------------------------------

  predicate Sound(c: Config, s: SdoState) {
    && Shaped(c, s)
    && (!s.busy ==> AtRest(s))
    && (s.readState == ReadIdle || s.writeState == WriteIdle)
    && s.busyCounter <= REPLY_TIMEOUT
  }

  /** An SDO that neither holds nor gets the lock stays silent, the flag after the call is set
      iff this SDO or another one holds the lock, and an SDO that does not hold the lock has
      both state machines at rest. */
  predicate KeepsLock(c: Config, s: SdoState, lock: bool, r: Outcome) {
    && Sound(c, r.sdo)
    && (r.lock <==> r.sdo.busy || (lock && !s.busy))
    && (lock && !s.busy ==> !r.sdo.busy && r.sent == [])
  }

  lemma CycleAndLock(c: Config, s: SdoState, lock: bool)
    requires Sound(c, s) && (s.busy ==> lock)
    ensures KeepsLock(c, s, lock, Execute(c, s, lock))
  {
    var h := ExecuteHead(c, s, lock);
    assert Sound(c, h.sdo) && (h.lock <==> h.sdo.busy || (lock && !s.busy));
    TailAndLock(c, h.sdo, h.lock);
  }

  lemma TailAndLock(c: Config, s: SdoState, lock: bool)
    requires Sound(c, s)
    ensures var r := ExecuteTail(c, s, lock);
            && Sound(c, r.sdo)
            && (s.busy ==> && r.lock == lock && r.sdo.busy
                           && r.sdo.readState == s.readState && r.sdo.writeState == s.writeState)
            && (!s.busy ==> (r.lock <==> lock || r.sdo.busy))
            && (!s.busy && lock ==> !r.sdo.busy && r.sent == [])
  {
    var p := ExecutePending(c, s, lock);
    assert Sound(c, p.sdo);
  }

  lemma FrameAndLock(c: Config, s: SdoState, lock: bool, f: CanFrame)
    requires Sound(c, s) && (s.busy ==> lock)
    ensures KeepsLock(c, s, lock, Receive(c, s, lock, f))
  {
  }

  lemma CallAndLock(c: Config, s: SdoState, lock: bool, call: Call)
    requires Sound(c, s) && Callable(c, call)
    requires s.busy ==> lock
    ensures KeepsLock(c, s, lock, Step(c, s, lock, call))
  {
    hide Execute, Receive;
    match call
    case Cycle => CycleAndLock(c, s, lock);
    case Frame(f) => FrameAndLock(c, s, lock, f);
    case Set(src, bytes) =>
    case Request =>
  }

  lemma {:induction false} RunKeepsSound(c: Config, s: SdoState, es: seq<Event>)
    requires Sound(c, s) && AllCallable(c, es)
    ensures Sound(c, Run(c, s, es))
    decreases |es|
  {
    if es != [] {
      CallAndLock(c, s, es[0].flag || s.busy, es[0].call);
      RunKeepsSound(c, After(c, s, es[0]).sdo, es[1..]);
    }
  }

  // ---- bounded hold ---------------------------------------------------------------------

  /** The call ends the transfer that holds the lock: by the timeout, or by the frame that
      completes it. */
  predicate Releases(c: Config, s: SdoState, call: Call)
    requires Shaped(c, s)
  {
    s.busy &&
    match call
    case Cycle => TimesOut(s)
    case Frame(f) => !Receive(c, s, true, f).sdo.busy
    case Set(_, _) => false
    case Request => false
  }

  /** The SDO holds the lock all along, for one and the same transfer. */
  predicate HoldsThroughout(c: Config, s: SdoState, es: seq<Event>)
    requires Shaped(c, s) && AllCallable(c, es)
    decreases |es|
  {
    s.busy &&
    (es == [] || (!Releases(c, s, es[0].call) && HoldsThroughout(c, After(c, s, es[0]).sdo, es[1..])))
  }

  function Cycles(es: seq<Event>): nat {
    if es == [] then 0 else (if es[0].call.Cycle? then 1 else 0) + Cycles(es[1..])
  }

  /** A call that does not release the lock only counts, and only if it is a cycle. */
  lemma BusyCounterCounts(c: Config, s: SdoState, e: Event)
    requires Sound(c, s) && Callable(c, e.call) && s.busy && !Releases(c, s, e.call)
    ensures After(c, s, e).sdo.busy
    ensures After(c, s, e).sdo.busyCounter == s.busyCounter + (if e.call.Cycle? then 1 else 0)
  {
  }

  /** While one transfer holds the lock, `busyCounter_` grows by one per execute, starting from
      what earlier transfers that no execute saw end have left in it. */
  lemma {:induction false} HoldIsCounted(c: Config, s: SdoState, es: seq<Event>)
    requires Sound(c, s) && AllCallable(c, es) && HoldsThroughout(c, s, es)
    ensures Run(c, s, es).busy
    ensures Run(c, s, es).busyCounter == s.busyCounter + Cycles(es) <= 1000
    decreases |es|
  {
    if es != [] {
      var t := After(c, s, es[0]).sdo;
      BusyCounterCounts(c, s, es[0]);
      CallAndLock(c, s, true, es[0].call);
      HoldIsCounted(c, t, es[1..]);
    }
  }

  /** Whatever frames arrive, a run with 1001 executes contains the end of the transfer. */
  lemma HoldIsBounded(c: Config, s: SdoState, es: seq<Event>)
    requires Sound(c, s) && AllCallable(c, es)
    requires Cycles(es) > 1000
    ensures !HoldsThroughout(c, s, es)
  {
    if HoldsThroughout(c, s, es) {
      HoldIsCounted(c, s, es);
    }
  }

  lemma OnlyCyclesCount(c: Config, s: SdoState, e: Event)
    requires Shaped(c, s) && Callable(c, e.call)
    ensures !e.call.Cycle? ==> After(c, s, e).sdo.busyCounter == s.busyCounter
    ensures e.call.Cycle? && (!s.busy || TimesOut(s)) ==> After(c, s, e).sdo.busyCounter == 0
  {
    hide SegmentFrame, Collect;
    if e.call.Frame? {
      CollectKeepsCounter(c, s, e.call.f);
    }
  }

  lemma CollectKeepsCounter(c: Config, s: SdoState, f: CanFrame)
    requires Shaped(c, s)
    ensures Collect(c, s, f).busyCounter == s.busyCounter
  {
  }

  lemma {:induction false} NoCycleNoCount(c: Config, s: SdoState, es: seq<Event>)
    requires Shaped(c, s) && AllCallable(c, es) && Cycles(es) == 0
    ensures Run(c, s, es).busyCounter == s.busyCounter
    decreases |es|
  {
    hide After;
    if es != [] {
      OnlyCyclesCount(c, s, es[0]);
      NoCycleNoCount(c, After(c, s, es[0]).sdo, es[1..]);
    }
  }

  /** An execute that holds the lock gives it up iff the transfer has been counted through 1000
      executes before. */
  lemma TimeoutIsCounted(c: Config, s: SdoState, hold: seq<Event>)
    requires Sound(c, s) && AllCallable(c, hold) && HoldsThroughout(c, s, hold)
    ensures Releases(c, Run(c, s, hold), Cycle) <==> s.busyCounter + Cycles(hold) == 1000
  {
    HoldIsCounted(c, s, hold);
  }

  /** A transfer that starts with or after an execute that found the SDO idle, or gave up an earlier
      one, is itself given up by the 1001st execute after that one and by no other. */
  lemma TimeoutIsExact(c: Config, s: SdoState, idle: Event, es: seq<Event>, hold: seq<Event>)
    requires Sound(c, s) && idle.call.Cycle? && (!s.busy || TimesOut(s))
    requires AllCallable(c, es) && Cycles(es) == 0
    requires AllCallable(c, hold) && HoldsThroughout(c, Run(c, After(c, s, idle).sdo, es), hold)
    ensures var u := Run(c, After(c, s, idle).sdo, es);
            Releases(c, Run(c, u, hold), Cycle) <==> Cycles(hold) == 1000
  {
    hide Run, HoldsThroughout, Releases;
    OnlyCyclesCount(c, s, idle);
    CallAndLock(c, s, idle.flag || s.busy, idle.call);
    var t := After(c, s, idle).sdo;
    NoCycleNoCount(c, t, es);
    RunKeepsSound(c, t, es);
    TimeoutIsCounted(c, Run(c, t, es), hold);
  }

  /** Some execute of the run timed out. */
  predicate TimedOut(c: Config, s: SdoState, es: seq<Event>)
    requires Shaped(c, s) && AllCallable(c, es)
    decreases |es|
  {
    es != [] && ((es[0].call.Cycle? && TimesOut(s)) || TimedOut(c, After(c, s, es[0]).sdo, es[1..]))
  }

  /** The error code reports a timeout exactly from the first one on; no later success clears it. */
  lemma {:induction false} TimeoutErrorIsSticky(c: Config, s: SdoState, es: seq<Event>)
    requires Shaped(c, s) && AllCallable(c, es)
    ensures Run(c, s, es).errorCode == if TimedOut(c, s, es) then 111 else s.errorCode
    decreases |es|
  {
    if es != [] {
      CallKeepsError(c, s, es[0]);
      hide Step;
      TimeoutErrorIsSticky(c, After(c, s, es[0]).sdo, es[1..]);
    }
  }

  lemma CallKeepsError(c: Config, s: SdoState, e: Event)
    requires Shaped(c, s) && Callable(c, e.call)
    ensures After(c, s, e).sdo.errorCode == if e.call.Cycle? && TimesOut(s) then ERROR_TIMEOUT else s.errorCode
  {
    hide SegmentFrame, Collect;
    if e.call.Frame? {
      assert Collect(c, s, e.call.f).errorCode == s.errorCode by { CollectKeepsError(c, s, e.call.f); }
    }
  }

  lemma CollectKeepsError(c: Config, s: SdoState, f: CanFrame)
    requires Shaped(c, s)
    ensures Collect(c, s, f).errorCode == s.errorCode
  {
  }

  // ---- no torn reads ----------------------------------------------------------------------

  /** A read SDO with its history: the payloads accepted since the last request, and the
      complete payloads of the transfers that finished. */
  datatype Reading = Reading(sdo: SdoState, payload: seq<byte>, finished: seq<seq<byte>>)

  predicate TakesData(c: Config, s: SdoState, call: Call) {
    call.Frame? && s.busy && call.f.id == c.cobIdTx && s.readState == ReadWaitForData
  }

  function ReadOn(c: Config, r: Reading, e: Event): Reading
    requires Shaped(c, r.sdo) && Callable(c, e.call)
  {
    var s := After(c, r.sdo, e).sdo;
    var p := if s.readState == ReadWaitForConf then []
             else if TakesData(c, r.sdo, e.call) && Accepts(c, r.sdo, e.call.f)
             then r.payload + Payload(e.call.f)
             else r.payload;
    var done := TakesData(c, r.sdo, e.call) && s.readState == ReadIdle;
    Reading(s, p, if done then r.finished + [p] else r.finished)
  }

  function ReadRun(c: Config, r: Reading, es: seq<Event>): Reading
    requires Shaped(c, r.sdo) && AllCallable(c, es)
    decreases |es|
  {
    if es == [] then r else ReadRun(c, ReadOn(c, r, es[0]), es[1..])
  }

  predicate NotTorn(c: Config, r: Reading) {
    && Sound(c, r.sdo)
    && r.sdo.writeState == WriteIdle && !r.sdo.writePending
    && (r.sdo.readState == ReadWaitForConf ==> r.sdo.received == 0 && r.payload == [])
    && (r.sdo.readState == ReadWaitForData ==> r.sdo.temp[..r.sdo.received] == r.payload)
    && r.sdo.data == (if r.finished == [] then Zeros(c.size) else r.finished[|r.finished| - 1])
    && (forall k :: 0 <= k < |r.finished| ==> |r.finished[k]| == c.size)
  }

  /** A data frame extends the collected bytes by its payload, or leaves them as they are. */
  lemma CollectExtends(c: Config, s: SdoState, f: CanFrame)
    requires Shaped(c, s)
    ensures var t := Collect(c, s, f);
            && t.temp[..t.received] == s.temp[..s.received] + (if Accepts(c, s, f) then Payload(f) else [])
            && (t.received >= c.size ==> t.temp[..t.received] == t.temp)
  {
  }

  lemma NotTornData(c: Config, r: Reading, e: Event)
    requires c.rw == Read && NotTorn(c, r) && FromPlugin(c, e.call)
    requires TakesData(c, r.sdo, e.call)
    ensures NotTorn(c, ReadOn(c, r, e))
  {
    CallAndLock(c, r.sdo, true, e.call);
    CollectExtends(c, r.sdo, e.call.f);
    var q := ReadOn(c, r, e);
    var t := Collect(c, r.sdo, e.call.f);
    assert t.temp[..t.received] == q.payload;
    if t.received >= c.size {
      assert q.sdo.readState == ReadIdle && q.finished == r.finished + [q.payload];
      assert q.sdo.data == t.temp == q.payload;
    } else {
      assert q.finished == r.finished;
    }
  }

  lemma NotTornElse(c: Config, r: Reading, e: Event)
    requires c.rw == Read && NotTorn(c, r) && FromPlugin(c, e.call)
    requires !TakesData(c, r.sdo, e.call)
    ensures NotTorn(c, ReadOn(c, r, e))
  {
    var lock := e.flag || r.sdo.busy;
    CallAndLock(c, r.sdo, lock, e.call);
    if e.call.Cycle? {
      var h := ExecuteHead(c, r.sdo, lock);
      assert ExecutePending(c, h.sdo, h.lock) == Outcome(h.sdo, h.lock, []);
      assert ExecuteSample(c, h.sdo, h.lock).sdo == After(c, r.sdo, e).sdo;
    }
  }

  lemma NotTornStep(c: Config, r: Reading, e: Event)
    requires c.rw == Read && NotTorn(c, r) && FromPlugin(c, e.call)
    ensures NotTorn(c, ReadOn(c, r, e))
  {
    if TakesData(c, r.sdo, e.call) {
      NotTornData(c, r, e);
    } else {
      NotTornElse(c, r, e);
    }
  }

  lemma {:induction false} NotTornRun(c: Config, r: Reading, es: seq<Event>)
    requires c.rw == Read && NotTorn(c, r) && AllFromPlugin(c, es)
    ensures NotTorn(c, ReadRun(c, r, es))
    decreases |es|
  {
    if es != [] {
      NotTornStep(c, r, es[0]);
      NotTornRun(c, ReadOn(c, r, es[0]), es[1..]);
    }
  }

  /** In every run of a read SDO, aborted transfers included, `dataBuffer_` holds the initial
      zeros or exactly the payload of the last transfer that finished. */
  lemma NoTornReads(c: Config, es: seq<Event>)
    requires c.rw == Read && AllFromPlugin(c, es)
    ensures var r := ReadRun(c, Reading(Fresh(c), [], []), es);
            && NotTorn(c, r)
            && r.sdo == Run(c, Fresh(c), es)
  {
    NotTornRun(c, Reading(Fresh(c), [], []), es);
    ReadRunIsRun(c, Reading(Fresh(c), [], []), es);
  }

  lemma {:induction false} ReadRunIsRun(c: Config, r: Reading, es: seq<Event>)
    requires Shaped(c, r.sdo) && AllCallable(c, es)
    ensures ReadRun(c, r, es).sdo == Run(c, r.sdo, es)
    decreases |es|
  {
    if es != [] {
      ReadRunIsRun(c, ReadOn(c, r, es[0]), es[1..]);
    }
  }

  // ---- pending writes -----------------------------------------------------------------------

  datatype Option<T> = None | Some(value: T)

  /** A write SDO with its history: the last value set, whether the asyn thread stands between
      its `setValue` and its `writeValue`, and the value of the transfer started last. */
  datatype Writing = Writing(sdo: SdoState, last: Option<seq<byte>>, between: bool, started: Option<seq<byte>>)

  /** The asyn callback sets at least one byte, and requests right after it has set. */
  predicate CallbackOrder(w: Writing, call: Call) {
    && (call.Set? ==> call.bytes > 0 && !w.between)
    && (call.Request? ==> w.between)
  }

  function WriteOn(c: Config, w: Writing, e: Event): Writing
    requires Shaped(c, w.sdo) && Callable(c, e.call)
  {
    var r := After(c, w.sdo, e);
    Writing(r.sdo,
            if e.call.Set? then Some(e.call.src[..c.size]) else w.last,
            if e.call.Set? then true else if e.call.Request? then false else w.between,
            if !e.call.Frame? && r.sent != [] then Some(r.sdo.data) else w.started)
  }

  /** The last value set is on its way: it waits in `tempDataBuffer_` for a request or a retry,
      or the transfer started last carries it. */
  predicate LastWriterWins(w: Writing) {
    w.last.Some? ==>
      if w.between || w.sdo.writePending then w.sdo.temp == w.last.value
      else w.started == w.last
  }

  predicate WriterSound(c: Config, w: Writing) {
    && Sound(c, w.sdo)
    && w.sdo.readState == ReadIdle
    && (w.between || w.sdo.writePending ==> w.last.Some?)
    && (w.last.Some? ==> |w.last.value| == c.size)
  }

  /** A timeout zeroes `tempDataBuffer_` but keeps `writePending_`. */
  predicate LosesPending(c: Config, w: Writing, call: Call) {
    && call.Cycle? && TimesOut(w.sdo)
    && (w.sdo.writePending || w.between)
    && w.last != Some(Zeros(c.size))
  }

  /** Exactly the timeouts that hit a waiting value other than all zeros break the promise. */
  lemma LastWriterStep(c: Config, w: Writing, e: Event)
    requires c.rw == Write && WriterSound(c, w) && LastWriterWins(w)
    requires FromPlugin(c, e.call) && CallbackOrder(w, e.call)
    ensures WriterSound(c, WriteOn(c, w, e))
    ensures LastWriterWins(WriteOn(c, w, e)) <==> !LosesPending(c, w, e.call)
  {
    CallAndLock(c, w.sdo, e.flag || w.sdo.busy, e.call);
    if e.call.Cycle? {
      var h := ExecuteHead(c, w.sdo, e.flag || w.sdo.busy);
      var p := ExecutePending(c, h.sdo, h.lock);
      assert After(c, w.sdo, e).sdo == p.sdo && After(c, w.sdo, e).sent == p.sent;
      if TimesOut(w.sdo) && w.sdo.writePending {
        assert p.sdo.data == Zeros(c.size) && p.sent == [WriteReq(c)];
      }
    }
    if e.call.Set? && c.size == 0 {
      assert w.sdo.temp == e.call.src[..c.size];
    }
  }

  /** The run follows the callback order and no timeout hits a waiting value. */
  predicate Undisturbed(c: Config, w: Writing, es: seq<Event>)
    requires Shaped(c, w.sdo) && AllFromPlugin(c, es)
    decreases |es|
  {
    es == [] || (CallbackOrder(w, es[0].call) && !LosesPending(c, w, es[0].call)
                 && Undisturbed(c, WriteOn(c, w, es[0]), es[1..]))
  }

  function WriteRun(c: Config, w: Writing, es: seq<Event>): Writing
    requires Shaped(c, w.sdo) && AllCallable(c, es)
    decreases |es|
  {
    if es == [] then w else WriteRun(c, WriteOn(c, w, es[0]), es[1..])
  }

  lemma {:induction false} LastWriterRun(c: Config, w: Writing, es: seq<Event>)
    requires c.rw == Write && WriterSound(c, w) && LastWriterWins(w)
    requires AllFromPlugin(c, es) && Undisturbed(c, w, es)
    ensures WriterSound(c, WriteRun(c, w, es)) && LastWriterWins(WriteRun(c, w, es))
    decreases |es|
  {
    if es != [] {
      LastWriterStep(c, w, es[0]);
      LastWriterRun(c, WriteOn(c, w, es[0]), es[1..]);
    }
  }

  /** Pending writes are not lost and the last writer wins, in every undisturbed run. */
  lemma PendingWritesSurvive(c: Config, es: seq<Event>)
    requires c.rw == Write && AllFromPlugin(c, es)
    requires Undisturbed(c, Writing(Fresh(c), None, false, None), es)
    ensures LastWriterWins(WriteRun(c, Writing(Fresh(c), None, false, None), es))
  {
    LastWriterRun(c, Writing(Fresh(c), None, false, None), es);
  }

  function Waiting(k: nat): (es: seq<Event>)
    ensures |es| == k
  {
    if k == 0 then [] else [Event(true, Cycle)] + Waiting(k - 1)
  }

  lemma {:induction false} WaitingOnlyCounts(c: Config, w: Writing, k: nat)
    requires c.rw == Write && Shaped(c, w.sdo) && w.sdo.busy && w.sdo.busyCounter + k <= REPLY_TIMEOUT
    ensures AllFromPlugin(c, Waiting(k))
    ensures WriteRun(c, w, Waiting(k)) == w.(sdo := w.sdo.(busyCounter := w.sdo.busyCounter + k))
    decreases k
  {
    if k > 0 {
      WaitingOnlyCounts(c, WriteOn(c, w, Event(true, Cycle)), k - 1);
    }
  }

  lemma {:induction false} WriteRunConcat(c: Config, w: Writing, es: seq<Event>, fs: seq<Event>)
    requires Shaped(c, w.sdo) && AllCallable(c, es) && AllCallable(c, fs)
    ensures Shaped(c, WriteRun(c, w, es).sdo)
    ensures WriteRun(c, w, es + fs) == WriteRun(c, WriteRun(c, w, es), fs)
    decreases |es|
  {
    if es == [] {
      assert es + fs == fs;
    } else {
      assert (es + fs)[1..] == es[1..] + fs;
      WriteRunConcat(c, WriteOn(c, w, es[0]), es[1..], fs);
    }
  }

  /** The promise fails after a timeout: a first write of `a` gets no answer, a second one of
      `b` waits; the 1001st execute gives up the first and starts a transfer of zeros. */
  lemma TimeoutWritesZeros(c: Config, a: seq<byte>, b: seq<byte>) returns (es: seq<Event>)
    requires c.rw == Write && c.size > 0 && |a| == |b| == c.size && b != Zeros(c.size)
    ensures AllFromPlugin(c, es)
    ensures var w := WriteRun(c, Writing(Fresh(c), None, false, None), es);
            w.last == Some(b) && w.started == Some(Zeros(c.size)) && !w.sdo.writePending && !LastWriterWins(w)
  {
    assert a[..c.size] == a && b[..c.size] == b;
    var w0 := Writing(Fresh(c), None, false, None);
    var w1 := WriteOn(c, w0, Event(false, Set(a, c.size)));
    var w2 := WriteOn(c, w1, Event(false, Request));
    var w3 := WriteOn(c, w2, Event(false, Set(b, c.size)));
    var w4 := WriteOn(c, w3, Event(false, Request));
    assert w4.sdo.busy && w4.sdo.writePending && w4.sdo.busyCounter == 0;
    var asyn := [Event(false, Set(a, c.size)), Event(false, Request),
                 Event(false, Set(b, c.size)), Event(false, Request)];
    assert WriteRun(c, w0, asyn) == w4 by {
      assert asyn[1..] == [Event(false, Request), Event(false, Set(b, c.size)), Event(false, Request)];
      assert asyn[1..][1..] == [Event(false, Set(b, c.size)), Event(false, Request)];
      assert asyn[1..][1..][1..] == [Event(false, Request)];
      assert WriteRun(c, w3, [Event(false, Request)]) == WriteRun(c, w4, []);
      assert WriteRun(c, w2, asyn[1..][1..]) == WriteRun(c, w3, [Event(false, Request)]);
      assert WriteRun(c, w1, asyn[1..]) == WriteRun(c, w2, asyn[1..][1..]);
    }
    WaitingOnlyCounts(c, w4, REPLY_TIMEOUT);
    var w5 := w4.(sdo := w4.sdo.(busyCounter := REPLY_TIMEOUT));
    var last := [Event(true, Cycle)];
    WriteRunConcat(c, w4, Waiting(REPLY_TIMEOUT), last);
    WriteRunConcat(c, w0, asyn, Waiting(REPLY_TIMEOUT) + last);
    es := asyn + (Waiting(REPLY_TIMEOUT) + last);
    var w6 := WriteOn(c, w5, last[0]);
    assert WriteRun(c, w5, last) == WriteRun(c, w6, []) == w6;
    var h := ExecuteHead(c, w5.sdo, true);
    assert ExecutePending(c, h.sdo, h.lock).sdo.data == Zeros(c.size);
  }

  // ---- when a write starts ----------------------------------------------------------------------

  /** The call starts a write transfer. */
  predicate StartsWrite(c: Config, s: SdoState, e: Event)
    requires Shaped(c, s) && Callable(c, e.call)
  {
    c.rw == Write && !e.call.Frame? && After(c, s, e).sent != []
  }

  /** A call to write has been refused, and no write has started since. */
  predicate Owed(c: Config, s: SdoState, owed: bool, es: seq<Event>)
    requires Shaped(c, s) && AllCallable(c, es)
    decreases |es|
  {
    if es == [] then owed
    else Owed(c, After(c, s, es[0]).sdo, !StartsWrite(c, s, es[0]) && (owed || es[0].call.Request?), es[1..])
  }

  function WritesStarted(c: Config, s: SdoState, es: seq<Event>): nat
    requires Shaped(c, s) && AllCallable(c, es)
    decreases |es|
  {
    if es == [] then 0
    else (if StartsWrite(c, s, es[0]) then 1 else 0) + WritesStarted(c, After(c, s, es[0]).sdo, es[1..])
  }

  function WriteCalls(es: seq<Event>): nat {
    if es == [] then 0 else (if es[0].call.Request? then 1 else 0) + WriteCalls(es[1..])
  }

  /** A write SDO as every run leaves it. */
  predicate WriterRests(c: Config, s: SdoState) {
    c.rw == Write && Sound(c, s) && s.readState == ReadIdle
  }

  lemma WriteStartStep(c: Config, s: SdoState, e: Event)
    requires WriterRests(c, s) && Callable(c, e.call)
    ensures WriterRests(c, After(c, s, e).sdo)
    ensures StartsWrite(c, s, e) <==>
              && (e.call.Request? || (e.call.Cycle? && s.writePending))
              && if s.busy then e.call.Cycle? && TimesOut(s) else !e.flag
    ensures After(c, s, e).sdo.writePending == (!StartsWrite(c, s, e) && (s.writePending || e.call.Request?))
  {
    hide SegmentFrame;
    CallAndLock(c, s, e.flag || s.busy, e.call);
    if e.call.Cycle? {
      var h := ExecuteHead(c, s, e.flag || s.busy);
      var p := ExecutePending(c, h.sdo, h.lock);
      assert After(c, s, e) == Outcome(p.sdo, p.lock, p.sent + []);
    }
  }

  lemma {:induction false} OwedIsPending(c: Config, s: SdoState, es: seq<Event>)
    requires WriterRests(c, s) && AllCallable(c, es)
    ensures WriterRests(c, Run(c, s, es))
    ensures Run(c, s, es).writePending == Owed(c, s, s.writePending, es)
    ensures WritesStarted(c, s, es) + (if Owed(c, s, s.writePending, es) then 1 else 0)
            <= WriteCalls(es) + (if s.writePending then 1 else 0)
    decreases |es|
  {
    hide After, StartsWrite, AtRest;
    if es != [] {
      WriteStartStep(c, s, es[0]);
      OwedIsPending(c, After(c, s, es[0]).sdo, es[1..]);
    }
  }

  /** A new SDO starts a write in exactly these calls: a call to write, or an execute with a refused
      call to write behind it that no write has followed, if the lock is free or freed by
      this very execute. So no more writes are started than called for. */
  lemma WriteStartsAreExact(c: Config, es: seq<Event>, e: Event)
    requires c.rw == Write && AllCallable(c, es) && Callable(c, e.call)
    ensures var u := Run(c, Fresh(c), es);
            StartsWrite(c, u, e) <==>
              && (e.call.Request? || (e.call.Cycle? && Owed(c, Fresh(c), false, es)))
              && if u.busy then e.call.Cycle? && TimesOut(u) else !e.flag
    ensures WritesStarted(c, Fresh(c), es) <= WriteCalls(es)
  {
    hide After, StartsWrite;
    OwedIsPending(c, Fresh(c), es);
    WriteStartStep(c, Run(c, Fresh(c), es), e);
  }

  // ---- read sampling ---------------------------------------------------------------------------

  /** The call sends a read request. */
  predicate Samples(c: Config, s: SdoState, e: Event)
    requires Shaped(c, s) && Callable(c, e.call)
  {
    e.call.Cycle? && After(c, s, e).sent != []
  }

  predicate NoSampling(c: Config, s: SdoState, es: seq<Event>)
    requires Shaped(c, s) && AllCallable(c, es)
    decreases |es|
  {
    es == [] || (!Samples(c, s, es[0]) && NoSampling(c, After(c, s, es[0]).sdo, es[1..]))
  }

  /** The sampling counter stays within one cycle of the period. */
  predicate CounterInRange(c: Config, s: SdoState) {
    s.exeCounter * c.exeSampleTimeMs < c.readSampleTimeMs + c.exeSampleTimeMs
  }

  lemma SamplingStep(c: Config, s: SdoState, e: Event)
    requires c.rw == Read && Sound(c, s) && !s.writePending && FromPlugin(c, e.call)
    ensures var t := After(c, s, e).sdo; Sound(c, t) && !t.writePending
    ensures CounterInRange(c, s) ==> CounterInRange(c, After(c, s, e).sdo)
    ensures Samples(c, s, e) ==> After(c, s, e).sdo.exeCounter == 0
    ensures Samples(c, s, e) ==> s.exeCounter >= CeilDiv(c.readSampleTimeMs, c.exeSampleTimeMs)
                                 || (TimesOut(s) && c.readSampleTimeMs == 0)
    ensures After(c, s, e).sdo.exeCounter <= s.exeCounter + (if e.call.Cycle? then 1 else 0)
  {
    CallAndLock(c, s, e.flag || s.busy, e.call);
    if e.call.Cycle? {
      var h := ExecuteHead(c, s, e.flag || s.busy);
      assert ExecutePending(c, h.sdo, h.lock) == Outcome(h.sdo, h.lock, []);
      CeilDivIsThreshold(c.readSampleTimeMs, c.exeSampleTimeMs, h.sdo.exeCounter);
      assert (h.sdo.exeCounter + 1) * c.exeSampleTimeMs == h.sdo.exeCounter * c.exeSampleTimeMs + c.exeSampleTimeMs;
    }
  }

  lemma {:induction false} SamplingRun(c: Config, s: SdoState, es: seq<Event>)
    requires c.rw == Read && Sound(c, s) && !s.writePending && AllFromPlugin(c, es)
    ensures var t := Run(c, s, es); Sound(c, t) && !t.writePending
    ensures CounterInRange(c, s) ==> CounterInRange(c, Run(c, s, es))
    ensures NoSampling(c, s, es) ==> Run(c, s, es).exeCounter <= s.exeCounter + Cycles(es)
    decreases |es|
  {
    if es != [] {
      SamplingStep(c, s, es[0]);
      SamplingRun(c, After(c, s, es[0]).sdo, es[1..]);
    }
  }

  /** Between two read requests of one SDO lie at least ceil(R/E) executes that send none, so
      the second request comes at least ceil(R/E) + 1 executes after the first. */
  lemma RequestsAreSpaced(c: Config, s: SdoState, first: Event, es: seq<Event>, second: Event)
    requires c.rw == Read && Sound(c, s) && !s.writePending
    requires FromPlugin(c, first.call) && AllFromPlugin(c, es) && FromPlugin(c, second.call)
    requires Samples(c, s, first)
    requires var t := After(c, s, first).sdo;
             NoSampling(c, t, es) && Samples(c, Run(c, t, es), second)
    ensures Cycles(es + [second]) >= CeilDiv(c.readSampleTimeMs, c.exeSampleTimeMs) + 1
  {
    hide Step;
    SamplingStep(c, s, first);
    var t := After(c, s, first).sdo;
    SamplingRun(c, t, es);
    SamplingStep(c, Run(c, t, es), second);
    CyclesOfConcat(es, second);
  }

  lemma {:induction false} CyclesOfConcat(es: seq<Event>, e: Event)
    ensures Cycles(es + [e]) == Cycles(es) + (if e.call.Cycle? then 1 else 0)
  {
    if es != [] {
      assert (es + [e])[1..] == es[1..] + [e];
      CyclesOfConcat(es[1..], e);
    } else {
      assert (es + [e])[1..] == [];
    }
  }

  // ---- when the next request comes ---------------------------------------------------------------

  /** Executes until the period is covered. */
  function SamplePeriod(c: Config): nat {
    CeilDiv(c.readSampleTimeMs, c.exeSampleTimeMs)
  }

  /** A read SDO as the plugin leaves it, with its counter within the period. */
  predicate SamplingSound(c: Config, s: SdoState) {
    c.rw == Read && Sound(c, s) && !s.writePending && s.exeCounter <= SamplePeriod(c)
  }

  /** Where an execute finds the counter. */
  function CounterAt(s: SdoState, call: Call): nat {
    if call.Cycle? && TimesOut(s) then 0 else s.exeCounter
  }

  lemma CycleSamples(c: Config, s: SdoState, flag: bool)
    requires SamplingSound(c, s)
    ensures var r := Execute(c, s, flag || s.busy);
            var start := CounterAt(s, Cycle);
            var asks := start == SamplePeriod(c) && (s.busy ==> TimesOut(s)) && !(flag && !s.busy);
            && r.sent == (if asks then [ReadReq(c)] else [])
            && r.sdo.exeCounter == (if asks then 0 else Min(start + 1, SamplePeriod(c)))
            && !r.sdo.writePending
            && r.sdo.busy == (asks || (s.busy && !TimesOut(s)))
  {
    hide ReadReq, SamplePeriod, Sound, WriteValue;
    SamplingIsInRange(c, s);
    var h := ExecuteHead(c, s, flag || s.busy);
    assert ExecutePending(c, h.sdo, h.lock) == Outcome(h.sdo, h.lock, []);
    DueAtPeriod(c, h.sdo.exeCounter);
  }

  lemma DueAtPeriod(c: Config, k: nat)
    ensures k * c.exeSampleTimeMs >= c.readSampleTimeMs <==> k >= SamplePeriod(c)
  {
    CeilDivIsThreshold(c.readSampleTimeMs, c.exeSampleTimeMs, k);
  }

  lemma OtherCallsDoNotSample(c: Config, s: SdoState, e: Event)
    requires SamplingSound(c, s) && FromPlugin(c, e.call) && !e.call.Cycle?
    ensures var r := After(c, s, e);
            r.sdo.exeCounter == s.exeCounter && !r.sdo.writePending && (r.sdo.busy ==> s.busy)
  {
    hide Collect, SamplePeriod;
    if e.call.Frame? {
      CollectKeepsSampling(c, s, e.call.f);
    }
  }

  lemma SamplingStepExact(c: Config, s: SdoState, e: Event)
    requires SamplingSound(c, s) && FromPlugin(c, e.call)
    ensures SamplingSound(c, After(c, s, e).sdo)
    ensures var start := CounterAt(s, e.call);
            && (Samples(c, s, e) <==>
                  e.call.Cycle? && start == SamplePeriod(c) && (s.busy ==> TimesOut(s)) && !(e.flag && !s.busy))
            && After(c, s, e).sdo.exeCounter ==
               (if Samples(c, s, e) then 0 else if e.call.Cycle? then Min(start + 1, SamplePeriod(c)) else start)
            && (After(c, s, e).sdo.busy ==> s.busy || Samples(c, s, e))
            && (e.call.Cycle? && TimesOut(s) && !Samples(c, s, e) ==> !After(c, s, e).sdo.busy)
            && (e.call.Cycle? ==> After(c, s, e).sent == (if Samples(c, s, e) then [ReadReq(c)] else []))
  {
    hide Execute, Receive, SamplePeriod, ReadReq;
    CallAndLock(c, s, e.flag || s.busy, e.call);
    if e.call.Cycle? {
      CycleSamples(c, s, e.flag);
    } else {
      OtherCallsDoNotSample(c, s, e);
    }
  }

  lemma CollectKeepsSampling(c: Config, s: SdoState, f: CanFrame)
    requires Shaped(c, s)
    ensures Collect(c, s, f).exeCounter == s.exeCounter && Collect(c, s, f).writePending == s.writePending
  {
  }

  /** Every execute counts, whether the SDO is busy or not, up to the period. */
  lemma {:induction false} EveryExecuteCounts(c: Config, s: SdoState, es: seq<Event>)
    requires SamplingSound(c, s) && AllFromPlugin(c, es) && NoSampling(c, s, es) && !TimedOut(c, s, es)
    ensures SamplingSound(c, Run(c, s, es))
    ensures Run(c, s, es).exeCounter == Min(s.exeCounter + Cycles(es), SamplePeriod(c))
    decreases |es|
  {
    hide After, SamplePeriod, SamplingSound;
    SamplingIsInRange(c, s);
    if es != [] {
      SamplingStepExact(c, s, es[0]);
      EveryExecuteCounts(c, After(c, s, es[0]).sdo, es[1..]);
    }
  }

  lemma SamplingIsInRange(c: Config, s: SdoState)
    requires SamplingSound(c, s)
    ensures Shaped(c, s) && s.exeCounter <= SamplePeriod(c)
  {
  }

  /** After a read request, with no other one and no timeout since, the next call sends one iff it is
      an execute that comes after ceil(R/E) others, or more, and finds the lock free. */
  lemma NextRequestIsExact(c: Config, s: SdoState, first: Event, es: seq<Event>, e: Event)
    requires SamplingSound(c, s) && FromPlugin(c, first.call) && AllFromPlugin(c, es) && FromPlugin(c, e.call)
    requires Samples(c, s, first)
    requires var t := After(c, s, first).sdo;
             NoSampling(c, t, es) && !TimedOut(c, t, es) && !TimesOut(Run(c, t, es))
    ensures var u := Run(c, After(c, s, first).sdo, es);
            Samples(c, u, e) <==> e.call.Cycle? && !e.flag && !u.busy
                                  && Cycles(es) >= CeilDiv(c.readSampleTimeMs, c.exeSampleTimeMs)
  {
    hide After;
    SamplingStepExact(c, s, first);
    EveryExecuteCounts(c, After(c, s, first).sdo, es);
    SamplingStepExact(c, Run(c, After(c, s, first).sdo, es), e);
  }

  /** A read SDO that is not busy and sends no request has no timeout. */
  lemma {:induction false} IdleWithoutRequest(c: Config, s: SdoState, es: seq<Event>)
    requires SamplingSound(c, s) && !s.busy && AllFromPlugin(c, es) && NoSampling(c, s, es)
    ensures !TimedOut(c, s, es) && !Run(c, s, es).busy
    decreases |es|
  {
    hide After, SamplingSound;
    SamplingIsInRange(c, s);
    if es != [] {
      SamplingStepExact(c, s, es[0]);
      IdleWithoutRequest(c, After(c, s, es[0]).sdo, es[1..]);
    }
  }

  /** The first request of a new SDO. */
  lemma FirstRequestIsExact(c: Config, es: seq<Event>, e: Event)
    requires c.rw == Read && AllFromPlugin(c, es) && FromPlugin(c, e.call) && NoSampling(c, Fresh(c), es)
    ensures Samples(c, Run(c, Fresh(c), es), e) <==>
              e.call.Cycle? && !e.flag && Cycles(es) >= CeilDiv(c.readSampleTimeMs, c.exeSampleTimeMs)
  {
    hide After;
    IdleWithoutRequest(c, Fresh(c), es);
    EveryExecuteCounts(c, Fresh(c), es);
    SamplingStepExact(c, Run(c, Fresh(c), es), e);
  }

  /** A timeout restarts the sampling period: the execute that gives a transfer up sends nothing if
      R > 0, and the next request is sent by the first execute from the ceil(R/E)-th after it on
      that finds the lock free. */
  lemma TimeoutRestartsPeriod(c: Config, s: SdoState, t: Event, es: seq<Event>, e: Event)
    requires SamplingSound(c, s) && t.call.Cycle? && TimesOut(s) && c.readSampleTimeMs > 0
    requires AllFromPlugin(c, es) && FromPlugin(c, e.call) && NoSampling(c, After(c, s, t).sdo, es)
    ensures After(c, s, t).sent == []
    ensures var u := Run(c, After(c, s, t).sdo, es);
            Samples(c, u, e) <==> e.call.Cycle? && !e.flag
                                  && Cycles(es + [e]) >= CeilDiv(c.readSampleTimeMs, c.exeSampleTimeMs)
  {
    hide After;
    SamplingStepExact(c, s, t);
    CeilDivIsThreshold(c.readSampleTimeMs, c.exeSampleTimeMs, 0);
    var a := After(c, s, t).sdo;
    IdleWithoutRequest(c, a, es);
    EveryExecuteCounts(c, a, es);
    var u := Run(c, a, es);
    SamplingStepExact(c, u, e);
    CyclesOfConcat(es, e);
  }

  /** In every reachable state of a read SDO the counter has not run past period plus cycle. */
  lemma SamplingCounterIsBounded(c: Config, es: seq<Event>)
    requires c.rw == Read && AllFromPlugin(c, es)
    ensures CounterInRange(c, Run(c, Fresh(c), es))
  {
    SamplingRun(c, Fresh(c), es);
  }
}
