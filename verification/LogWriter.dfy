/**
  The asynchronous log file. Every thread is a program counter and every step of
  a thread one transition, so a run is any interleaving of them. A pending write
  lock holds off new readers, as Go's RWMutex does.
 */
module LogWriter {
  // Writers copy a line onto a bounded queue under a read lock, a worker moves
  // the queue through a buffer into the file, and Close takes the write lock to
  // close the queue and then waits for the worker. No disk call fails.

  import Collections

  type Bytes = seq<int>

  datatype WriterAt =
    | BeforeRLock | Checking | Sending | Sent | Refused | Returned(ok: bool)

  datatype CloserAt =
    | BeforeOnce | WaitingForOnce | WaitingForLock | Locked | Marked | QueueClosed
    | WaitingForWorker | ClosingFile | Closed

  datatype Thread =
    | Writer(data: Bytes, at: WriterAt)
    | Closer(pc: CloserAt)
  {
    /** Holds the lock for reading. */
    predicate Reading() {
      Writer? && (at.Checking? || at.Sending? || at.Sent? || at.Refused?)
    }

    /** Runs the body of the once. */
    predicate Leading() {
      Closer? && !pc.BeforeOnce? && !pc.WaitingForOnce? && !pc.Closed?
    }

    /** Its line is on the queue or beyond. */
    predicate Accepted() {
      Writer? && (at.Sent? || at == Returned(true))
    }

    predicate Finished() {
      if Writer? then at.Returned? else pc.Closed?
    }
  }

  datatype WorkerAt = Idle | Writing(line: Bytes) | Written | Draining | Stopped

  datatype Once = Fresh | Running(tid: nat) | Done

  datatype Entry = Entry(tid: nat, line: Bytes)

  /** The once, the write side of the lock, and what Close has closed. */
  datatype Gate = Gate(
    once: Once, lockPending: bool, lockHeld: bool, closed: bool, queueClosed: bool, fileClosed: bool)

  /** A line's way to the file; the log is every line ever enqueued, in order. */
  datatype Pipe = Pipe(worker: WorkerAt, queue: seq<Entry>, buffer: Bytes, file: Bytes, log: seq<Entry>)

  datatype State = State(threads: seq<Thread>, gate: Gate, pipe: Pipe, capacity: nat, panicked: bool)

  /** A step of one thread, of the worker (spilling part of its buffer), or of the ticker. */
  datatype Action = Step(tid: nat) | Work(spill: nat) | Tick

  // --- transitions ----------------------------------------------------------

  ghost predicate NobodyReads(s: State) {
    forall i :: 0 <= i < |s.threads| ==> !s.threads[i].Reading()
  }

  ghost predicate Enabled(s: State, a: Action) {
    !s.panicked &&
    match a
    case Step(i) => i < |s.threads| && ThreadEnabled(s, s.threads[i])
    case Work(_) =>
      !s.pipe.worker.Stopped? && (s.pipe.worker.Idle? ==> s.pipe.queue != [] || s.gate.queueClosed)
    case Tick => s.pipe.worker.Idle?
  }

  ghost predicate ThreadEnabled(s: State, t: Thread) {
    match t
    case Writer(_, BeforeRLock) => !s.gate.lockPending && !s.gate.lockHeld
    case Writer(_, Sending) => s.gate.queueClosed || |s.pipe.queue| < s.capacity
    case Writer(_, Returned(_)) => false
    case Writer(_, _) => true
    case Closer(WaitingForOnce) => s.gate.once.Done?
    case Closer(WaitingForLock) => NobodyReads(s)
    case Closer(WaitingForWorker) => s.pipe.worker.Stopped?
    case Closer(Closed) => false
    case Closer(_) => true
  }

  function WriterNext(at: WriterAt, closed: bool): WriterAt {
    match at
    case BeforeRLock => Checking
    case Checking => if closed then Refused else Sending
    case Sending => Sent
    case Sent => Returned(true)
    case Refused => Returned(false)
    case Returned(ok) => Returned(ok)
  }

  function Enqueued(p: Pipe, e: Entry): Pipe {
    p.(queue := p.queue + [e], log := p.log + [e])
  }

  function CloserNext(pc: CloserAt, once: Once): CloserAt {
    match pc
    case BeforeOnce => if once.Fresh? then WaitingForLock else if once.Done? then Closed else WaitingForOnce
    case WaitingForOnce => Closed
    case WaitingForLock => Locked
    case Locked => Marked
    case Marked => QueueClosed
    case QueueClosed => WaitingForWorker
    case WaitingForWorker => ClosingFile
    case ClosingFile => Closed
    case Closed => Closed
  }

  function GateNext(g: Gate, i: nat, pc: CloserAt): Gate {
    match pc
    case BeforeOnce => if g.once.Fresh? then g.(once := Running(i), lockPending := true) else g
    case WaitingForLock => g.(lockPending := false, lockHeld := true)
    case Locked => g.(closed := true)
    case Marked => g.(queueClosed := true)
    case QueueClosed => g.(lockHeld := false)
    case ClosingFile => g.(fileClosed := true, once := Done)
    case _ => g
  }

  function WriterStep(s: State, i: nat): State
    requires i < |s.threads| && s.threads[i].Writer?
  {
    var t := s.threads[i];
    // Sending on a closed channel panics.
    if t.at.Sending? && s.gate.queueClosed then s.(panicked := true)
    else s.(threads := s.threads[i := Writer(t.data, WriterNext(t.at, s.gate.closed))],
            pipe := if t.at.Sending? then Enqueued(s.pipe, Entry(i, t.data)) else s.pipe)
  }

  function CloserStep(s: State, i: nat): State
    requires i < |s.threads| && s.threads[i].Closer?
  {
    var pc := s.threads[i].pc;
    // Closing a closed channel panics.
    if pc.Marked? && s.gate.queueClosed then s.(panicked := true)
    else s.(threads := s.threads[i := Closer(CloserNext(pc, s.gate.once))], gate := GateNext(s.gate, i, pc))
  }

  function Flushed(p: Pipe, fileClosed: bool): Pipe {
    if fileClosed then p else p.(file := p.file + p.buffer, buffer := [])
  }

  function WorkerStep(p: Pipe, g: Gate, spill: nat): Pipe {
    match p.worker
    case Idle =>
      if p.queue != [] then p.(queue := p.queue[1..], worker := Writing(p.queue[0].line))
      else if g.queueClosed then p.(worker := Draining)
      else p
    case Writing(line) =>
      // The buffer passes whatever does not fit straight on to the file.
      var held := p.buffer + line;
      var n := if spill <= |held| then spill else |held|;
      p.(buffer := held[n..], file := p.file + held[..n], worker := Written)
    case Written =>
      (if |p.queue| == 0 then Flushed(p, g.fileClosed) else p).(worker := Idle)
    case Draining => Flushed(p, g.fileClosed).(worker := Stopped)
    case Stopped => p
  }

  ghost function Next(s: State, a: Action): State
    requires Enabled(s, a)
  {
    match a
    case Step(i) => if s.threads[i].Writer? then WriterStep(s, i) else CloserStep(s, i)
    case Work(spill) => s.(pipe := WorkerStep(s.pipe, s.gate, spill))
    case Tick => s.(pipe := Flushed(s.pipe, s.gate.fileClosed))
  }

  // --- what every reachable state keeps -------------------------------------

  ghost predicate Led(s: State) {
    var once := s.gate.once;
    && (once.Running? ==> once.tid < |s.threads| && s.threads[once.tid].Leading())
    && (forall i :: 0 <= i < |s.threads| && s.threads[i].Leading() ==> once == Running(i))
    && (forall i :: 0 <= i < |s.threads| && s.threads[i].Closer? ==>
          && (s.threads[i].pc.WaitingForOnce? ==> !once.Fresh?)
          && (s.threads[i].pc.Closed? ==> once.Done?))
  }

  /** Where the thread running the once is, if there is one. */
  ghost function Leader(s: State): CloserAt
    requires Led(s)
  {
    match s.gate.once
    case Fresh => BeforeOnce
    case Running(i) => s.threads[i].pc
    case Done => Closed
  }

  /** What is locked and closed follows from how far the one real Close has come. */
  ghost predicate FlagsFollow(at: CloserAt, g: Gate, worker: WorkerAt) {
    && (g.lockPending <==> at.WaitingForLock?)
    && (g.lockHeld <==> at.Locked? || at.Marked? || at.QueueClosed?)
    && (g.queueClosed <==> at.QueueClosed? || at.WaitingForWorker? || at.ClosingFile? || at.Closed?)
    && (g.closed <==> g.queueClosed || at.Marked?)
    && (g.fileClosed <==> at.Closed?)
    && (at.ClosingFile? || at.Closed? ==> worker.Stopped?)
  }

  ghost predicate Excluded(s: State) {
    && (s.gate.lockHeld ==> NobodyReads(s))
    && (s.gate.closed ==> forall i :: 0 <= i < |s.threads| && s.threads[i].Writer? ==>
          !s.threads[i].at.Sending? && !s.threads[i].at.Sent?)
  }

  ghost predicate WorkerDrains(p: Pipe, g: Gate) {
    && (p.worker.Draining? || p.worker.Stopped? ==> g.queueClosed && p.queue == [])
    && (p.worker.Stopped? ==> p.buffer == [])
  }

  ghost predicate Control(s: State) {
    && !s.panicked && Led(s) && FlagsFollow(Leader(s), s.gate, s.pipe.worker)
    && Excluded(s) && WorkerDrains(s.pipe, s.gate)
  }

  /** The bytes of a run of lines, one after another. */
  ghost function Joined(lines: seq<Entry>): Bytes {
    if lines == [] then [] else Joined(lines[..|lines| - 1]) + lines[|lines| - 1].line
  }

  ghost function InHand(w: WorkerAt): Bytes {
    if w.Writing? then w.line else []
  }

  /** Nothing is lost, duplicated or reordered on the way to the file. */
  ghost predicate Conserved(p: Pipe, initial: Bytes) {
    p.file + (p.buffer + (InHand(p.worker) + Joined(p.queue))) == initial + Joined(p.log)
  }

  /** Each accepted write is logged once, with its own line, and nothing else is. */
  ghost predicate LogFaithful(threads: seq<Thread>, log: seq<Entry>) {
    && (forall k :: 0 <= k < |log| ==>
          && log[k].tid < |threads| && threads[log[k].tid].Accepted()
          && threads[log[k].tid].data == log[k].line)
    && (forall j, k :: 0 <= j < k < |log| ==> log[j].tid != log[k].tid)
    && (forall i :: 0 <= i < |threads| && threads[i].Accepted() ==> exists k :: 0 <= k < |log| && log[k].tid == i)
  }

  ghost predicate Inv(s: State, initial: Bytes) {
    Control(s) && Conserved(s.pipe, initial) && LogFaithful(s.threads, s.pipe.log)
  }

  ghost predicate Initial(s: State, initial: Bytes) {
    && (forall i :: 0 <= i < |s.threads| ==>
          if s.threads[i].Writer? then s.threads[i].at.BeforeRLock? else s.threads[i].pc.BeforeOnce?)
    && s.gate == Gate(Fresh, false, false, false, false, false)
    && s.pipe == Pipe(Idle, [], [], initial, [])
    && s.capacity > 0 && !s.panicked
  }

  lemma InitialInv(s: State, initial: Bytes)
    requires Initial(s, initial)
    ensures Inv(s, initial)
  {
    assert LogFaithful(s.threads, s.pipe.log);
    assert Conserved(s.pipe, initial);
    hide LogFaithful, Conserved;
  }

  // --- control --------------------------------------------------------------

  lemma WriterStepControl(s: State, i: nat)
    requires Control(s) && Enabled(s, Step(i)) && s.threads[i].Writer?
    ensures Control(WriterStep(s, i))
  {
    var s' := WriterStep(s, i);
    assert forall j :: 0 <= j < |s.threads| && j != i ==> s'.threads[j] == s.threads[j];
  }

  lemma CloserStepControl(s: State, i: nat)
    requires Control(s) && Enabled(s, Step(i)) && s.threads[i].Closer?
    ensures Control(CloserStep(s, i))
  {
    var s' := CloserStep(s, i);
    assert forall j :: 0 <= j < |s.threads| && j != i ==> s'.threads[j] == s.threads[j];
  }

  lemma WorkerStepControl(s: State, spill: nat)
    requires Control(s) && Enabled(s, Work(spill))
    ensures Control(Next(s, Work(spill)))
  {}

  lemma TickControl(s: State)
    requires Control(s) && Enabled(s, Tick)
    ensures Control(Next(s, Tick))
  {}

  // --- conservation ---------------------------------------------------------

  lemma {:induction false} JoinedSplits(s: seq<Entry>, t: seq<Entry>)
    ensures Joined(s + t) == Joined(s) + Joined(t)
  {
    if t == [] {
      assert s + t == s;
    } else {
      assert (s + t)[..|s + t| - 1] == s + t[..|t| - 1];
      JoinedSplits(s, t[..|t| - 1]);
    }
  }

  lemma JoinedOne(e: Entry)
    ensures Joined([e]) == e.line
  {
    assert [e][..0] == [];
    assert [] + e.line == e.line;
  }

  lemma SendKeeps(file: Bytes, buffer: Bytes, hand: Bytes, queued: Bytes, sent: Bytes, x: Bytes)
    requires file + (buffer + (hand + queued)) == sent
    ensures file + (buffer + (hand + (queued + x))) == sent + x
  {
    Collections.SameSeq(file + (buffer + (hand + (queued + x))), (file + (buffer + (hand + queued))) + x);
  }

  lemma WriteKeeps(file: Bytes, buffer: Bytes, x: Bytes, queued: Bytes, n: nat)
    requires n <= |buffer + x|
    ensures (file + (buffer + x)[..n]) + ((buffer + x)[n..] + ([] + queued)) == file + (buffer + (x + queued))
  {
    Collections.SameSeq((file + (buffer + x)[..n]) + ((buffer + x)[n..] + ([] + queued)),
                        file + (buffer + (x + queued)));
  }

  lemma FlushKeeps(file: Bytes, buffer: Bytes, rest: Bytes)
    ensures (file + buffer) + ([] + rest) == file + (buffer + rest)
  {
    Collections.SameSeq((file + buffer) + ([] + rest), file + (buffer + rest));
  }

  lemma JoinedHead(s: seq<Entry>)
    requires s != []
    ensures Joined(s) == s[0].line + Joined(s[1..]) == [] + Joined(s)
  {
    assert s == [s[0]] + s[1..];
    JoinedSplits([s[0]], s[1..]);
    JoinedOne(s[0]);
    Collections.SameSeq([] + Joined(s), Joined(s));
  }

  /** A line put on the queue is in the pipe once, after everything before it. */
  lemma EnqueueConserves(p: Pipe, e: Entry, initial: Bytes)
    requires Conserved(p, initial)
    ensures Conserved(Enqueued(p, e), initial)
  {
    JoinedSplits(p.queue, [e]);
    JoinedSplits(p.log, [e]);
    JoinedOne(e);
    hide Joined;
    SendKeeps(p.file, p.buffer, InHand(p.worker), Joined(p.queue), initial + Joined(p.log), e.line);
    Collections.SameSeq((initial + Joined(p.log)) + e.line, initial + (Joined(p.log) + e.line));
  }

  lemma FlushConserves(p: Pipe, g: Gate, initial: Bytes)
    requires Conserved(p, initial)
    ensures Conserved(Flushed(p, g.fileClosed), initial)
  {
    hide Joined;
    var rest := InHand(p.worker) + Joined(p.queue);
    FlushKeeps(p.file, p.buffer, rest);
    Collections.SameSeq([] + rest, rest);
  }

  /** Whatever the worker does, and however the buffer spills, the bytes stay in order. */
  lemma WorkerStepConserves(p: Pipe, g: Gate, spill: nat, initial: Bytes)
    requires Conserved(p, initial)
    ensures Conserved(WorkerStep(p, g, spill), initial)
  {
    match p.worker
    case Idle =>
      if p.queue != [] { JoinedHead(p.queue); }
    case Writing(line) =>
      hide Joined;
      var held := p.buffer + line;
      WriteKeeps(p.file, p.buffer, line, Joined(p.queue), if spill <= |held| then spill else |held|);
    case Written => FlushConserves(p, g, initial);
    case Draining => FlushConserves(p, g, initial);
    case Stopped =>
  }

  /** The log stays faithful when the same threads have had their lines accepted. */
  lemma SameLog(threads: seq<Thread>, log: seq<Entry>, i: nat, t: Thread)
    requires LogFaithful(threads, log) && i < |threads|
    requires threads[i].Accepted() == t.Accepted() && (t.Accepted() ==> threads[i].data == t.data)
    ensures LogFaithful(threads[i := t], log)
  {}

  /** The log stays faithful when one more thread's line is accepted and logged. */
  lemma LongerLog(threads: seq<Thread>, log: seq<Entry>, i: nat, t: Thread)
    requires LogFaithful(threads, log) && i < |threads|
    requires !threads[i].Accepted() && t.Accepted()
    ensures LogFaithful(threads[i := t], log + [Entry(i, t.data)])
  {
    var log', threads' := log + [Entry(i, t.data)], threads[i := t];
    assert log'[|log|].tid == i;
    forall j | 0 <= j < |threads| && threads'[j].Accepted() && j != i
      ensures exists k :: 0 <= k < |log'| && log'[k].tid == j
    {
      var k :| 0 <= k < |log| && log[k].tid == j;
      assert log'[k].tid == j;
    }
  }

  lemma ThreadStepInv(s: State, i: nat, initial: Bytes)
    requires Inv(s, initial) && Enabled(s, Step(i))
    ensures Inv(Next(s, Step(i)), initial)
  {
    var t, t' := s.threads[i], Next(s, Step(i)).threads[i];
    if t.Writer? {
      WriterStepControl(s, i);
      hide Control, Conserved, LogFaithful;
      if t.at.Sending? {
        if !s.gate.queueClosed {
          EnqueueConserves(s.pipe, Entry(i, t.data), initial);
          LongerLog(s.threads, s.pipe.log, i, t');
        }
      } else {
        SameLog(s.threads, s.pipe.log, i, t');
      }
    } else {
      CloserStepControl(s, i);
      hide Control, Conserved, LogFaithful;
      SameLog(s.threads, s.pipe.log, i, t');
    }
  }

  /** Every step keeps the whole invariant. */
  lemma StepInv(s: State, a: Action, initial: Bytes)
    requires Inv(s, initial) && Enabled(s, a)
    ensures Inv(Next(s, a), initial)
  {
    hide Control, Conserved, LogFaithful;
    match a
    case Step(i) => ThreadStepInv(s, i, initial);
    case Work(spill) =>
      WorkerStepControl(s, spill);
      WorkerStepConserves(s.pipe, s.gate, spill, initial);
    case Tick =>
      TickControl(s);
      FlushConserves(s.pipe, s.gate, initial);
  }

  // --- whole runs -----------------------------------------------------------

  /** A run from some start: the states it goes through and the actions between them. */
  ghost predicate StepAt(states: seq<State>, actions: seq<Action>, k: nat)
    requires k < |actions| == |states| - 1
  {
    Enabled(states[k], actions[k]) && states[k + 1] == Next(states[k], actions[k])
  }

  ghost predicate IsRun(states: seq<State>, actions: seq<Action>) {
    |states| == |actions| + 1 && forall k: nat :: k < |actions| ==> StepAt(states, actions, k)
  }

  lemma {:induction false} RunInv(states: seq<State>, actions: seq<Action>, initial: Bytes, k: nat)
    requires IsRun(states, actions) && Initial(states[0], initial) && k < |states|
    ensures Inv(states[k], initial)
  {
    if k == 0 {
      InitialInv(states[0], initial);
    } else {
      RunInv(states, actions, initial, k - 1);
      assert StepAt(states, actions, k - 1);
      StepInv(states[k - 1], actions[k - 1], initial);
    }
  }

  /** No interleaving sends on the closed queue or closes it twice. */
  lemma NeverPanics(states: seq<State>, actions: seq<Action>, initial: Bytes, k: nat)
    requires IsRun(states, actions) && Initial(states[0], initial) && k < |states|
    ensures !states[k].panicked
  {
    RunInv(states, actions, initial, k);
  }

  /** In every reachable state, whoever is about to send or to close the queue finds it open. */
  lemma QueueIsOpenWhereUsed(states: seq<State>, actions: seq<Action>, initial: Bytes, k: nat, i: nat)
    requires IsRun(states, actions) && Initial(states[0], initial) && k < |states| && i < |states[k].threads|
    requires states[k].threads[i] == Closer(Marked) ||
      (states[k].threads[i].Writer? && states[k].threads[i].at == Sending)
    ensures !states[k].gate.queueClosed
  {
    RunInv(states, actions, initial, k);
    assert states[k].threads[i] == Closer(Marked) ==> states[k].threads[i].Leading();
    hide Conserved, LogFaithful;
  }

  /** And once the file is closed nothing more is written to it. */
  lemma {:induction false} NothingWrittenAfterClosing(
      states: seq<State>, actions: seq<Action>, initial: Bytes, j: nat, k: nat)
    requires IsRun(states, actions) && Initial(states[0], initial) && j <= k < |states|
    requires states[j].gate.fileClosed
    ensures states[k].gate.fileClosed && states[k].pipe.file == states[j].pipe.file
  {
    if j < k {
      NothingWrittenAfterClosing(states, actions, initial, j, k - 1);
      RunInv(states, actions, initial, k - 1);
      assert StepAt(states, actions, k - 1);
      hide Conserved, LogFaithful, Excluded, NobodyReads, IsRun, Initial;
    }
  }

  /** The ticker's flush leaves everything taken from the queue in the file. */
  lemma TickFlushes(states: seq<State>, actions: seq<Action>, initial: Bytes, k: nat)
    requires IsRun(states, actions) && Initial(states[0], initial) && k < |actions| && actions[k] == Tick
    ensures var p, p' := states[k].pipe, states[k + 1].pipe;
      p'.buffer == [] && p'.file == p.file + p.buffer && p'.queue == p.queue && p'.worker == p.worker
  {
    RunInv(states, actions, initial, k);
    assert StepAt(states, actions, k);
    hide Conserved, LogFaithful, Excluded;
  }

  ghost predicate SomeCloseReturned(s: State) {
    exists i :: 0 <= i < |s.threads| && s.threads[i] == Closer(Closed)
  }

  /**
    Once a Close has returned, the file is what it was at the start followed by
    the log; the log holds each write that returned success, once, with its own
    line, and nothing else; and no write is left in between.
   */
  lemma CloseReturnsWithEverythingWritten(states: seq<State>, actions: seq<Action>, initial: Bytes, k: nat)
    requires IsRun(states, actions) && Initial(states[0], initial) && k < |states|
    requires SomeCloseReturned(states[k])
    ensures var threads, p := states[k].threads, states[k].pipe;
      && p.file == initial + Joined(p.log)
      && (forall j :: 0 <= j < |p.log| ==>
            p.log[j].tid < |threads| && threads[p.log[j].tid] == Writer(p.log[j].line, Returned(true)))
      && (forall i, j :: 0 <= i < j < |p.log| ==> p.log[i].tid != p.log[j].tid)
      && (forall i :: 0 <= i < |threads| && threads[i].Writer? && threads[i].at == Returned(true) ==>
            exists j :: 0 <= j < |p.log| && p.log[j].tid == i)
  {
    RunInv(states, actions, initial, k);
    var s := states[k];
    assert s.gate.once.Done? && s.pipe.worker.Stopped? && s.pipe.buffer == [] && s.pipe.queue == [];
    assert [] + ([] + Joined([])) == [];
    assert s.pipe.file + [] == s.pipe.file;
    forall j | 0 <= j < |s.pipe.log|
      ensures s.pipe.log[j].tid < |s.threads|
           && s.threads[s.pipe.log[j].tid] == Writer(s.pipe.log[j].line, Returned(true))
    {
      var t := s.threads[s.pipe.log[j].tid];
      assert t.Accepted() && !t.at.Sent?;
    }
  }

  // --- what a write answers -------------------------------------------------

  /** Some Close has marked the writer closed, and may since have gone on. */
  ghost predicate SomeCloseMarked(s: State) {
    exists i :: 0 <= i < |s.threads| && s.threads[i].Closer? && s.threads[i].pc != BeforeOnce
      && s.threads[i].pc != WaitingForOnce && s.threads[i].pc != WaitingForLock && s.threads[i].pc != Locked
  }

  predicate TurnedAway(t: Thread) {
    t.Writer? && (t.at == Refused || t.at == Returned(false))
  }

  ghost predicate RefusedRightly(s: State) {
    && (forall i :: 0 <= i < |s.threads| && TurnedAway(s.threads[i]) ==> s.gate.closed)
    && (s.gate.once.Done? ==> SomeCloseReturned(s))
  }

  lemma StepRefusedRightly(s: State, a: Action)
    requires Control(s) && RefusedRightly(s) && Enabled(s, a)
    ensures RefusedRightly(Next(s, a))
  {
    var s' := Next(s, a);
    if a.Step? {
      assert forall j :: 0 <= j < |s.threads| && j != a.tid ==> s'.threads[j] == s.threads[j];
      if s.gate.once.Done? {
        var i :| 0 <= i < |s.threads| && s.threads[i] == Closer(Closed);
        assert a.tid != i && s'.threads[i] == Closer(Closed);
      } else if s'.gate.once.Done? {
        assert s'.threads[a.tid] == Closer(Closed);
      }
    }
  }

  lemma {:induction false} RunRefusedRightly(states: seq<State>, actions: seq<Action>, initial: Bytes, k: nat)
    requires IsRun(states, actions) && Initial(states[0], initial) && k < |states|
    ensures Control(states[k]) && RefusedRightly(states[k])
  {
    RunInv(states, actions, initial, k);
    if k > 0 {
      RunRefusedRightly(states, actions, initial, k - 1);
      assert StepAt(states, actions, k - 1);
      hide Control, RefusedRightly;
      StepRefusedRightly(states[k - 1], actions[k - 1]);
    }
  }

  /** A write is turned away only once some Close has marked the writer closed. */
  lemma {:induction false} RefusedOnlyWhenClosed(
      states: seq<State>, actions: seq<Action>, initial: Bytes, k: nat, i: nat)
    requires IsRun(states, actions) && Initial(states[0], initial) && k < |states|
    requires i < |states[k].threads| && TurnedAway(states[k].threads[i])
    ensures states[k].gate.closed && SomeCloseMarked(states[k])
  {
    RunRefusedRightly(states, actions, initial, k);
    var s := states[k];
    if s.gate.once.Running? {
      assert s.threads[s.gate.once.tid].Closer?;
    }
  }

  /** Where there is no Close, every write that has finished has succeeded, and its line is logged, once. */
  lemma {:induction false} NobodyClosesNobodyIsRefused(
      states: seq<State>, actions: seq<Action>, initial: Bytes, k: nat, i: nat)
    requires IsRun(states, actions) && Initial(states[0], initial) && k < |states|
    requires forall j :: 0 <= j < |states[k].threads| ==> states[k].threads[j].Writer?
    requires i < |states[k].threads| && states[k].threads[i].Finished()
    ensures var log := states[k].pipe.log;
      && states[k].threads[i].at == Returned(true)
      && (exists j :: 0 <= j < |log| && log[j] == Entry(i, states[k].threads[i].data))
      && (forall j, j' :: 0 <= j < j' < |log| ==> log[j].tid != log[j'].tid)
  {
    RunInv(states, actions, initial, k);
    var s := states[k];
    if s.threads[i].at == Returned(false) {
      RefusedOnlyWhenClosed(states, actions, initial, k, i);
    }
    var j :| 0 <= j < |s.pipe.log| && s.pipe.log[j].tid == i;
    assert s.pipe.log[j] == Entry(i, s.threads[i].data);
  }

  /** Under the read lock with the writer open, or past it with success. */
  ghost predicate WillSucceed(s: State, i: nat) {
    i < |s.threads| && s.threads[i].Writer? &&
    match s.threads[i].at
    case Checking => !s.gate.closed
    case Sending => true
    case Sent => true
    case Returned(ok) => ok
    case _ => false
  }

  lemma StepWillSucceed(s: State, a: Action, i: nat)
    requires Control(s) && Enabled(s, a) && WillSucceed(s, i)
    ensures WillSucceed(Next(s, a), i)
  {
    if a.Step? && s.threads[i].at.Checking? { assert s.threads[i].Reading(); }
  }

  /** No Close has the lock, or has had it. */
  predicate NoCloseBegun(s: State) {
    forall j :: 0 <= j < |s.threads| && s.threads[j].Closer? ==>
      s.threads[j].pc == BeforeOnce || s.threads[j].pc == WaitingForOnce || s.threads[j].pc == WaitingForLock
  }

  /** A write that took the read lock before any Close held the lock returns success, if it has returned. */
  lemma {:induction false} LockedInTimeSucceeds(
      states: seq<State>, actions: seq<Action>, initial: Bytes, j: nat, k: nat, i: nat)
    requires IsRun(states, actions) && Initial(states[0], initial) && j <= k < |states|
    requires NoCloseBegun(states[j])
    requires i < |states[j].threads| && states[j].threads[i].Writer? && states[j].threads[i].at == Checking
    ensures WillSucceed(states[k], i)
    decreases k
  {
    if k == j {
      RunRefusedRightly(states, actions, initial, k);
      var s := states[k];
      assert s.gate.once.Running? ==> s.threads[s.gate.once.tid].Closer?;
    } else {
      LockedInTimeSucceeds(states, actions, initial, j, k - 1, i);
      RunInv(states, actions, initial, k - 1);
      assert StepAt(states, actions, k - 1);
      hide Control, WillSucceed, Next, Enabled, Conserved, LogFaithful;
      StepWillSucceed(states[k - 1], actions[k - 1], i);
    }
  }

  /** Nobody takes the read lock while a Close waits for the lock or holds it. */
  lemma WaitingCloseHoldsOffWriters(states: seq<State>, actions: seq<Action>, initial: Bytes, k: nat, i: nat, j: nat)
    requires IsRun(states, actions) && Initial(states[0], initial) && k < |actions|
    requires i < |states[k].threads| && j < |states[k].threads|
    requires states[k].threads[j].Closer? && var pc := states[k].threads[j].pc;
      pc == WaitingForLock || pc == Locked || pc == Marked || pc == QueueClosed
    requires states[k].threads[i].Writer? && states[k].threads[i].at == BeforeRLock
    ensures i < |states[k + 1].threads| && states[k + 1].threads[i] == states[k].threads[i]
  {
    RunInv(states, actions, initial, k);
    assert StepAt(states, actions, k);
    assert states[k].threads[j].Leading();
  }

  /** The queue never holds more than it has room for. */
  lemma {:induction false} QueueIsBounded(states: seq<State>, actions: seq<Action>, initial: Bytes, k: nat)
    requires IsRun(states, actions) && Initial(states[0], initial) && k < |states|
    ensures |states[k].pipe.queue| <= states[0].capacity == states[k].capacity
  {
    if k > 0 {
      QueueIsBounded(states, actions, initial, k - 1);
      RunInv(states, actions, initial, k - 1);
      assert StepAt(states, actions, k - 1);
      hide Conserved, LogFaithful, Excluded, Led, FlagsFollow, NobodyReads, IsRun, Initial;
    }
  }

  // --- what an idle worker has written --------------------------------------

  ghost predicate IdleIsFlushed(p: Pipe) {
    p.worker.Idle? && p.queue == [] ==> p.buffer == []
  }

  lemma StepIdleIsFlushed(s: State, a: Action)
    requires Control(s) && IdleIsFlushed(s.pipe) && Enabled(s, a)
    ensures IdleIsFlushed(Next(s, a).pipe)
  {
    hide NobodyReads, Led, Excluded, GateNext, CloserNext, WriterNext;
  }

  lemma {:induction false} RunIdleIsFlushed(states: seq<State>, actions: seq<Action>, initial: Bytes, k: nat)
    requires IsRun(states, actions) && Initial(states[0], initial) && k < |states|
    ensures IdleIsFlushed(states[k].pipe)
  {
    if k > 0 {
      RunIdleIsFlushed(states, actions, initial, k - 1);
      RunInv(states, actions, initial, k - 1);
      assert StepAt(states, actions, k - 1);
      hide Conserved, LogFaithful, Control, IdleIsFlushed, Next, Enabled, Initial;
      StepIdleIsFlushed(states[k - 1], actions[k - 1]);
    }
  }

  /** Whenever the worker has nothing to do, every line ever accepted is in the file, with no Close at all. */
  lemma {:induction false} NothingToDoMeansWritten(
      states: seq<State>, actions: seq<Action>, initial: Bytes, k: nat)
    requires IsRun(states, actions) && Initial(states[0], initial) && k < |states|
    requires states[k].pipe.worker == Idle && states[k].pipe.queue == []
    ensures states[k].pipe.file == initial + Joined(states[k].pipe.log)
  {
    RunInv(states, actions, initial, k);
    RunIdleIsFlushed(states, actions, initial, k);
    var p := states[k].pipe;
    assert [] + ([] + Joined([])) == [];
    assert p.file + [] == p.file;
  }

  // --- progress -------------------------------------------------------------

  /**
    Until every thread has finished, some thread or the worker can take a step,
    a full queue and a waiting Close included.
   */
  lemma SomebodyCanStep(s: State, initial: Bytes, i: nat) returns (a: Action)
    requires Inv(s, initial) && s.capacity > 0
    requires i < |s.threads| && !s.threads[i].Finished()
    ensures Enabled(s, a) && !a.Tick?
  {
    hide Conserved, LogFaithful;
    if Enabled(s, Work(0)) {
      return Work(0);
    }
    assert s.pipe.queue == [];
    if s.gate.once.Running? {
      var leader := s.gate.once.tid;
      if !NobodyReads(s) {
        var j :| 0 <= j < |s.threads| && s.threads[j].Reading();
        return Step(j);
      }
      return Step(leader);
    }
    return Step(i);
  }

  /** What is still to be done, counted so that every step but a tick takes some of it away. */
  ghost function Left(t: Thread): nat {
    match t
    case Writer(_, at) =>
      (match at
       case BeforeRLock => 9
       case Checking => 8
       case Sending => 7
       case Sent => 1
       case Refused => 1
       case Returned(_) => 0)
    case Closer(pc) =>
      (match pc
       case BeforeOnce => 8
       case WaitingForLock => 7
       case Locked => 6
       case Marked => 5
       case QueueClosed => 4
       case WaitingForWorker => 3
       case ClosingFile => 2
       case WaitingForOnce => 1
       case Closed => 0)
  }

  ghost function WorkLeft(w: WorkerAt): nat {
    match w
    case Writing(_) => 4
    case Written => 3
    case Idle => 2
    case Draining => 1
    case Stopped => 0
  }

  ghost function TotalLeft(threads: seq<Thread>): nat {
    if threads == [] then 0 else TotalLeft(threads[..|threads| - 1]) + Left(threads[|threads| - 1])
  }

  ghost function Rank(s: State): nat {
    TotalLeft(s.threads) + WorkLeft(s.pipe.worker) + 4 * |s.pipe.queue|
  }

  lemma {:induction false} TotalLeftUpdated(threads: seq<Thread>, i: nat, t: Thread)
    requires i < |threads|
    ensures TotalLeft(threads[i := t]) + Left(threads[i]) == TotalLeft(threads) + Left(t)
  {
    var init := threads[..|threads| - 1];
    if i == |threads| - 1 {
      assert threads[i := t][..i] == init;
    } else {
      TotalLeftUpdated(init, i, t);
      assert threads[i := t][..|threads| - 1] == init[i := t];
    }
  }

  lemma WriterStepLowersRank(s: State, i: nat)
    requires Control(s) && Enabled(s, Step(i)) && s.threads[i].Writer?
    ensures Rank(WriterStep(s, i)) < Rank(s)
  {
    WriterStepControl(s, i);
    hide Led, FlagsFollow, Excluded, WorkerDrains, TotalLeft;
    TotalLeftUpdated(s.threads, i, WriterStep(s, i).threads[i]);
  }

  lemma CloserStepLowersRank(s: State, i: nat)
    requires Control(s) && Enabled(s, Step(i)) && s.threads[i].Closer?
    ensures Rank(CloserStep(s, i)) < Rank(s)
  {
    CloserStepControl(s, i);
    hide Led, FlagsFollow, Excluded, WorkerDrains, TotalLeft;
    TotalLeftUpdated(s.threads, i, CloserStep(s, i).threads[i]);
  }

  lemma WorkerStepLowersRank(p: Pipe, g: Gate, spill: nat)
    requires !p.worker.Stopped? && (p.worker.Idle? ==> p.queue != [] || g.queueClosed)
    ensures WorkLeft(WorkerStep(p, g, spill).worker) + 4 * |WorkerStep(p, g, spill).queue|
          < WorkLeft(p.worker) + 4 * |p.queue|
  {}

  lemma StepLowersRank(s: State, a: Action, initial: Bytes)
    requires Inv(s, initial) && Enabled(s, a)
    ensures Rank(Next(s, a)) + (if a.Tick? then 0 else 1) <= Rank(s)
  {
    match a
    case Step(i) =>
      hide Control, Conserved, LogFaithful, TotalLeft, WriterStep, CloserStep;
      if s.threads[i].Writer? {
        WriterStepLowersRank(s, i);
      } else {
        CloserStepLowersRank(s, i);
      }
    case Work(spill) =>
      hide Control, Conserved, LogFaithful, TotalLeft, WorkerStep;
      WorkerStepLowersRank(s.pipe, s.gate, spill);
    case Tick =>
      hide Control, Conserved, LogFaithful, TotalLeft;
  }

  ghost function Steps(actions: seq<Action>): nat {
    if actions == [] then 0
    else Steps(actions[..|actions| - 1]) + if actions[|actions| - 1].Tick? then 0 else 1
  }

  lemma FirstSteps(states: seq<State>, actions: seq<Action>, n: nat)
    requires IsRun(states, actions) && n <= |actions|
    ensures IsRun(states[..n + 1], actions[..n])
  {
    var states', actions' := states[..n + 1], actions[..n];
    forall k: nat | k < |actions'|
      ensures StepAt(states', actions', k)
    {
      assert StepAt(states, actions, k);
    }
  }

  /** No run goes on for ever: its steps other than ticks number at most its starting rank. */
  lemma {:induction false} RunsAreBounded(states: seq<State>, actions: seq<Action>, initial: Bytes)
    requires IsRun(states, actions) && Initial(states[0], initial)
    ensures Steps(actions) + Rank(states[|actions|]) <= Rank(states[0])
    decreases |actions|
  {
    if actions != [] {
      var n := |actions| - 1;
      FirstSteps(states, actions, n);
      assert StepAt(states, actions, n);
      RunsAreBounded(states[..n + 1], actions[..n], initial);
      RunInv(states, actions, initial, n);
      StepLowersRank(states[n], actions[n], initial);
    }
  }
}
