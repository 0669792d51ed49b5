// Job logs on their way from a Runner to the store: a sender that keeps one unacknowledged
// chunk (internal/runner/logs.go), a store that takes the next sequence number or an
// identical replay (internal/store/postgres/logs.go), and a network that may lose,
// duplicate and reorder chunks and acknowledgements. One sender is enough: a log buffer
// belongs to one execution, and a job has at most one (RunnerProtocol.ExecutedAtMostOnce).

module JobLogs {
  import opened Basics
  import R = RunModel

  const MAX_LOG_CHUNK_BYTES := 32_768
  const MAX_JOB_LOG_BYTES := 16_777_216
  const MAX_JOB_LOG_CHUNKS := 8192
  const MAX_STEP_INDEX := 1023

  datatype Chunk = Chunk(sequence: nat, step: nat, stderr: bool, data: seq<Byte>, truncated: bool)

  // The store.

  /** `ValidateLogChunk`, apart from the lease fields. */
  predicate ValidChunk(c: Chunk) {
    1 <= c.sequence <= MAX_JOB_LOG_CHUNKS && c.step <= MAX_STEP_INDEX && |c.data| <= MAX_LOG_CHUNK_BYTES &&
    (c.truncated <==> c.data == [])
  }

  datatype Refusal = InvalidChunk | LeaseInvalid | LogExpired | SequenceConflict | LimitReached

  datatype Appended = Stored(log: Log) | Refused(reason: Refusal)

  /** The stored chunks of a job; the chunk with sequence number n is at index n - 1. */
  datatype Log = Log(next: nat, total: nat, truncated: bool, chunks: seq<Chunk>)

  const EMPTY_LOG := Log(1, 0, false, [])

  /** Who asks, with which token and when, and the job row that the store locked for the request. */
  datatype Claimant = Claimant(row: Option<R.Job>, runner: nat, token: nat, now: Time)

  /** The Runner is executing the job under this token, and its lease has not run out. */
  predicate HoldsLease(q: Claimant) {
    q.row.Some? && q.row.value.status == R.Running && R.ValidLease(q.row.value, q.runner, q.token, q.now)
  }

  /** The sequence check: the next chunk is stored, an identical replay is accepted, anything else refused. */
  function Place(log: Log, c: Chunk): Appended {
    if c.sequence < log.next then
      if 1 <= c.sequence <= |log.chunks| && log.chunks[c.sequence - 1] == c then Stored(log) else Refused(SequenceConflict)
    else if c.sequence != log.next then Refused(SequenceConflict)
    else if log.truncated || log.total + |c.data| > MAX_JOB_LOG_BYTES || (c.sequence == MAX_JOB_LOG_CHUNKS && !c.truncated)
    then Refused(LimitReached)
    else Stored(Log(log.next + 1, log.total + |c.data|, c.truncated, log.chunks + [c]))
  }

  /** `expired` says that the log is past its retention. */
  function Append(log: Log, c: Chunk, q: Claimant, expired: bool): Appended {
    if !ValidChunk(c) then Refused(InvalidChunk)
    else if !HoldsLease(q) then Refused(LeaseInvalid)
    else if expired then Refused(LogExpired)
    else Place(log, c)
  }

  // The sender.

  /** A call of `Write` in progress, with the bytes it has still to pass on. */
  datatype Call = Call(rest: seq<Byte>, step: nat, stderr: bool)

  datatype Sender = Sender(sequence: nat, total: nat, truncated: bool, pending: Option<Chunk>, call: Option<Call>, canceled: bool)

  const NEW_SENDER := Sender(0, 0, false, None, None, false)

  function Min(a: int, b: int): int {
    if a < b then a else b
  }

  predicate IsMarker(s: Sender, rest: seq<Byte>) {
    Min(|rest|, Min(MAX_LOG_CHUNK_BYTES, MAX_JOB_LOG_BYTES - s.total)) <= 0 || s.sequence >= MAX_JOB_LOG_CHUNKS - 1
  }

  /** How many bytes the next chunk takes; none when it is the truncation marker. */
  function ChunkLength(s: Sender, rest: seq<Byte>): (n: nat)
    ensures n <= |rest| && n <= MAX_LOG_CHUNK_BYTES && (n == 0 <==> IsMarker(s, rest))
    ensures n > 0 ==> s.total + n <= MAX_JOB_LOG_BYTES
  {
    if IsMarker(s, rest) then 0 else Min(|rest|, Min(MAX_LOG_CHUNK_BYTES, MAX_JOB_LOG_BYTES - s.total))
  }

  function NextChunk(s: Sender, call: Call): Chunk {
    Chunk(s.sequence + 1, call.step, call.stderr, call.rest[..ChunkLength(s, call.rest)], IsMarker(s, call.rest))
  }

  /** The loop of `Write` may publish: bytes remain, nothing is pending, and the log is not truncated. */
  predicate Publishable(s: Sender) {
    s.call.Some? && s.call.value.rest != [] && s.pending == None && !s.truncated && !s.canceled
  }

  function Published(s: Sender): Sender
    requires Publishable(s)
  {
    var c := NextChunk(s, s.call.value);
    s.(sequence := s.sequence + 1, truncated := c.truncated, pending := Some(c))
  }

  /** An acknowledgement counts only for the chunk that is pending; the writer then moves on. */
  function Acknowledged(s: Sender, sequence: nat): Sender {
    if s.pending.Some? && s.pending.value.sequence == sequence then
      var n := |s.pending.value.data|;
      s.(pending := None, total := s.total + n,
         call := if s.call.Some? && n <= |s.call.value.rest| then Some(s.call.value.(rest := s.call.value.rest[n..])) else s.call)
    else s
  }

  /** A byte of the log with the step and the stream that it belongs to. */
  datatype Piece = Piece(byte: Byte, step: nat, stderr: bool)

  function Pieces(bytes: seq<Byte>, step: nat, stderr: bool): (r: seq<Piece>)
    ensures |r| == |bytes|
  {
    seq(|bytes|, i requires 0 <= i < |bytes| => Piece(bytes[i], step, stderr))
  }

  // The system. `emitted`, `written` record every chunk published and everything handed to `Write`.

  datatype System = System(
    sender: Sender, log: Log, sent: set<Chunk>, acks: set<nat>, emitted: seq<Chunk>, written: seq<Piece>)

  const START := System(NEW_SENDER, EMPTY_LOG, {}, {}, [], [])

  datatype Step =
    | BeginWrite(bytes: seq<Byte>, step: nat, stderr: bool)
    | Publish
    | EndWrite
    | CancelJob
    | Send
    | Deliver(chunk: Chunk, claimant: Claimant, expired: bool)
    | DeliverAck(sequence: nat)

  /** A chunk or acknowledgement that was ever sent may be delivered any number of times, in any order, or never. */
  predicate Can(s: System, step: Step) {
    match step
    case BeginWrite(_, _, _) => s.sender.call == None && !s.sender.canceled
    case Publish => Publishable(s.sender)
    case EndWrite => s.sender.call.Some? && s.sender.pending == None && (s.sender.call.value.rest == [] || s.sender.truncated)
    case CancelJob => true
    case Send => s.sender.pending.Some?
    case Deliver(chunk, _, _) => chunk in s.sent
    case DeliverAck(sequence) => sequence in s.acks
  }

  function Take(s: System, step: Step): System
    requires Can(s, step)
  {
    match step
    case BeginWrite(bytes, index, stderr) =>
      s.(sender := s.sender.(call := Some(Call(bytes, index, stderr))), written := s.written + Pieces(bytes, index, stderr))
    case Publish => s.(sender := Published(s.sender), emitted := s.emitted + [NextChunk(s.sender, s.sender.call.value)])
    case EndWrite => s.(sender := s.sender.(call := None))
    case CancelJob => s.(sender := s.sender.(canceled := true, call := None))
    case Send => s.(sent := s.sent + {s.sender.pending.value})
    case Deliver(chunk, claimant, expired) =>
      var appended := Append(s.log, chunk, claimant, expired);
      if appended.Stored? then s.(log := appended.log, acks := s.acks + {chunk.sequence}) else s
    case DeliverAck(sequence) => s.(sender := Acknowledged(s.sender, sequence))
  }

  ghost predicate Next(s: System, s': System) {
    exists step :: Can(s, step) && s' == Take(s, step)
  }

  ghost predicate Behaviour(trace: seq<System>) {
    trace != [] && trace[0] == START &&
    forall i, j {:trigger Next(trace[i], trace[j])} | 0 <= i < |trace| && j == i + 1 && j < |trace| :: Next(trace[i], trace[j])
  }

  // The invariant.

  function Data(chunks: seq<Chunk>): seq<Byte> {
    if chunks == [] then [] else Data(chunks[..|chunks| - 1]) + chunks[|chunks| - 1].data
  }

  /** The chunks taken apart. */
  function Content(chunks: seq<Chunk>): (r: seq<Piece>)
    ensures |r| == |Data(chunks)|
  {
    if chunks == [] then []
    else
      var last := chunks[|chunks| - 1];
      Content(chunks[..|chunks| - 1]) + Pieces(last.data, last.step, last.stderr)
  }

  /** The chunk at index `i` of what was emitted: numbered in order, and empty exactly when it closes the log. */
  predicate EmittedOk(chunks: seq<Chunk>, i: nat, c: Chunk) {
    c.sequence == i + 1 <= MAX_JOB_LOG_CHUNKS && |c.data| <= MAX_LOG_CHUNK_BYTES && (c.truncated <==> c.data == []) &&
    (c.truncated ==> i == |chunks| - 1) && (!c.truncated ==> c.sequence < MAX_JOB_LOG_CHUNKS)
  }

  predicate AllEmittedOk(chunks: seq<Chunk>) {
    forall i {:trigger EmittedOk(chunks, i, chunks[i])} | 0 <= i < |chunks| :: EmittedOk(chunks, i, chunks[i])
  }

  predicate Closed(chunks: seq<Chunk>) {
    chunks != [] && chunks[|chunks| - 1].truncated
  }

  /** What has been acknowledged: everything emitted, but for a pending chunk. */
  function Passed(s: System): seq<Chunk>
    requires s.sender.pending.Some? ==> s.emitted != []
  {
    if s.sender.pending.Some? then s.emitted[..|s.emitted| - 1] else s.emitted
  }

  predicate LogOk(log: Log) {
    log.next == |log.chunks| + 1 && log.total == |Data(log.chunks)| && (log.truncated <==> Closed(log.chunks))
  }

  predicate SenderOk(s: System) {
    s.sender.sequence == |s.emitted| && (s.sender.truncated <==> Closed(s.emitted)) &&
    (s.sender.pending.Some? ==> s.emitted != [] && s.sender.pending.value == s.emitted[|s.emitted| - 1]) &&
    s.sender.total == |Data(Passed(s))| && |Data(s.emitted)| <= MAX_JOB_LOG_BYTES
  }

  /** The store has everything emitted, but perhaps not a chunk that is still pending. */
  predicate StoredOk(s: System) {
    s.log.chunks <= s.emitted && (if s.sender.pending.Some? then |s.log.chunks| >= |s.emitted| - 1 else s.log.chunks == s.emitted)
  }

  predicate NetworkOk(s: System) {
    (forall c | c in s.sent :: c in s.emitted) && (forall a | a in s.acks :: 1 <= a <= |s.log.chunks|)
  }

  function Left(call: Call): seq<Piece> {
    Pieces(call.rest, call.step, call.stderr)
  }

  /** As long as the log is open, what was written is what was passed on and what the current call has left. */
  predicate WrittenOk(s: System)
    requires s.sender.pending.Some? ==> s.emitted != []
  {
    Content(s.emitted) <= s.written &&
    (!s.sender.canceled && s.sender.call.Some? ==>
      (!Closed(Passed(s)) ==> s.written == Content(Passed(s)) + Left(s.sender.call.value)) &&
      (s.sender.pending.Some? ==> |s.sender.pending.value.data| <= |s.sender.call.value.rest|)) &&
    (!s.sender.canceled && s.sender.call == None ==> s.sender.pending == None && (!s.sender.truncated ==> s.written == Content(s.emitted)))
  }

  ghost predicate SystemOk(s: System) {
    AllEmittedOk(s.emitted) && SenderOk(s) && LogOk(s.log) && StoredOk(s) && NetworkOk(s) && WrittenOk(s)
  }

  lemma DataAppend(chunks: seq<Chunk>, c: Chunk)
    ensures Data(chunks + [c]) == Data(chunks) + c.data
    ensures Content(chunks + [c]) == Content(chunks) + Pieces(c.data, c.step, c.stderr)
  {
    assert (chunks + [c])[..|chunks|] == chunks;
  }

  // Publishing.

  lemma PublishKeepsEmitted(chunks: seq<Chunk>, c: Chunk)
    requires AllEmittedOk(chunks) && !Closed(chunks) && c.sequence == |chunks| + 1 <= MAX_JOB_LOG_CHUNKS
    requires |c.data| <= MAX_LOG_CHUNK_BYTES && (c.truncated <==> c.data == []) && (!c.truncated ==> c.sequence < MAX_JOB_LOG_CHUNKS)
    ensures AllEmittedOk(chunks + [c])
  {
    var more := chunks + [c];
    forall i | 0 <= i < |more| ensures EmittedOk(more, i, more[i]) {
      if i < |chunks| { assert EmittedOk(chunks, i, chunks[i]); }
    }
  }

  /** An open log always has room for one more sequence number: only the marker takes the last one. */
  lemma OpenHasRoom(chunks: seq<Chunk>)
    requires AllEmittedOk(chunks) && !Closed(chunks)
    ensures |chunks| < MAX_JOB_LOG_CHUNKS
  {
    if chunks != [] { assert EmittedOk(chunks, |chunks| - 1, chunks[|chunks| - 1]); }
  }

  lemma PublishKeeps(s: System)
    requires SystemOk(s) && Can(s, Publish)
    ensures SystemOk(Take(s, Publish))
  {
    var s', call := Take(s, Publish), s.sender.call.value;
    var c := NextChunk(s.sender, call);
    OpenHasRoom(s.emitted);
    PublishKeepsEmitted(s.emitted, c);
    DataAppend(s.emitted, c);
    assert Passed(s') == s.emitted;
    assert Left(call)[..|c.data|] == Pieces(c.data, c.step, c.stderr);
    assert s'.written == Content(s.emitted) + Left(call);
  }

  // Delivery.

  lemma PrefixOk(chunks: seq<Chunk>, n: nat)
    requires AllEmittedOk(chunks) && n <= |chunks|
    ensures n < |chunks| ==> !Closed(chunks[..n])
    ensures |Data(chunks[..n])| <= |Data(chunks)|
  {
    if 0 < n < |chunks| { assert EmittedOk(chunks, n - 1, chunks[n - 1]); }
    DataPrefix(chunks, n);
  }

  lemma {:induction false} DataPrefix(chunks: seq<Chunk>, n: nat)
    requires n <= |chunks|
    ensures Data(chunks[..n]) <= Data(chunks) && Content(chunks[..n]) <= Content(chunks)
  {
    if n == |chunks| {
      assert chunks[..n] == chunks;
    } else {
      var init := chunks[..|chunks| - 1];
      DataPrefix(init, n);
      assert init[..n] == chunks[..n];
    }
  }

  /** Whatever chunk the network delivers, the store takes it or already has it: no conflict and no limit, ever. */
  lemma DeliveredIsStored(s: System, c: Chunk)
    requires SystemOk(s) && c in s.emitted && c.step <= MAX_STEP_INDEX
    ensures Place(s.log, c).Stored?
    ensures var log' := Place(s.log, c).log; log'.chunks <= s.emitted && c in log'.chunks && LogOk(log')
    ensures |s.log.chunks| <= |Place(s.log, c).log.chunks| && c.sequence <= |Place(s.log, c).log.chunks|
  {
    var i :| 0 <= i < |s.emitted| && s.emitted[i] == c;
    var n := |s.log.chunks|;
    assert EmittedOk(s.emitted, i, s.emitted[i]);
    if i < n {
      assert s.log.chunks[i] == c;
    } else {
      NextIsStored(s.log, s.emitted, c);
    }
  }

  /** The one chunk that the store does not have yet fits. */
  lemma NextIsStored(log: Log, emitted: seq<Chunk>, c: Chunk)
    requires AllEmittedOk(emitted) && |Data(emitted)| <= MAX_JOB_LOG_BYTES && LogOk(log)
    requires emitted == log.chunks + [c]
    ensures Place(log, c).Stored? && Place(log, c).log.chunks == emitted && LogOk(Place(log, c).log)
  {
    var n := |log.chunks|;
    assert EmittedOk(emitted, n, emitted[n]);
    PrefixOk(emitted, n);
    assert emitted[..n] == log.chunks;
    DataAppend(log.chunks, c);
  }

  /** A chunk is valid for the store exactly when its step index is in range: every other limit is the sender's own. */
  lemma EmittedIsValid(s: System, c: Chunk)
    requires SystemOk(s) && c in s.emitted
    ensures ValidChunk(c) <==> c.step <= MAX_STEP_INDEX
  {
    var i :| 0 <= i < |s.emitted| && s.emitted[i] == c;
    assert EmittedOk(s.emitted, i, s.emitted[i]);
  }

  lemma DeliverKeeps(s: System, c: Chunk, q: Claimant, expired: bool)
    requires SystemOk(s) && Can(s, Deliver(c, q, expired))
    ensures SystemOk(Take(s, Deliver(c, q, expired)))
  {
    EmittedIsValid(s, c);
    if Append(s.log, c, q, expired).Stored? {
      DeliveredIsStored(s, c);
      LogGrows(s, Place(s.log, c).log, c.sequence);
    }
  }

  lemma LogGrows(s: System, log: Log, sequence: nat)
    requires SystemOk(s) && LogOk(log) && log.chunks <= s.emitted && |s.log.chunks| <= |log.chunks| && 1 <= sequence <= |log.chunks|
    ensures SystemOk(s.(log := log, acks := s.acks + {sequence}))
  {
    var s' := s.(log := log, acks := s.acks + {sequence});
    if s.sender.pending == None { assert log.chunks == s.emitted; }
    assert WrittenOk(s');
  }

  // Acknowledgement.

  lemma AckKeeps(s: System, sequence: nat)
    requires SystemOk(s) && Can(s, DeliverAck(sequence))
    ensures SystemOk(Take(s, DeliverAck(sequence)))
  {
    if s.sender.pending.Some? && s.sender.pending.value.sequence == sequence {
      var n := |s.emitted| - 1;
      var c := s.emitted[n];
      assert EmittedOk(s.emitted, n, s.emitted[n]);
      assert s.emitted == s.emitted[..n] + [c];
      DataAppend(s.emitted[..n], c);
      PrefixOk(s.emitted, n);
      assert s.log.chunks == s.emitted;
      AckKeepsWritten(s, c);
    }
  }

  lemma AckKeepsWritten(s: System, c: Chunk)
    requires SystemOk(s) && s.sender.pending == Some(c) && !Closed(Passed(s))
    requires Content(s.emitted) == Content(Passed(s)) + Pieces(c.data, c.step, c.stderr)
    ensures WrittenOk(Take(s.(acks := s.acks + {c.sequence}), DeliverAck(c.sequence)))
  {
    if !s.sender.canceled && s.sender.call.Some? {
      var call := s.sender.call.value;
      assert s.written == Content(Passed(s)) + Left(call) && Content(s.emitted) <= s.written;
      TailOfPrefix(Content(Passed(s)), Pieces(c.data, c.step, c.stderr), Left(call));
      assert Left(call)[|c.data|..] == Left(call.(rest := call.rest[|c.data|..]));
    }
  }

  lemma TailOfPrefix<T>(a: seq<T>, b: seq<T>, rest: seq<T>)
    requires a + b <= a + rest
    ensures |b| <= |rest| && a + rest == a + b + rest[|b|..]
  {
    assert forall i | 0 <= i < |b| :: (a + b)[|a| + i] == b[i] && (a + rest)[|a| + i] == rest[i];
    assert rest[..|b|] == b;
    assert rest == b + rest[|b|..];
  }

  lemma WriterKeeps(s: System, step: Step)
    requires SystemOk(s) && Can(s, step) && (step.BeginWrite? || step.EndWrite? || step.CancelJob? || step.Send?)
    ensures SystemOk(Take(s, step))
  {
    var s' := Take(s, step);
    assert Passed(s') == Passed(s);
    if step.BeginWrite? {
      assert !s.sender.truncated ==> s.written == Content(s.emitted);
      assert Content(s.emitted) <= s.written + Pieces(step.bytes, step.step, step.stderr);
    }
  }

  lemma TakeKeepsSystemOk(s: System, step: Step)
    requires SystemOk(s) && Can(s, step)
    ensures SystemOk(Take(s, step))
  {
    match step
    case Publish => PublishKeeps(s);
    case Deliver(c, q, expired) => DeliverKeeps(s, c, q, expired);
    case DeliverAck(sequence) => AckKeeps(s, sequence);
    case _ => WriterKeeps(s, step);
  }

  lemma {:induction false} AlwaysOk(trace: seq<System>, n: nat)
    requires Behaviour(trace) && n < |trace|
    ensures SystemOk(trace[n])
  {
    if n > 0 {
      AlwaysOk(trace, n - 1);
      assert Next(trace[n - 1], trace[n]);
      var step :| Can(trace[n - 1], step) && trace[n] == Take(trace[n - 1], step);
      TakeKeepsSystemOk(trace[n - 1], step);
    }
  }

  // What the transport guarantees.

  /** The stored chunks are a prefix of the emitted ones, each once and in order; all of them once nothing is pending. */
  lemma StoredInOrder(trace: seq<System>, n: nat)
    requires Behaviour(trace) && n < |trace|
    ensures trace[n].log.chunks <= trace[n].emitted
    ensures trace[n].sender.pending == None ==> trace[n].log.chunks == trace[n].emitted
    ensures forall i | 0 <= i < |trace[n].log.chunks| :: trace[n].log.chunks[i].sequence == i + 1
  {
    AlwaysOk(trace, n);
    var s := trace[n];
    forall i | 0 <= i < |s.log.chunks| ensures s.log.chunks[i].sequence == i + 1 {
      assert s.log.chunks[i] == s.emitted[i] && EmittedOk(s.emitted, i, s.emitted[i]);
    }
  }

  /** The sender moves past a chunk only when the store holds it. */
  lemma PassedMeansStored(trace: seq<System>, n: nat, sequence: nat)
    requires Behaviour(trace) && n < |trace| && Can(trace[n], DeliverAck(sequence))
    requires trace[n].sender.pending.Some? && trace[n].sender.pending.value.sequence == sequence
    ensures trace[n].sender.pending.value in trace[n].log.chunks
  {
    AlwaysOk(trace, n);
    var s := trace[n];
    assert EmittedOk(s.emitted, |s.emitted| - 1, s.emitted[|s.emitted| - 1]);
    assert s.log.chunks[sequence - 1] == s.emitted[sequence - 1];
  }

  /** A chunk that was sent is accepted exactly for a step index in range, from the holder of a live lease, in a log that has not expired. */
  lemma AcceptedIff(trace: seq<System>, n: nat, c: Chunk, q: Claimant, expired: bool)
    requires Behaviour(trace) && n < |trace| && c in trace[n].sent
    ensures Append(trace[n].log, c, q, expired).Stored? <==>
            c.step <= 1023 && !expired && q.row.Some? && q.row.value.status == R.Running &&
            q.row.value.runnerId == q.runner && q.row.value.token == q.token && q.now < q.row.value.expires
  {
    AlwaysOk(trace, n);
    EmittedIsValid(trace[n], c);
    if c.step <= MAX_STEP_INDEX { DeliveredIsStored(trace[n], c); }
  }

  /** Whatever is stored or acknowledged was delivered for the Runner that runs the job under its live lease, while the log had not expired. */
  lemma OnlyTheHolderLogs(s: System, step: Step)
    requires Can(s, step) && (Take(s, step).log != s.log || !(Take(s, step).acks <= s.acks))
    ensures step.Deliver? && !step.expired && step.claimant.row.Some?
    ensures var row := step.claimant.row.value;
            row.status == R.Running && row.runnerId == step.claimant.runner && row.token == step.claimant.token &&
            step.claimant.now < row.expires
  {
  }

  /** A delivery that is refused leaves everything as it was. */
  lemma RefusedChangesNothing(s: System, c: Chunk, q: Claimant, expired: bool)
    requires Can(s, Deliver(c, q, expired))
    requires expired || q.row == None || q.row.value.status != R.Running || q.row.value.runnerId != q.runner ||
             q.row.value.token != q.token || q.row.value.expires <= q.now
    ensures Append(s.log, c, q, expired).Refused? && Take(s, Deliver(c, q, expired)) == s
  {
  }

  /** At most 16 MiB in at most 8192 chunks; only the last can be the truncation marker; bytes, steps and streams are a prefix of what was written. */
  lemma LimitsHold(trace: seq<System>, n: nat)
    requires Behaviour(trace) && n < |trace|
    ensures |Data(trace[n].emitted)| <= MAX_JOB_LOG_BYTES && |trace[n].emitted| <= MAX_JOB_LOG_CHUNKS
    ensures forall i | 0 <= i < |trace[n].emitted| - 1 :: !trace[n].emitted[i].truncated && trace[n].emitted[i].data != []
    ensures Content(trace[n].emitted) <= trace[n].written
    ensures Content(trace[n].log.chunks) <= trace[n].written
  {
    AlwaysOk(trace, n);
    var s := trace[n];
    forall i | 0 <= i < |s.emitted| ensures EmittedOk(s.emitted, i, s.emitted[i]) {
    }
    if s.emitted != [] { assert EmittedOk(s.emitted, |s.emitted| - 1, s.emitted[|s.emitted| - 1]); }
    assert s.log.chunks == s.emitted[..|s.log.chunks|];
    DataPrefix(s.emitted, |s.log.chunks|);
  }

  /** Between two calls of `Write`, all that was written is stored, unless the log was closed or the job canceled. */
  lemma WrittenIsStored(trace: seq<System>, n: nat)
    requires Behaviour(trace) && n < |trace| && trace[n].sender.call == None
    requires !trace[n].sender.truncated && !trace[n].sender.canceled
    ensures Content(trace[n].log.chunks) == trace[n].written
  {
    AlwaysOk(trace, n);
  }
}
