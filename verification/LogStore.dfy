// The store's side of a job log against any client: whatever chunks arrive, in whatever order
// and from whomever, the stored log keeps its limits and only ever grows.

module LogStore {
  import opened Basics
  import R = RunModel
  import opened JobLogs

  /** The limits on one chunk. */
  predicate WellFormed(c: Chunk) {
    1 <= c.sequence <= 8192 && c.step <= 1023 && |c.data| <= 32_768 && (c.truncated <==> c.data == [])
  }

  /** The limits on a stored log: its chunks are numbered from one, well-formed and within 16 MiB, and nothing follows a marker. */
  ghost predicate WithinLimits(log: Log) {
    log.next == |log.chunks| + 1 && log.total == |Data(log.chunks)| <= 16_777_216 && |log.chunks| <= 8192 &&
    (forall i | 0 <= i < |log.chunks| :: WellFormed(log.chunks[i]) && log.chunks[i].sequence == i + 1) &&
    (forall i | 0 <= i < |log.chunks| - 1 :: !log.chunks[i].truncated) &&
    (log.truncated <==> log.chunks != [] && log.chunks[|log.chunks| - 1].truncated) &&
    (|log.chunks| == 8192 ==> log.truncated)
  }

  /** The log has room for the chunk at its end. */
  predicate Fits(log: Log, c: Chunk) {
    c.sequence == |log.chunks| + 1 && (log.chunks == [] || !log.chunks[|log.chunks| - 1].truncated) &&
    |Data(log.chunks)| + |c.data| <= 16_777_216 && (c.sequence == 8192 ==> c.truncated)
  }

  /** The Runner runs the job under this token, and its lease has not run out. */
  predicate RunsJob(q: Claimant) {
    q.row.Some? && q.row.value.status == R.Running && q.row.value.runnerId == q.runner && q.row.value.token == q.token &&
    q.now < q.row.value.expires
  }

  /**
   * A chunk is accepted exactly when it is well-formed, comes from the holder of the job's lease before the log
   * expires, and is stored already or the next one that fits.
   */
  lemma AppendedIff(log: Log, c: Chunk, q: Claimant, expired: bool)
    requires WithinLimits(log)
    ensures var outcome := Append(log, c, q, expired);
            (outcome.Stored? <==> WellFormed(c) && RunsJob(q) && !expired && (c in log.chunks || Fits(log, c))) &&
            (outcome == Refused(InvalidChunk) <==> !WellFormed(c)) &&
            (outcome == Refused(LeaseInvalid) <==> WellFormed(c) && !RunsJob(q)) &&
            (outcome == Refused(LogExpired) <==> WellFormed(c) && RunsJob(q) && expired) &&
            (outcome == Refused(LimitReached) ==> c.sequence == |log.chunks| + 1) &&
            (outcome.Stored? ==> WithinLimits(outcome.log) && outcome.log.chunks == if c in log.chunks then log.chunks else log.chunks + [c])
  {
    if WellFormed(c) { PlacedIff(log, c); }
  }

  /** The same, once the request itself is found to be in order. */
  lemma PlacedIff(log: Log, c: Chunk)
    requires WithinLimits(log) && WellFormed(c)
    ensures var outcome := Place(log, c);
            (outcome.Stored? <==> c in log.chunks || Fits(log, c)) &&
            (outcome.Refused? ==>
              outcome.reason == SequenceConflict || (outcome.reason == LimitReached && c.sequence == |log.chunks| + 1)) &&
            (outcome.Stored? ==> WithinLimits(outcome.log) && outcome.log.chunks == if c in log.chunks then log.chunks else log.chunks + [c])
  {
    StoredAt(log, c);
    if Fits(log, c) { FittingIsPlaced(log, c); }
  }

  /** A stored chunk stands at its number. */
  lemma StoredAt(log: Log, c: Chunk)
    requires WithinLimits(log)
    ensures c in log.chunks <==> 1 <= c.sequence <= |log.chunks| && log.chunks[c.sequence - 1] == c
  {
    if c in log.chunks {
      var i :| 0 <= i < |log.chunks| && log.chunks[i] == c;
      assert log.chunks[i].sequence == i + 1;
    }
  }

  lemma FittingIsPlaced(log: Log, c: Chunk)
    requires WithinLimits(log) && WellFormed(c) && Fits(log, c)
    ensures var outcome := Place(log, c); outcome.Stored? && WithinLimits(outcome.log) && outcome.log.chunks == log.chunks + [c]
  {
    DataAppend(log.chunks, c);
  }

  /** One request to append, from anybody. */
  datatype Request = Request(chunk: Chunk, claimant: Claimant, expired: bool)

  function Served(log: Log, request: Request): Log {
    var outcome := Append(log, request.chunk, request.claimant, request.expired);
    if outcome.Stored? then outcome.log else log
  }

  function ServedAll(log: Log, requests: seq<Request>): Log {
    if requests == [] then log else Served(ServedAll(log, requests[..|requests| - 1]), requests[|requests| - 1])
  }

  /** Any requests whatever keep the limits, and what is stored stays stored, in its place. */
  lemma {:induction false} AnyClientKeepsLimits(log: Log, requests: seq<Request>)
    requires log == EMPTY_LOG || WithinLimits(log)
    ensures WithinLimits(ServedAll(log, requests)) && log.chunks <= ServedAll(log, requests).chunks
  {
    if requests != [] {
      var init, last := requests[..|requests| - 1], requests[|requests| - 1];
      AnyClientKeepsLimits(log, init);
      AppendedIff(ServedAll(log, init), last.chunk, last.claimant, last.expired);
    }
  }
}
