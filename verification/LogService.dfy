// The two ends of the log transport as the source writes them, proved against JobLogs.

module LogService {
  import opened Basics
  import opened JobLogs
  import R = RunModel

  /** What a call of `Write` has published and had acknowledged after `acks` acknowledgements, then waiting for one more. */
  function Writing(s: Sender, acks: nat): (r: Sender)
    decreases acks
  {
    if !Publishable(s) then s
    else if acks == 0 then Published(s)
    else Writing(Acknowledged(Published(s), s.sequence + 1), acks - 1)
  }

  /** The buffer of one job; `Write` publishes into it and the work loop drains it. */
  class LogBuffer {
    var chunk: Option<Chunk>
    var sequence: nat
    var total: nat
    var truncated: bool

    /** The sender's state during a call of `Write` with these bytes left. */
    ghost function View(rest: seq<Byte>, step: nat, stderr: bool): Sender
      reads this
    {
      Sender(sequence, total, truncated, chunk, Some(Call(rest, step, stderr)), false)
    }

    constructor ()
      ensures View([], 0, false) == NEW_SENDER.(call := Some(Call([], 0, false)))
    {
      chunk, sequence, total, truncated := None, 0, 0, false;
    }

    /** The chunk that the work loop sends, and sends again after a reconnect, until it is acknowledged. */
    method Pending() returns (c: Option<Chunk>)
      ensures c == chunk
    {
      c := chunk;
    }

    method Publish(p: seq<Byte>, step: nat, stderr: bool) returns (n: nat)
      requires chunk == None && p != [] && !truncated && total <= MAX_JOB_LOG_BYTES
      modifies this
      ensures View(p, step, stderr) == Published(old(View(p, step, stderr)))
      ensures n == ChunkLength(old(View(p, step, stderr)), p)
    {
      n := if |p| < MAX_LOG_CHUNK_BYTES then |p| else MAX_LOG_CHUNK_BYTES;
      if MAX_JOB_LOG_BYTES - total < n { n := MAX_JOB_LOG_BYTES - total; }
      var marker := n == 0 || sequence >= MAX_JOB_LOG_CHUNKS - 1;
      if marker {
        n := 0;
        truncated := true;
      }
      sequence := sequence + 1;
      chunk := Some(Chunk(sequence, step, stderr, p[..n], marker));
    }

    /** An acknowledgement of another chunk is ignored. */
    method Ack(acknowledged: nat) returns (done: bool)
      modifies this`chunk
      ensures done <==> old(chunk).Some? && old(chunk).value.sequence == acknowledged
      ensures chunk == if done then None else old(chunk)
    {
      done := chunk.Some? && chunk.value.sequence == acknowledged;
      if done { chunk := None; }
    }

    /** Writes while acknowledgements arrive; after `acks` of them the job is canceled while the next chunk is pending. */
    method Write(p: seq<Byte>, step: nat, stderr: bool, acks: nat) returns (written: nat, canceled: bool)
      requires chunk == None && total <= MAX_JOB_LOG_BYTES
      modifies this
      ensures total <= MAX_JOB_LOG_BYTES && (canceled <==> chunk.Some?) && written <= |p|
      ensures written == if canceled then total - old(total) else |p|
      ensures exists rest :: Writing(old(View(p, step, stderr)), acks) == View(rest, step, stderr)
    {
      var rest, left := p, acks;
      written := 0;
      while rest != []
        invariant chunk == None && total <= MAX_JOB_LOG_BYTES && written + |rest| == |p| && total == old(total) + written
        invariant Writing(View(rest, step, stderr), left) == Writing(old(View(p, step, stderr)), acks)
        decreases left, |rest|
      {
        if truncated {
          assert !Publishable(View(rest, step, stderr));
          return |p|, false;
        }
        ghost var before := View(rest, step, stderr);
        var n := Publish(rest, step, stderr);
        if left == 0 {
          assert Writing(before, 0) == View(rest, step, stderr);
          return written, true;
        }
        var done := Ack(sequence);
        total := total + n;
        written := written + n;
        rest := rest[n..];
        left := left - 1;
        assert Acknowledged(Published(before), before.sequence + 1) == View(rest, step, stderr);
      }
      assert !Publishable(View(rest, step, stderr));
      return |p|, false;
    }
  }

  /** The stream row and the chunk rows of one job. */
  class LogTable {
    var nextSequence: nat
    var totalBytes: nat
    var truncated: bool
    var chunks: map<nat, Chunk>

    /** The chunk rows are numbered from one without a gap. */
    ghost predicate Valid()
      reads this
    {
      nextSequence >= 1 && forall n: nat :: n in chunks <==> 1 <= n < nextSequence
    }

    ghost function View(): Log
      reads this
      requires Valid()
    {
      Log(nextSequence, totalBytes, truncated,
          seq(nextSequence - 1, i requires 0 <= i < nextSequence - 1 && Valid() reads this => chunks[i + 1]))
    }

    constructor ()
      ensures Valid() && View() == EMPTY_LOG
    {
      nextSequence, totalBytes, truncated, chunks := 1, 0, false, map[];
    }

    /** `row` is the job that the locking query found by its identifier; `expired` is the answer of the second query. */
    method AppendLogChunk(c: Chunk, row: Option<R.Job>, runner: nat, token: nat, now: Time, expired: bool)
      returns (refused: Option<Refusal>)
      requires Valid()
      modifies this
      ensures Valid()
      ensures match Append(old(View()), c, Claimant(row, runner, token, now), expired)
              case Stored(log) => refused == None && View() == log
              case Refused(reason) => refused == Some(reason) && View() == old(View())
    {
      ghost var before := View();
      if !ValidChunk(c) { return Some(InvalidChunk); }
      if row == None { return Some(LeaseInvalid); }
      var job := row.value;
      if job.runnerId != runner || job.token != token || job.expires <= now || job.status != R.Running { return Some(LeaseInvalid); }
      if expired { return Some(LogExpired); }
      if c.sequence < nextSequence {
        if c.sequence !in chunks { return Some(SequenceConflict); }
        assert before.chunks[c.sequence - 1] == chunks[c.sequence];
        if chunks[c.sequence] != c { return Some(SequenceConflict); }
        return None;
      }
      if c.sequence != nextSequence { return Some(SequenceConflict); }
      if truncated || totalBytes + |c.data| > MAX_JOB_LOG_BYTES || (c.sequence == MAX_JOB_LOG_CHUNKS && !c.truncated) {
        return Some(LimitReached);
      }
      chunks := chunks[c.sequence := c];
      nextSequence, totalBytes, truncated := nextSequence + 1, totalBytes + |c.data|, c.truncated;
      assert View().chunks == before.chunks + [c];
      return None;
    }
  }
}
