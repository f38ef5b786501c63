/**
 * The control logic of the exporter's two network loops (src/exporter/mod.rs):
 * which status codes are retried, the bounded registration loop of
 * `get_metric_descriptor`, the per-batch delivery loop of `exec_export`, and
 * the split of the series into batches of 200.
 *
 * The network is an oracle: `reply(i)` is what the i-th round trip of the
 * exporter (a channel creation, a token fetch or an RPC) answers. Each loop is
 * specified by a function of the oracle and the position of its first round
 * trip, returning its outcome and the position after its last one.
 */
module ExportPolicy {
  import opened Monitoring

  /** The answer to one round trip. A failed channel creation or token fetch carries no meaningful code. */
  datatype Reply = Ok | Failed(code: Code)

  /** The status codes on which both loops sleep and try again. */
  predicate IsRetryable(code: Code) {
    || code == Unavailable || code == DataLoss || code == DeadlineExceeded
    || code == Aborted || code == Internal || code == FailedPrecondition
  }

  /** Both loops give up after this many attempts (`iteration > 101`). */
  const MaxAttempts: nat := 101

  /** Series are sent in batches of this many. */
  const BatchSize: nat := 200

  // ---------------------------------------------------------------------
  // Descriptor registration

  /**
   * The registration loop after `done` attempts, its next round trip at `pos`.
   * Each attempt fetches a token (a failure gives up) and sends the
   * CreateMetricDescriptor RPC: success and AlreadyExists register, a retryable
   * code tries again, any other code gives up.
   */
  function RegistrationLoop(reply: nat -> Reply, pos: nat, done: nat): (r: (bool, nat))
    requires done <= MaxAttempts
    ensures pos <= r.1 <= pos + 2 * (MaxAttempts - done)
    decreases MaxAttempts - done
  {
    if done == MaxAttempts then (false, pos)
    else if reply(pos).Failed? then (false, pos + 1)
    else match reply(pos + 1)
      case Ok => (true, pos + 2)
      case Failed(code) =>
        if IsRetryable(code) then RegistrationLoop(reply, pos + 2, done + 1)
        else (code == AlreadyExists, pos + 2)
  }

  /** Registration: one channel creation (a failure gives up), then the loop. */
  function Registration(reply: nat -> Reply, pos: nat): (r: (bool, nat))
    ensures pos < r.1 <= pos + 1 + 2 * MaxAttempts
  {
    if reply(pos).Failed? then (false, pos + 1) else RegistrationLoop(reply, pos + 1, 0)
  }

  /** Registration opens with its channel: a failure gives up, otherwise the loop starts one round trip on. */
  lemma RegistrationStart(reply: nat -> Reply, pos: nat)
    ensures reply(pos).Failed? ==> Registration(reply, pos) == (false, pos + 1)
    ensures reply(pos).Ok? ==> Registration(reply, pos) == RegistrationLoop(reply, pos + 1, 0)
  {
  }

  /** A registration loop with no attempts left gives up without a round trip. */
  lemma RegistrationLoopAtLimit(reply: nat -> Reply, pos: nat)
    ensures RegistrationLoop(reply, pos, MaxAttempts) == (false, pos)
  {
  }

  /** Attempt `k` of a loop whose first attempt starts at `pos`: token ok, then a retryable code. */
  predicate RegistrationAttemptRetries(reply: nat -> Reply, pos: nat, k: nat) {
    reply(pos + 2 * k).Ok? && reply(pos + 2 * k + 1).Failed? && IsRetryable(reply(pos + 2 * k + 1).code)
  }

  /** Attempt `k`: token ok, then success or AlreadyExists. */
  predicate RegistrationAttemptRegisters(reply: nat -> Reply, pos: nat, k: nat) {
    reply(pos + 2 * k).Ok? && (reply(pos + 2 * k + 1).Ok? || reply(pos + 2 * k + 1).code == AlreadyExists)
  }

  /** Every attempt before attempt `k` was retried. */
  predicate RetriedBefore(reply: nat -> Reply, pos: nat, k: nat) {
    forall j :: 0 <= j < k ==> RegistrationAttemptRetries(reply, pos, j)
  }

  /** Attempt `k` registers, every attempt before it having been retried. */
  predicate RegistersAt(reply: nat -> Reply, pos: nat, k: nat) {
    RetriedBefore(reply, pos, k) && RegistrationAttemptRegisters(reply, pos, k)
  }

  /** After a retried first attempt, attempt `k + 1` is attempt `k` of the loop that follows. */
  lemma RegistersAtShift(reply: nat -> Reply, pos: nat, k: nat)
    requires RegistrationAttemptRetries(reply, pos, 0)
    ensures RegistersAt(reply, pos, k + 1) <==> RegistersAt(reply, pos + 2, k)
  {
    assert RegistrationAttemptRegisters(reply, pos, k + 1) <==> RegistrationAttemptRegisters(reply, pos + 2, k);
    if RetriedBefore(reply, pos + 2, k) {
      forall j | 0 <= j < k + 1 ensures RegistrationAttemptRetries(reply, pos, j) {
        if j > 0 {
          assert RegistrationAttemptRetries(reply, pos + 2, j - 1);
        }
      }
    }
    if RetriedBefore(reply, pos, k + 1) {
      var next := pos + 2;
      forall j | 0 <= j < k ensures RegistrationAttemptRetries(reply, next, j) {
        assert RegistrationAttemptRetries(reply, pos, j + 1);
      }
    }
  }

  /** A retried first attempt hands over to the loop two round trips on. */
  lemma RegistrationRetryStep(reply: nat -> Reply, pos: nat, done: nat)
    requires done < MaxAttempts && RegistrationAttemptRetries(reply, pos, 0)
    ensures RegistrationLoop(reply, pos, done) == RegistrationLoop(reply, pos + 2, done + 1)
  {
  }

  /** When the first attempt is not retried, it alone decides the loop. */
  lemma FirstAttemptDecides(reply: nat -> Reply, pos: nat, done: nat)
    requires done < MaxAttempts && !RegistrationAttemptRetries(reply, pos, 0)
    ensures RegistrationLoop(reply, pos, done).0 == RegistrationAttemptRegisters(reply, pos, 0)
  {
  }

  /** One of the `n` attempts starting at `pos` registers, every attempt before it having been retried. */
  predicate SomeAttemptRegisters(reply: nat -> Reply, pos: nat, n: nat) {
    exists k :: 0 <= k < n && RegistersAt(reply, pos, k)
  }

  /** When the first attempt is not retried, no later attempt can register. */
  lemma OnlyFirstRegisters(reply: nat -> Reply, pos: nat, done: nat)
    requires done < MaxAttempts && !RegistrationAttemptRetries(reply, pos, 0)
    ensures SomeAttemptRegisters(reply, pos, MaxAttempts - done) <==> RegistrationAttemptRegisters(reply, pos, 0)
  {
    if RegistrationAttemptRegisters(reply, pos, 0) {
      assert RegistersAt(reply, pos, 0);
    }
    forall k | 0 < k < MaxAttempts - done ensures !RegistersAt(reply, pos, k) {
      assert !RegistrationAttemptRetries(reply, pos, 0);
    }
  }

  /** After a retried first attempt, a registering attempt is one of the loop that follows. */
  lemma RetriedFirstShifts(reply: nat -> Reply, pos: nat, done: nat)
    requires done < MaxAttempts && RegistrationAttemptRetries(reply, pos, 0)
    ensures SomeAttemptRegisters(reply, pos, MaxAttempts - done) <==>
      SomeAttemptRegisters(reply, pos + 2, MaxAttempts - (done + 1))
  {
    if SomeAttemptRegisters(reply, pos, MaxAttempts - done) {
      var k :| 0 <= k < MaxAttempts - done && RegistersAt(reply, pos, k);
      assert k != 0;
      RegistersAtShift(reply, pos, k - 1);
    }
    if SomeAttemptRegisters(reply, pos + 2, MaxAttempts - (done + 1)) {
      var k :| 0 <= k < MaxAttempts - (done + 1) && RegistersAt(reply, pos + 2, k);
      RegistersAtShift(reply, pos, k);
    }
  }

  /**
   * The loop registers exactly when one of its remaining attempts registers
   * and every attempt before it was retried.
   */
  lemma {:induction false} RegistrationLoopRegisters(reply: nat -> Reply, pos: nat, done: nat)
    requires done <= MaxAttempts
    ensures RegistrationLoop(reply, pos, done).0 <==> SomeAttemptRegisters(reply, pos, MaxAttempts - done)
    decreases MaxAttempts - done
  {
    if done == MaxAttempts {
      RegistrationLoopAtLimit(reply, pos);
    } else if RegistrationAttemptRetries(reply, pos, 0) {
      RegistrationLoopRegisters(reply, pos + 2, done + 1);
      RetriedFirstShifts(reply, pos, done);
      RegistrationRetryStep(reply, pos, done);
    } else {
      FirstAttemptDecides(reply, pos, done);
      OnlyFirstRegisters(reply, pos, done);
    }
  }

  /** Every attempt before attempt `n` is retried. */
  predicate AllAttemptsRetry(reply: nat -> Reply, pos: nat, n: nat) {
    forall k :: 0 <= k < n ==> RegistrationAttemptRetries(reply, pos, k)
  }

  /** When every one of the 101 attempts is retried, registration gives up after them. */
  lemma RegistrationGivesUpWhenExhausted(reply: nat -> Reply, pos: nat)
    requires reply(pos).Ok? && AllAttemptsRetry(reply, pos + 1, MaxAttempts)
    ensures !Registration(reply, pos).0
    ensures Registration(reply, pos).1 == pos + 1 + 2 * MaxAttempts
  {
    RegistrationLoopExhausts(reply, pos + 1, 0);
  }

  /** All remaining attempts retried: the first one is, and so are those of the loop that follows. */
  lemma AllAttemptsRetryShift(reply: nat -> Reply, pos: nat, done: nat)
    requires done < MaxAttempts && AllAttemptsRetry(reply, pos, MaxAttempts - done)
    ensures RegistrationAttemptRetries(reply, pos, 0) && AllAttemptsRetry(reply, pos + 2, MaxAttempts - (done + 1))
  {
    var next := pos + 2;
    forall k | 0 <= k < MaxAttempts - (done + 1) ensures RegistrationAttemptRetries(reply, next, k) {
      assert RegistrationAttemptRetries(reply, pos, k + 1);
    }
  }

  lemma {:induction false} RegistrationLoopExhausts(reply: nat -> Reply, pos: nat, done: nat)
    requires done <= MaxAttempts && AllAttemptsRetry(reply, pos, MaxAttempts - done)
    ensures RegistrationLoop(reply, pos, done) == (false, pos + 2 * (MaxAttempts - done))
    decreases MaxAttempts - done
  {
    if done == MaxAttempts {
      RegistrationLoopAtLimit(reply, pos);
    } else {
      AllAttemptsRetryShift(reply, pos, done);
      RegistrationLoopExhausts(reply, pos + 2, done + 1);
      RegistrationRetryStep(reply, pos, done);
    }
  }

  // ---------------------------------------------------------------------
  // Batch delivery

  /** How the delivery of one batch ends. */
  datatype BatchOutcome =
    | Delivered      // the RPC succeeded
    | Dropped        // a non-retryable status: the batch is logged and skipped
    | Exhausted      // 101 attempts were all retried
    | TokenFailed    // the token fetch failed
    | ChannelFailed  // the channel could not be created

  /** The outcomes that abort the whole export. */
  predicate IsFatal(o: BatchOutcome) {
    o == Exhausted || o == TokenFailed || o == ChannelFailed
  }

  /**
   * The batch loop after `done` attempts, its next round trip at `pos`. Each
   * attempt fetches a token, creates a channel and sends CreateTimeSeries, in
   * that order.
   */
  function BatchLoop(reply: nat -> Reply, pos: nat, done: nat): (r: (BatchOutcome, nat))
    requires done <= MaxAttempts
    decreases MaxAttempts - done
  {
    if done == MaxAttempts then (Exhausted, pos)
    else if reply(pos).Failed? then (TokenFailed, pos + 1)
    else if reply(pos + 1).Failed? then (ChannelFailed, pos + 2)
    else match reply(pos + 2)
      case Ok => (Delivered, pos + 3)
      case Failed(code) =>
        if IsRetryable(code) then BatchLoop(reply, pos + 3, done + 1) else (Dropped, pos + 3)
  }

  /**
   * A batch uses at most three round trips per attempt for at most 101
   * attempts, and an exhausted batch uses all of them.
   */
  lemma {:induction false} BatchLoopBounds(reply: nat -> Reply, pos: nat, done: nat)
    requires done <= MaxAttempts
    ensures var r := BatchLoop(reply, pos, done);
      && pos <= r.1 <= pos + 3 * (MaxAttempts - done)
      && (r.0 == Exhausted ==> r.1 == pos + 3 * (MaxAttempts - done))
    decreases MaxAttempts - done
  {
    if done == MaxAttempts {
      BatchLoopAtLimit(reply, pos);
    } else if BatchAttemptRetries(reply, pos, 0) {
      BatchLoopBounds(reply, pos + 3, done + 1);
      BatchRetryStep(reply, pos, done);
    } else {
      BatchFirstAttemptEnds(reply, pos, done);
    }
  }

  /** Attempt `k` of a batch whose first attempt starts at `pos`: token and channel ok, then a retryable code. */
  predicate BatchAttemptRetries(reply: nat -> Reply, pos: nat, k: nat) {
    && reply(pos + 3 * k).Ok? && reply(pos + 3 * k + 1).Ok?
    && reply(pos + 3 * k + 2).Failed? && IsRetryable(reply(pos + 3 * k + 2).code)
  }

  /** Every attempt of a batch before attempt `n` is retried. */
  predicate AllBatchAttemptsRetry(reply: nat -> Reply, pos: nat, n: nat) {
    forall k :: 0 <= k < n ==> BatchAttemptRetries(reply, pos, k)
  }

  /** After a retried first attempt, the remaining attempts are those of the loop that follows. */
  lemma BatchRetriesShift(reply: nat -> Reply, pos: nat, done: nat)
    requires done < MaxAttempts && BatchAttemptRetries(reply, pos, 0)
    ensures AllBatchAttemptsRetry(reply, pos, MaxAttempts - done) <==>
      AllBatchAttemptsRetry(reply, pos + 3, MaxAttempts - (done + 1))
  {
    var next, n := pos + 3, MaxAttempts - done;
    if AllBatchAttemptsRetry(reply, next, n - 1) {
      forall k | 0 <= k < n ensures BatchAttemptRetries(reply, pos, k) {
        if k > 0 {
          assert BatchAttemptRetries(reply, next, k - 1);
        }
      }
    }
    if AllBatchAttemptsRetry(reply, pos, n) {
      forall k | 0 <= k < n - 1 ensures BatchAttemptRetries(reply, next, k) {
        assert BatchAttemptRetries(reply, pos, k + 1);
      }
    }
  }

  /** A retried first attempt hands over to the loop three round trips on. */
  lemma BatchRetryStep(reply: nat -> Reply, pos: nat, done: nat)
    requires done < MaxAttempts && BatchAttemptRetries(reply, pos, 0)
    ensures BatchLoop(reply, pos, done) == BatchLoop(reply, pos + 3, done + 1)
  {
  }

  /** A batch whose first attempt is not retried ends with that attempt, not exhausted. */
  lemma BatchFirstAttemptEnds(reply: nat -> Reply, pos: nat, done: nat)
    requires done < MaxAttempts && !BatchAttemptRetries(reply, pos, 0)
    ensures BatchLoop(reply, pos, done).0 != Exhausted
    ensures pos < BatchLoop(reply, pos, done).1 <= pos + 3
    ensures !AllBatchAttemptsRetry(reply, pos, MaxAttempts - done)
  {
  }

  /** A batch with no attempts left is exhausted, all of its (no) remaining attempts retried. */
  lemma BatchLoopAtLimit(reply: nat -> Reply, pos: nat)
    ensures BatchLoop(reply, pos, MaxAttempts) == (Exhausted, pos)
    ensures AllBatchAttemptsRetry(reply, pos, MaxAttempts - MaxAttempts)
  {
  }

  /** A batch is exhausted exactly when all of its remaining attempts are retried. */
  lemma {:induction false} BatchExhaustedIff(reply: nat -> Reply, pos: nat, done: nat)
    requires done <= MaxAttempts
    ensures BatchLoop(reply, pos, done).0 == Exhausted <==> AllBatchAttemptsRetry(reply, pos, MaxAttempts - done)
    decreases MaxAttempts - done
  {
    if done == MaxAttempts {
      BatchLoopAtLimit(reply, pos);
    } else if BatchAttemptRetries(reply, pos, 0) {
      BatchExhaustedIff(reply, pos + 3, done + 1);
      BatchRetriesShift(reply, pos, done);
      BatchRetryStep(reply, pos, done);
    } else {
      BatchFirstAttemptEnds(reply, pos, done);
    }
  }

  /**
   * How attempt `k` of a batch ends when it is not retried: a failed token
   * fetch, then a failed channel, then the RPC's own answer.
   */
  function BatchAttemptOutcome(reply: nat -> Reply, pos: nat, k: nat): BatchOutcome {
    var p := pos + 3 * k;
    if reply(p).Failed? then TokenFailed
    else if reply(p + 1).Failed? then ChannelFailed
    else if reply(p + 2).Ok? then Delivered
    else Dropped
  }

  /** Every attempt before `k` is retried and attempt `k` ends the batch with `o`. */
  predicate BatchEndsAt(reply: nat -> Reply, pos: nat, k: nat, o: BatchOutcome) {
    && AllBatchAttemptsRetry(reply, pos, k)
    && !BatchAttemptRetries(reply, pos, k)
    && BatchAttemptOutcome(reply, pos, k) == o
  }

  /** One of the first `n` attempts ends the batch with `o`. */
  predicate SomeBatchAttemptEnds(reply: nat -> Reply, pos: nat, n: nat, o: BatchOutcome) {
    exists k :: 0 <= k < n && BatchEndsAt(reply, pos, k, o)
  }

  /** A batch whose first attempt is not retried ends as that attempt did, and no later attempt counts. */
  lemma BatchFirstAttemptDecides(reply: nat -> Reply, pos: nat, done: nat, o: BatchOutcome)
    requires done < MaxAttempts && !BatchAttemptRetries(reply, pos, 0)
    ensures BatchLoop(reply, pos, done).0 == BatchAttemptOutcome(reply, pos, 0)
    ensures SomeBatchAttemptEnds(reply, pos, MaxAttempts - done, o) <==> BatchAttemptOutcome(reply, pos, 0) == o
  {
    if BatchAttemptOutcome(reply, pos, 0) == o {
      assert BatchEndsAt(reply, pos, 0, o);
    }
    if SomeBatchAttemptEnds(reply, pos, MaxAttempts - done, o) {
      var k :| 0 <= k < MaxAttempts - done && BatchEndsAt(reply, pos, k, o);
      assert k == 0;
    }
  }

  /** After a retried first attempt, the attempt that ends the batch is one of the loop that follows. */
  lemma BatchEndsShift(reply: nat -> Reply, pos: nat, done: nat, o: BatchOutcome)
    requires done < MaxAttempts && BatchAttemptRetries(reply, pos, 0)
    ensures SomeBatchAttemptEnds(reply, pos, MaxAttempts - done, o) <==>
      SomeBatchAttemptEnds(reply, pos + 3, MaxAttempts - (done + 1), o)
  {
    var next, n := pos + 3, MaxAttempts - done;
    if SomeBatchAttemptEnds(reply, pos, n, o) {
      var k :| 0 <= k < n && BatchEndsAt(reply, pos, k, o);
      assert k != 0;
      BatchEndsAtShift(reply, pos, k - 1, o);
    }
    if SomeBatchAttemptEnds(reply, next, n - 1, o) {
      var k :| 0 <= k < n - 1 && BatchEndsAt(reply, next, k, o);
      BatchEndsAtShift(reply, pos, k, o);
    }
  }

  /** Attempt `k + 1` from `pos` is attempt `k` from three round trips on, given a retried first attempt. */
  lemma BatchEndsAtShift(reply: nat -> Reply, pos: nat, k: nat, o: BatchOutcome)
    requires BatchAttemptRetries(reply, pos, 0)
    ensures BatchEndsAt(reply, pos, k + 1, o) <==> BatchEndsAt(reply, pos + 3, k, o)
  {
    var next := pos + 3;
    assert pos + 3 * (k + 1) == next + 3 * k;
    forall j | 0 <= j < k ensures BatchAttemptRetries(reply, pos, j + 1) == BatchAttemptRetries(reply, next, j) {
      assert pos + 3 * (j + 1) == next + 3 * j;
    }
    if AllBatchAttemptsRetry(reply, next, k) {
      forall j | 0 <= j < k + 1 ensures BatchAttemptRetries(reply, pos, j) {
        if j > 0 {
          assert BatchAttemptRetries(reply, next, j - 1);
        }
      }
    }
    if AllBatchAttemptsRetry(reply, pos, k + 1) {
      forall j | 0 <= j < k ensures BatchAttemptRetries(reply, next, j) {
        assert BatchAttemptRetries(reply, pos, j + 1);
      }
    }
  }

  /**
   * A batch ends with a token failure, a channel failure, a delivery or a
   * drop exactly when one of its remaining attempts, all earlier ones
   * retried, ended that way.
   */
  lemma {:induction false} BatchLoopEnds(reply: nat -> Reply, pos: nat, done: nat, o: BatchOutcome)
    requires done <= MaxAttempts && o != Exhausted
    ensures BatchLoop(reply, pos, done).0 == o <==> SomeBatchAttemptEnds(reply, pos, MaxAttempts - done, o)
    decreases MaxAttempts - done
  {
    if done == MaxAttempts {
      BatchLoopAtLimit(reply, pos);
    } else if BatchAttemptRetries(reply, pos, 0) {
      BatchLoopEnds(reply, pos + 3, done + 1, o);
      BatchEndsShift(reply, pos, done, o);
      BatchRetryStep(reply, pos, done);
    } else {
      BatchFirstAttemptDecides(reply, pos, done, o);
    }
  }

  /**
   * A batch aborts the export exactly when its attempts are all retried, or
   * an attempt, all earlier ones retried, fails to get a token or a channel.
   */
  lemma BatchFatalIff(reply: nat -> Reply, pos: nat)
    ensures IsFatal(BatchLoop(reply, pos, 0).0) <==>
      || AllBatchAttemptsRetry(reply, pos, MaxAttempts)
      || SomeBatchAttemptEnds(reply, pos, MaxAttempts, TokenFailed)
      || SomeBatchAttemptEnds(reply, pos, MaxAttempts, ChannelFailed)
  {
    BatchExhaustedIff(reply, pos, 0);
    BatchLoopEnds(reply, pos, 0, TokenFailed);
    BatchLoopEnds(reply, pos, 0, ChannelFailed);
  }

  /** How an export fails. */
  datatype FailureReason = CantSendTimeSeries | CantAuthorize | CantInitChannel

  /** The result of an export, flush or shutdown. */
  datatype ExportResult = Success | InternalFailure(reason: FailureReason)

  function FailureOf(o: BatchOutcome): FailureReason
    requires IsFatal(o)
  {
    match o
    case Exhausted => CantSendTimeSeries
    case TokenFailed => CantAuthorize
    case ChannelFailed => CantInitChannel
  }

  /** How a batch whose first round trip is at a given position ends, and where the next batch starts. */
  type BatchRun = nat -> (BatchOutcome, nat)

  /** The batch loop of the service answering `reply`. */
  function BatchFrom(reply: nat -> Reply): BatchRun {
    pos => BatchLoop(reply, pos, 0)
  }

  /**
   * Delivery of `batches` batches, in order, each run by `batch`: a fatal
   * batch outcome returns its failure at once; any other outcome moves on to
   * the next batch.
   */
  function Delivery(batch: BatchRun, pos: nat, batches: nat): (r: (ExportResult, nat))
    decreases batches
  {
    if batches == 0 then (Success, pos)
    else
      var b := batch(pos);
      if IsFatal(b.0) then (InternalFailure(FailureOf(b.0)), b.1)
      else Delivery(batch, b.1, batches - 1)
  }

  /** What is left of a delivery once the current batch has ended with `b`, `rest` batches to go. */
  function AfterBatch(batch: BatchRun, b: (BatchOutcome, nat), rest: nat): (ExportResult, nat) {
    if IsFatal(b.0) then (InternalFailure(FailureOf(b.0)), b.1) else Delivery(batch, b.1, rest)
  }

  /** Lemma: a delivery with batches left is decided by how its first batch ended: a fatal outcome ends it, any other outcome moves on to the next batch. */
  lemma DeliveryStep(batch: BatchRun, pos: nat, batches: nat, b: (BatchOutcome, nat))
    requires batches > 0 && batch(pos) == b
    ensures IsFatal(b.0) ==> Delivery(batch, pos, batches) == (InternalFailure(FailureOf(b.0)), b.1)
    ensures !IsFatal(b.0) ==> Delivery(batch, pos, batches) == Delivery(batch, b.1, batches - 1)
  {
  }

  /**
   * The outcomes of the batches a delivery processes: every batch before the
   * last ends non-fatally, and fewer than all batches are processed only when
   * the last one processed was fatal.
   */
  function Outcomes(batch: BatchRun, pos: nat, batches: nat): (os: seq<BatchOutcome>)
    ensures |os| <= batches
    ensures forall i :: 0 <= i < |os| - 1 ==> !IsFatal(os[i])
    ensures |os| < batches ==> os != [] && IsFatal(os[|os| - 1])
    decreases batches
  {
    if batches == 0 then []
    else
      var b := batch(pos);
      if IsFatal(b.0) then [b.0] else [b.0] + Outcomes(batch, b.1, batches - 1)
  }

  predicate NoneFatal(os: seq<BatchOutcome>) {
    forall o :: o in os ==> !IsFatal(o)
  }

  /**
   * A delivery succeeds exactly when every batch ends non-fatally (delivered
   * or dropped); otherwise it fails with the reason of the first fatal batch,
   * after which no batch is processed.
   */
  lemma {:induction false} DeliveryFollowsOutcomes(batch: BatchRun, pos: nat, batches: nat)
    decreases batches
    ensures Delivery(batch, pos, batches).0 == Success <==>
      |Outcomes(batch, pos, batches)| == batches && NoneFatal(Outcomes(batch, pos, batches))
    ensures Delivery(batch, pos, batches).0.InternalFailure? ==>
      var os := Outcomes(batch, pos, batches);
      os != [] && Delivery(batch, pos, batches).0.reason == FailureOf(os[|os| - 1])
  {
    if batches > 0 {
      var b := batch(pos);
      var os := Outcomes(batch, pos, batches);
      var r := Delivery(batch, pos, batches);
      if !IsFatal(b.0) {
        DeliveryFollowsOutcomes(batch, b.1, batches - 1);
        var rest := Outcomes(batch, b.1, batches - 1);
        assert os == [b.0] + rest;
        if r.0.InternalFailure? {
          assert os[|os| - 1] == rest[|rest| - 1];
        }
      } else {
        assert b.0 in os;
      }
    }
  }

  // ---------------------------------------------------------------------
  // Batching

  function Concat<T>(chunks: seq<seq<T>>): seq<T> {
    if chunks == [] then [] else chunks[0] + Concat(chunks[1..])
  }

  /**
   * `chunks(n)`: consecutive pieces of `s`, each non-empty and at most `n`
   * long, all but the last exactly `n` long, which concatenate back to `s`.
   */
  function Chunks<T>(s: seq<T>, n: nat): (chunks: seq<seq<T>>)
    requires n > 0
    ensures Concat(chunks) == s
    ensures forall i :: 0 <= i < |chunks| ==> 0 < |chunks[i]| <= n
    ensures forall i :: 0 <= i < |chunks| - 1 ==> |chunks[i]| == n
    decreases |s|
  {
    if s == [] then []
    else if |s| <= n then [s]
    else
      var rest := Chunks(s[n..], n);
      assert Concat([s[..n]] + rest) == s[..n] + Concat(rest) by {
        assert ([s[..n]] + rest)[1..] == rest;
      }
      [s[..n]] + rest
  }
}
