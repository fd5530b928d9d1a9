/**
 * The meaning of one `Search` call, independent of the store's map: the scan of a given
 * sequence of records, one `Step` per record. The store's method is proved to behave as
 * this scan over some enumeration of its keys.
 */
module Scan {
  import opened Wrappers
  import opened Pb
  import opened Qualify
  import opened Copier

  /**
   * What the outside world answers during a scan: whether the context is cancelled or past
   * its deadline when checked before record number `n`; whether copying record number `n`
   * fails; and what the consumer returns on its `n`-th call with a given laptop.
   */
  datatype Env = Env(
    cancelled: nat -> bool,
    copyFault: nat -> Option<string>,
    found: (nat, Laptop) -> Option<Error>)

  /**
   * The scan so far: still going after `step` records, or stopped with the error `Search`
   * returns (`None` when stopped by cancellation). `delivered` lists the consumer's calls.
   */
  datatype ScanState =
    | Scanning(step: nat, delivered: seq<Laptop>)
    | Stopped(err: Option<Error>, delivered: seq<Laptop>)

  /** The error `Search` returns when the scan ends in `st`. */
  function ErrorOf(st: ScanState): Option<Error>
  {
    if st.Stopped? then st.err else None
  }

  /** The loop body of `Search` for one record. */
  function Step(filter: Filter, env: Env, st: ScanState, laptop: Laptop): ScanState
  {
    match st
    case Stopped(_, _) => st
    case Scanning(step, calls) =>
      if env.cancelled(step) then Stopped(None, calls)
      else if !IsQualified(filter, laptop) then Scanning(step + 1, calls)
      else match DeepCopy(laptop, env.copyFault(step))
        case Failure(e) => Stopped(Some(e), calls)
        case Success(other) =>
          match env.found(|calls|, other)
          case Some(e) => Stopped(Some(e), calls + [other])
          case None => Scanning(step + 1, calls + [other])
  }

  /** The scan of `records` in order, from the start. */
  function Run(filter: Filter, env: Env, records: seq<Laptop>): (r: ScanState)
    ensures r.Scanning? ==> r.step == |records|
    ensures |r.delivered| <= |records|
  {
    if records == [] then Scanning(0, [])
    else Step(filter, env, Run(filter, env, records[..|records| - 1]), records[|records| - 1])
  }

  /** Scanning one more record is one more `Step`. */
  lemma RunAppend(filter: Filter, env: Env, records: seq<Laptop>, laptop: Laptop)
    ensures Run(filter, env, records + [laptop]) == Step(filter, env, Run(filter, env, records), laptop)
  {
    assert (records + [laptop])[..|records|] == records;
  }

  /** The records a filter selects, in their original order. */
  function Qualifying(filter: Filter, records: seq<Laptop>): (r: seq<Laptop>)
    ensures forall x :: x in r <==> x in records && IsQualified(filter, x)
  {
    if records == [] then []
    else
      var last := records[|records| - 1];
      Qualifying(filter, records[..|records| - 1]) + (if IsQualified(filter, last) then [last] else [])
  }

  /** The consumer never fails, no copy fails and the context stays live for `n` records. */
  ghost predicate Quiet(env: Env, n: nat)
  {
    && (forall i :: 0 <= i < n ==> !env.cancelled(i) && env.copyFault(i).None?)
    && (forall i, laptop :: 0 <= i < n ==> env.found(i, laptop).None?)
  }

  /**
   * With a quiet environment the scan runs to the end and calls the consumer once for each
   * qualifying record, in order, and for no other.
   */
  lemma {:induction false} RunQuiet(filter: Filter, env: Env, records: seq<Laptop>)
    requires Quiet(env, |records|)
    ensures Run(filter, env, records) == Scanning(|records|, Qualifying(filter, records))
  {
    if records != [] {
      var init := records[..|records| - 1];
      RunQuiet(filter, env, init);
      assert |Qualifying(filter, init)| <= |init| by { QualifyingLength(filter, init); }
    }
  }

  /** A filter keeps at most as many records as it is given. */
  lemma {:induction false} QualifyingLength(filter: Filter, records: seq<Laptop>)
    ensures |Qualifying(filter, records)| <= |records|
  {
    if records != [] {
      QualifyingLength(filter, records[..|records| - 1]);
    }
  }

  /**
   * Every consumer call is on a qualifying record: the calls made are a prefix of the
   * qualifying records, and all of them while the scan is still going.
   */
  lemma {:induction false} RunDeliversQualifyingPrefix(filter: Filter, env: Env, records: seq<Laptop>)
    ensures Run(filter, env, records).delivered <= Qualifying(filter, records)
    ensures Run(filter, env, records).Scanning? ==> Run(filter, env, records).delivered == Qualifying(filter, records)
  {
    if records != [] {
      RunDeliversQualifyingPrefix(filter, env, records[..|records| - 1]);
    }
  }

  /** Once the scan has stopped, later records change nothing: no further consumer calls. */
  lemma {:induction false} StoppedStaysStopped(filter: Filter, env: Env, done: seq<Laptop>, rest: seq<Laptop>)
    requires Run(filter, env, done).Stopped?
    ensures Run(filter, env, done + rest) == Run(filter, env, done)
    decreases |rest|
  {
    if rest != [] {
      var init := rest[..|rest| - 1];
      StoppedStaysStopped(filter, env, done, init);
      assert (done + rest)[..|done + rest| - 1] == done + init;
    } else {
      assert done + rest == done;
    }
  }

  /** Splitting the records at `k`: the scan of all of them continues the scan of the first `k`. */
  lemma RunSplit(filter: Filter, env: Env, records: seq<Laptop>, k: nat)
    requires k < |records|
    ensures Run(filter, env, records[..k + 1]) == Step(filter, env, Run(filter, env, records[..k]), records[k])
  {
    assert records[..k + 1][..k] == records[..k];
  }

  /**
   * When the consumer fails on record `k`, the scan returns exactly that error and the
   * failing call is the last one.
   */
  lemma ConsumerErrorIsReturned(filter: Filter, env: Env, records: seq<Laptop>, k: nat, e: Error)
    requires k < |records|
    requires Run(filter, env, records[..k]).Scanning?
    requires !env.cancelled(k) && IsQualified(filter, records[k]) && env.copyFault(k).None?
    requires env.found(|Run(filter, env, records[..k]).delivered|, records[k]) == Some(e)
    ensures Run(filter, env, records) == Stopped(Some(e), Run(filter, env, records[..k]).delivered + [records[k]])
  {
    RunSplit(filter, env, records, k);
    StoppedStaysStopped(filter, env, records[..k + 1], records[k + 1..]);
    assert records[..k + 1] + records[k + 1..] == records;
  }

  /**
   * When the context is found cancelled before record `k`, the scan returns no error, makes
   * no further consumer calls, and every call it made was on a qualifying record.
   */
  lemma CancellationIsSilent(filter: Filter, env: Env, records: seq<Laptop>, k: nat)
    requires k < |records|
    requires Run(filter, env, records[..k]).Scanning?
    requires env.cancelled(k)
    ensures Run(filter, env, records) == Stopped(None, Run(filter, env, records[..k]).delivered)
    ensures forall x :: x in Run(filter, env, records).delivered ==> x in records && IsQualified(filter, x)
  {
    RunSplit(filter, env, records, k);
    StoppedStaysStopped(filter, env, records[..k + 1], records[k + 1..]);
    assert records[..k + 1] + records[k + 1..] == records;
    RunDeliversQualifyingPrefix(filter, env, records);
  }

  /**
   * When copying qualifying record `k` fails, the scan returns the wrapped copy error and
   * the consumer is not called for it or for any later record.
   */
  lemma CopyFailureIsReturned(filter: Filter, env: Env, records: seq<Laptop>, k: nat)
    requires k < |records|
    requires Run(filter, env, records[..k]).Scanning?
    requires !env.cancelled(k) && IsQualified(filter, records[k]) && env.copyFault(k).Some?
    ensures Run(filter, env, records) == Stopped(Some(CopyFailure(env.copyFault(k).value)), Run(filter, env, records[..k]).delivered)
  {
    RunSplit(filter, env, records, k);
    StoppedStaysStopped(filter, env, records[..k + 1], records[k + 1..]);
    assert records[..k + 1] + records[k + 1..] == records;
  }
}
