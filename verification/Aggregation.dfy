/** Comparing three observers, and what the observation protocol guarantees about the comparison. */
module Aggregation {
  import opened Wrappers
  import opened Hashing
  import opened ObservationProtocol
  import opened ObservationStream

  /** A signed receipt: the node its signature recovers to, if the signature verifies, and its result. */
  datatype Receipt = Receipt(taskId: string, signer: Option<string>, completed: bool, result: Observed)

  datatype AggregateError =
    | QuorumMissing | InvalidSignature | UnexpectedObserver | DuplicateObserver | ReceiptRejected | ObservationMismatch

  /** The error receipt `i` raises, given the ones before it. */
  function ReceiptFault(rs: seq<Receipt>, expected: set<string>, i: nat): Option<AggregateError>
    requires i < |rs|
  {
    var r := rs[i];
    if r.signer.None? then Some(InvalidSignature)
    else if r.signer.value !in expected then Some(UnexpectedObserver)
    else if exists j | 0 <= j < i :: rs[j].signer == r.signer then Some(DuplicateObserver)
    else if !r.completed then Some(ReceiptRejected)
    else if i > 0 && r.result != rs[0].result then Some(ObservationMismatch)
    else None
  }

  /** `aggregate_observations`: the common result, or the first fault. */
  method AggregateObservations(rs: seq<Receipt>, expected: set<string>) returns (r: Result<Observed, AggregateError>)
    ensures r == Err(QuorumMissing) <==> |rs| != 3
    ensures r.Ok? <==> |rs| == 3 && forall i | 0 <= i < 3 :: ReceiptFault(rs, expected, i).None?
    ensures r.Ok? ==> forall i | 0 <= i < 3 :: rs[i].result == r.value
    ensures r.Ok? ==> forall i, j | 0 <= i < j < 3 :: rs[i].signer != rs[j].signer
    ensures |rs| == 3 && r.Err? ==>
              exists i | 0 <= i < 3 :: ReceiptFault(rs, expected, i) == Some(r.error)
                && forall j | 0 <= j < i :: ReceiptFault(rs, expected, j).None?
  {
    if |rs| != 3 {
      return Err(QuorumMissing);
    }
    var nodes: set<string> := {};
    var canonical: Option<Observed> := None;
    var i := 0;
    while i < |rs|
      invariant 0 <= i <= |rs|
      invariant forall j | 0 <= j < i :: ReceiptFault(rs, expected, j).None?
      invariant forall n :: n in nodes <==> exists j | 0 <= j < i :: rs[j].signer == Some(n)
      invariant canonical == if i == 0 then None else Some(rs[0].result)
      invariant forall j | 0 <= j < i :: rs[j].result == rs[0].result
    {
      var receipt := rs[i];
      if receipt.signer.None? {
        assert ReceiptFault(rs, expected, i) == Some(InvalidSignature);
        return Err(InvalidSignature);
      }
      var node := receipt.signer.value;
      if node !in expected {
        assert ReceiptFault(rs, expected, i) == Some(UnexpectedObserver);
        return Err(UnexpectedObserver);
      }
      if node in nodes {
        assert ReceiptFault(rs, expected, i) == Some(DuplicateObserver);
        return Err(DuplicateObserver);
      }
      if !receipt.completed {
        assert ReceiptFault(rs, expected, i) == Some(ReceiptRejected);
        return Err(ReceiptRejected);
      }
      if canonical.None? {
        canonical := Some(receipt.result);
      } else if receipt.result != canonical.value {
        assert ReceiptFault(rs, expected, i) == Some(ObservationMismatch);
        return Err(ObservationMismatch);
      }
      assert ReceiptFault(rs, expected, i).None?;
      nodes := nodes + {node};
      i := i + 1;
    }
    forall i, j | 0 <= i < j < 3
      ensures rs[i].signer != rs[j].signer
    {
      assert ReceiptFault(rs, expected, j).None?;
    }
    return Ok(canonical.value);
  }

  // ---------------------------------------------------------------- the protocol the repository runs

  /** Receipts whose results come from three observers of one run, whenever each of them returned, never mismatch
      as long as a single revision of the bundle exists. */
  lemma AgreeingObserversAggregate(h: Hashes, sessionId: string, tasks: seq<Task>, steps: seq<Step>,
                                   times: seq<nat>, observers: seq<nat>, rs: seq<Receipt>, expected: set<string>,
                                   i: nat)
    requires OneRevision(LiveSetup(h, sessionId), Run(LiveSetup(h, sessionId), tasks, steps).w)
    requires |rs| == |observers| == |times| == 3 && i < 3
    requires forall k | 0 <= k < 3 :: Returned(LiveSetup(h, sessionId), tasks, steps, times[k], observers[k])
                                      && ResultAt(LiveSetup(h, sessionId), tasks, steps, times[k], observers[k])
                                        == rs[k].result
    ensures ReceiptFault(rs, expected, i) != Some(ObservationMismatch)
  {
    LiveSetupLawful(h, sessionId);
    ObserversAgree(LiveSetup(h, sessionId), tasks, steps, times[0], observers[0], times[i], observers[i]);
  }
}
