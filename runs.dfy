/**
 * The shape shared by the generators: a loop over n draws that builds at
 * most one record per draw, keeps them in draw order, and stops at the
 * first exception.
 */
module Runs {
  import opened Records

  /** The records of n iterations of a loop body that cannot raise, in order, the k-th (from 0) built by `record(k)`. */
  function Numbered(n: nat, record: nat -> Record): (rs: seq<Record>)
    ensures |rs| == n
  {
    if n == 0 then [] else Numbered(n - 1, record) + [record(n - 1)]
  }

  /** The k-th record of such a run is the one iteration k built. */
  lemma {:induction false} NumberedAt(n: nat, record: nat -> Record, k: nat)
    requires k < n
    ensures Numbered(n, record)[k] == record(k)
  {
    if k < n - 1 {
      NumberedAt(n - 1, record, k);
    }
  }

  /** As `Numbered`, for a loop body that can raise: the records built from draws 0 .. n-1 in order, or the exception of the first draw that fails. */
  function Collect<D>(step: D -> Result<Record, GenError>, n: nat, draws: nat -> D): Result<seq<Record>, GenError> {
    if n == 0 then Ok([])
    else
      match Collect(step, n - 1, draws)
      case Err(e) => Err(e)
      case Ok(rs) =>
        match step(draws(n - 1))
        case Err(e) => Err(e)
        case Ok(r) => Ok(rs + [r])
  }

  /** Once a draw fails, every longer run fails with the same exception. */
  lemma {:induction false} CollectErrorPersists<D>(step: D -> Result<Record, GenError>, m: nat, n: nat, draws: nat -> D)
    requires m <= n && Collect(step, m, draws).Err?
    ensures Collect(step, n, draws) == Collect(step, m, draws)
    decreases n - m
  {
    if m < n {
      CollectErrorPersists(step, m, n - 1, draws);
    }
  }

  /** A successful run of n draws holds n records, the k-th built from draw k. */
  lemma {:induction false} CollectAt<D>(step: D -> Result<Record, GenError>, n: nat, draws: nat -> D)
    requires Collect(step, n, draws).Ok?
    ensures |Collect(step, n, draws).value| == n
    ensures forall k :: 0 <= k < n ==> step(draws(k)) == Ok(Collect(step, n, draws).value[k])
  {
    if n > 0 {
      CollectAt(step, n - 1, draws);
    }
  }

  /** A run fails exactly when some draw fails; then it is the first failing draw's exception. */
  lemma {:induction false} CollectFails<D>(step: D -> Result<Record, GenError>, n: nat, draws: nat -> D, k: nat)
    requires k < n && step(draws(k)).Err?
    requires forall j :: 0 <= j < k ==> step(draws(j)).Ok?
    ensures Collect(step, n, draws) == Err(step(draws(k)).error)
  {
    CollectSucceeds(step, k, draws);
    CollectErrorPersists(step, k + 1, n, draws);
  }

  lemma {:induction false} CollectSucceeds<D>(step: D -> Result<Record, GenError>, n: nat, draws: nat -> D)
    requires forall j :: 0 <= j < n ==> step(draws(j)).Ok?
    ensures Collect(step, n, draws).Ok?
  {
    if n > 0 {
      CollectSucceeds(step, n - 1, draws);
    }
  }

  // ---------------------------------------------------------------------
  // Draws that may build no record
  // ---------------------------------------------------------------------

  /** Whether a draw's outcome is a record to keep. */
  predicate Keeps(outcome: Result<Option<Record>, GenError>) {
    outcome.Ok? && outcome.value.Some?
  }

  /**
   * The records kept from draws 0 .. n-1 in order, skipping draws that build
   * none, or the exception of the first draw that fails.
   */
  function CollectSome<D>(step: D -> Result<Option<Record>, GenError>, n: nat, draws: nat -> D): Result<seq<Record>, GenError> {
    if n == 0 then Ok([])
    else
      match CollectSome(step, n - 1, draws)
      case Err(e) => Err(e)
      case Ok(rs) =>
        match step(draws(n - 1))
        case Err(e) => Err(e)
        case Ok(None) => Ok(rs)
        case Ok(Some(r)) => Ok(rs + [r])
  }

  /** The indices, in increasing order, of the draws among 0 .. n-1 that keep a record. */
  function KeptDraws<D>(step: D -> Result<Option<Record>, GenError>, n: nat, draws: nat -> D): (ks: seq<nat>)
    ensures |ks| <= n
  {
    if n == 0 then []
    else KeptDraws(step, n - 1, draws) + (if Keeps(step(draws(n - 1))) then [n - 1] else [])
  }

  lemma {:induction false} CollectSomeErrorPersists<D>(step: D -> Result<Option<Record>, GenError>, m: nat, n: nat, draws: nat -> D)
    requires m <= n && CollectSome(step, m, draws).Err?
    ensures CollectSome(step, n, draws) == CollectSome(step, m, draws)
    decreases n - m
  {
    if m < n {
      CollectSomeErrorPersists(step, m, n - 1, draws);
    }
  }

  /** The kept draws are below n and strictly increasing, and each of them keeps a record. */
  lemma {:induction false} KeptDrawsOrdered<D>(step: D -> Result<Option<Record>, GenError>, n: nat, draws: nat -> D)
    ensures forall k :: 0 <= k < |KeptDraws(step, n, draws)| ==> KeptDraws(step, n, draws)[k] < n
    ensures forall k :: 0 <= k < |KeptDraws(step, n, draws)| ==> Keeps(step(draws(KeptDraws(step, n, draws)[k])))
    ensures forall j, k :: 0 <= j < k < |KeptDraws(step, n, draws)| ==> KeptDraws(step, n, draws)[j] < KeptDraws(step, n, draws)[k]
  {
    if n > 0 {
      KeptDrawsOrdered(step, n - 1, draws);
      var ks := KeptDraws(step, n - 1, draws);
      var ks' := KeptDraws(step, n, draws);
      assert forall k :: 0 <= k < |ks| ==> ks'[k] == ks[k];
      if Keeps(step(draws(n - 1))) {
        assert ks' == ks + [n - 1];
      } else {
        assert ks' == ks;
      }
    }
  }

  /**
   * A successful run holds one record per kept draw, in the order of the
   * draws: the k-th record is the one built by the k-th kept draw.
   */
  lemma {:induction false} CollectSomeAt<D>(step: D -> Result<Option<Record>, GenError>, n: nat, draws: nat -> D)
    requires CollectSome(step, n, draws).Ok?
    ensures |CollectSome(step, n, draws).value| == |KeptDraws(step, n, draws)|
    ensures forall k :: 0 <= k < |KeptDraws(step, n, draws)| ==>
      step(draws(KeptDraws(step, n, draws)[k])) == Ok(Some(CollectSome(step, n, draws).value[k]))
  {
    if n > 0 {
      CollectSomeAt(step, n - 1, draws);
      var rs := CollectSome(step, n - 1, draws).value;
      var ks := KeptDraws(step, n - 1, draws);
      if Keeps(step(draws(n - 1))) {
        assert CollectSome(step, n, draws).value == rs + [step(draws(n - 1)).value.value];
        assert KeptDraws(step, n, draws) == ks + [n - 1];
      } else {
        assert KeptDraws(step, n, draws) == ks;
      }
    }
  }

  /** A run in which no draw fails succeeds. */
  lemma {:induction false} CollectSomeSucceeds<D>(step: D -> Result<Option<Record>, GenError>, n: nat, draws: nat -> D)
    requires forall j :: 0 <= j < n ==> step(draws(j)).Ok?
    ensures CollectSome(step, n, draws).Ok?
  {
    if n > 0 {
      CollectSomeSucceeds(step, n - 1, draws);
    }
  }

  /** A run fails with the first failing draw's exception, whatever the draws after it. */
  lemma CollectSomeFails<D>(step: D -> Result<Option<Record>, GenError>, n: nat, draws: nat -> D, k: nat)
    requires k < n && step(draws(k)).Err?
    requires forall j :: 0 <= j < k ==> step(draws(j)).Ok?
    ensures CollectSome(step, n, draws) == Err(step(draws(k)).error)
  {
    CollectSomeSucceeds(step, k, draws);
    CollectSomeErrorPersists(step, k + 1, n, draws);
  }
}
