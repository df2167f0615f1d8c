/**
 * The diff-polling pool detector (`RaydiumPoolListener::start_listening`):
 * a snapshot of the pool accounts is taken at start; on every tick a new
 * snapshot is taken, each address in it that the previous snapshot did not
 * hold is handed to the pool handler, and the new snapshot replaces the old.
 *
 * The node is not part of the model: each tick carries its answer to the
 * snapshot query and to the handler's account fetch.
 */
module PoolListener {
  import opened Wrappers
  import opened Errors
  import opened Sequences

  /** A pool account address (its base58 text; equal keys have equal text). */
  type Address = string

  /** The data of an account as the node returns it. */
  datatype Account = Account(data: seq<bv8>)

  /** `get_existing_pools`: the addresses of the returned accounts, in the order returned, data discarded. */
  function GetExistingPools(response: Result<seq<(Address, Account)>, Error>): (r: Result<seq<Address>, Error>)
    ensures response.Failure? ==> r == Failure(response.error)
    ensures response.Success? ==>
      r.Success? && |r.value| == |response.value| &&
      forall i :: 0 <= i < |response.value| ==> r.value[i] == response.value[i].0
  {
    match response
    case Failure(e) => Failure(e)
    case Success(accounts) => Success(seq(|accounts|, i requires 0 <= i < |accounts| => accounts[i].0))
  }

  /** `process_new_pool`: fails exactly when the fetch of the pool's account fails. */
  function ProcessNewPool(fetched: Result<Account, Error>): (r: Outcome<Error>)
    ensures r.Pass? <==> fetched.Success?
    ensures r.Fail? ==> r.error == fetched.error
  {
    match fetched
    case Failure(e) => Fail(e)
    case Success(_) => Pass
  }

  /** The addresses of `current` that are not in `known`, in the order of `current`, once per occurrence. */
  function NewPools(known: seq<Address>, current: seq<Address>): seq<Address> {
    if current == [] then []
    else (if current[0] in known then [] else [current[0]]) + NewPools(known, current[1..])
  }

  /** An address is reported exactly when it is in the current snapshot and not in the known one. */
  lemma {:induction false} NewPoolsMembership(known: seq<Address>, current: seq<Address>, a: Address)
    ensures a in NewPools(known, current) <==> a in current && a !in known
  {
    if current != [] {
      NewPoolsMembership(known, current[1..], a);
      assert current == [current[0]] + current[1..];
    }
  }

  /** An unknown address is reported once per occurrence in the snapshot; a known one never. */
  lemma {:induction false} NewPoolsOccurrences(known: seq<Address>, current: seq<Address>, a: Address)
    ensures multiset(NewPools(known, current))[a] == if a in known then 0 else multiset(current)[a]
  {
    if current != [] {
      NewPoolsOccurrences(known, current[1..], a);
      assert current == [current[0]] + current[1..];
    }
  }

  /** Checking a snapshot piecewise gives the pieces' reports one after the other: snapshot order is kept. */
  lemma {:induction false} NewPoolsAppend(known: seq<Address>, c1: seq<Address>, c2: seq<Address>)
    ensures NewPools(known, c1 + c2) == NewPools(known, c1) + NewPools(known, c2)
  {
    if c1 == [] {
      assert c1 + c2 == c2;
    } else {
      var head := if c1[0] in known then [] else [c1[0]];
      assert (c1 + c2)[0] == c1[0];
      assert (c1 + c2)[1..] == c1[1..] + c2;
      NewPoolsAppend(known, c1[1..], c2);
      calc {
        NewPools(known, c1 + c2);
        head + NewPools(known, c1[1..] + c2);
        head + (NewPools(known, c1[1..]) + NewPools(known, c2));
        (head + NewPools(known, c1[1..])) + NewPools(known, c2);
        NewPools(known, c1) + NewPools(known, c2);
      }
    }
  }

  /** The addresses handed to the handler in one tick, and how the tick ended. */
  datatype Processing = Processing(processed: seq<Address>, outcome: Outcome<Error>)

  /** The `for` loop of one tick: hand each pending address to the handler; the first failure ends it. */
  function ProcessAll(pending: seq<Address>, fetchAccount: Address -> Result<Account, Error>): Processing {
    if pending == [] then Processing([], Pass)
    else
      var first := ProcessNewPool(fetchAccount(pending[0]));
      if first.Fail? then Processing([pending[0]], first)
      else
        var rest := ProcessAll(pending[1..], fetchAccount);
        Processing([pending[0]] + rest.processed, rest.outcome)
  }

  /**
   * A tick's handling passes exactly when every pending address is handled
   * successfully, and then every one was handled; otherwise it handled a
   * prefix of them and stopped at the first that failed, with that error.
   */
  lemma {:induction false} ProcessAllStopsAtFirstFailure(pending: seq<Address>, fetchAccount: Address -> Result<Account, Error>)
    ensures var p := ProcessAll(pending, fetchAccount);
      && (p.outcome.Pass? <==> forall k :: 0 <= k < |pending| ==> ProcessNewPool(fetchAccount(pending[k])).Pass?)
      && (p.outcome.Pass? ==> p.processed == pending)
      && (p.outcome.Fail? ==>
        && 0 < |p.processed| <= |pending|
        && p.processed == pending[..|p.processed|]
        && p.outcome == ProcessNewPool(fetchAccount(pending[|p.processed| - 1]))
        && forall k :: 0 <= k < |p.processed| - 1 ==> ProcessNewPool(fetchAccount(pending[k])).Pass?)
  {
    if pending != [] {
      var first := ProcessNewPool(fetchAccount(pending[0]));
      if first.Pass? {
        ProcessAllStopsAtFirstFailure(pending[1..], fetchAccount);
        assert forall k :: 1 <= k < |pending| ==> pending[k] == pending[1..][k - 1];
        var rest := ProcessAll(pending[1..], fetchAccount);
        if rest.outcome.Fail? {
          assert pending[..|rest.processed| + 1] == [pending[0]] + pending[1..][..|rest.processed|];
        }
      }
    }
  }

  /** Handling a list piecewise: the second piece is reached only if the first passed. */
  lemma {:induction false} ProcessAllAppend(a: seq<Address>, b: seq<Address>, fetchAccount: Address -> Result<Account, Error>)
    ensures ProcessAll(a + b, fetchAccount) ==
      var pa := ProcessAll(a, fetchAccount);
      if pa.outcome.Fail? then pa
      else Processing(a + ProcessAll(b, fetchAccount).processed, ProcessAll(b, fetchAccount).outcome)
  {
    if a == [] {
      assert a + b == b;
    } else {
      assert (a + b)[0] == a[0];
      assert (a + b)[1..] == a[1..] + b;
      ProcessAllAppend(a[1..], b, fetchAccount);
      var first := ProcessNewPool(fetchAccount(a[0]));
      if first.Pass? {
        var tail := ProcessAll(a[1..], fetchAccount);
        var whole := ProcessAll(a[1..] + b, fetchAccount);
        assert ProcessAll(a + b, fetchAccount) == Processing([a[0]] + whole.processed, whole.outcome);
        assert ProcessAll(a, fetchAccount) == Processing([a[0]] + tail.processed, tail.outcome);
        if tail.outcome.Pass? {
          ProcessAllStopsAtFirstFailure(a[1..], fetchAccount);
          assert [a[0]] + (a[1..] + ProcessAll(b, fetchAccount).processed) == a + ProcessAll(b, fetchAccount).processed;
        }
      }
    }
  }

  /** One step of the tick's loop: the effect of checking `current[i]` after `current[..i]` all passed. */
  lemma TickStep(known: seq<Address>, current: seq<Address>, i: nat,
                 fetchAccount: Address -> Result<Account, Error>, processed: seq<Address>)
    requires i < |current|
    requires ProcessAll(NewPools(known, current[..i]), fetchAccount) == Processing(processed, Pass)
    ensures current[i] in known ==>
      ProcessAll(NewPools(known, current[..i + 1]), fetchAccount) == Processing(processed, Pass)
    ensures current[i] !in known && ProcessNewPool(fetchAccount(current[i])).Pass? ==>
      ProcessAll(NewPools(known, current[..i + 1]), fetchAccount) == Processing(processed + [current[i]], Pass)
    ensures current[i] !in known && ProcessNewPool(fetchAccount(current[i])).Fail? ==>
      ProcessAll(NewPools(known, current), fetchAccount)
        == Processing(processed + [current[i]], ProcessNewPool(fetchAccount(current[i])))
  {
    var pool := current[i];
    var before := NewPools(known, current[..i]);
    assert current[..i + 1] == current[..i] + [pool];
    NewPoolsAppend(known, current[..i], [pool]);
    assert NewPools(known, [pool]) == (if pool in known then [] else [pool]) + NewPools(known, []);
    if pool !in known {
      ProcessAllAppend(before, [pool], fetchAccount);
      ProcessAllStopsAtFirstFailure(before, fetchAccount);
      var one := ProcessAll([pool], fetchAccount);
      assert [pool][1..] == [];
      if ProcessNewPool(fetchAccount(pool)).Fail? {
        assert one == Processing([pool], ProcessNewPool(fetchAccount(pool)));
        assert NewPools(known, current[..i + 1]) == before + [pool];
        assert ProcessAll(before + [pool], fetchAccount) == Processing(processed + [pool], one.outcome);
        assert current == current[..i + 1] + current[i + 1..];
        NewPoolsAppend(known, current[..i + 1], current[i + 1..]);
        ProcessAllAppend(before + [pool], NewPools(known, current[i + 1..]), fetchAccount);
      } else {
        assert one == Processing([pool], Pass);
      }
    } else {
      assert before + [] == before;
    }
  }

  /** The detector's state: the last snapshot (`known_pools`). */
  class PoolDiff {
    var known: seq<Address>

    /** The initial snapshot becomes the known set; nothing is reported for it. */
    constructor (initial: seq<Address>)
      ensures known == initial
    {
      known := initial;
    }

    /**
     * One tick over the snapshot `current`: hand every address not in
     * `known` to the handler, in snapshot order; stop at the first failure.
     * After a complete tick `known` is replaced by `current`.
     */
    method Tick(current: seq<Address>, fetchAccount: Address -> Result<Account, Error>)
      returns (processed: seq<Address>, r: Outcome<Error>)
      modifies this
      ensures Processing(processed, r) == ProcessAll(NewPools(old(known), current), fetchAccount)
      ensures known == if r.Pass? then current else old(known)
    {
      processed := [];
      var i := 0;
      while i < |current|
        invariant 0 <= i <= |current|
        invariant known == old(known)
        invariant ProcessAll(NewPools(known, current[..i]), fetchAccount) == Processing(processed, Pass)
      {
        var pool := current[i];
        TickStep(known, current, i, fetchAccount, processed);
        if pool !in known {
          processed := processed + [pool];
          r := ProcessNewPool(fetchAccount(pool));
          if r.Fail? {
            return;
          }
        }
        i := i + 1;
      }
      assert current[..i] == current;
      known := current;
      r := Pass;
    }
  }

  /** What the node answers during one tick: the snapshot query, and the handler's account fetches. */
  datatype TickInput = TickInput(
    snapshot: Result<seq<(Address, Account)>, Error>,
    fetchAccount: Address -> Result<Account, Error>)

  /** The `loop` of `start_listening` over the observed ticks, from the snapshot `known`. */
  function Poll(known: seq<Address>, ticks: seq<TickInput>): Processing
    decreases |ticks|
  {
    if ticks == [] then Processing([], Pass)
    else
      match GetExistingPools(ticks[0].snapshot)
      case Failure(e) => Processing([], Fail(e))
      case Success(current) =>
        var p := ProcessAll(NewPools(known, current), ticks[0].fetchAccount);
        if p.outcome.Fail? then p
        else
          var rest := Poll(current, ticks[1..]);
          Processing(p.processed + rest.processed, rest.outcome)
  }

  /** The run from the `i`-th tick on: that tick's snapshot and handling, then the rest from the new snapshot. */
  lemma PollAt(known: seq<Address>, ticks: seq<TickInput>, i: nat)
    requires i < |ticks|
    ensures GetExistingPools(ticks[i].snapshot).Failure? ==>
      Poll(known, ticks[i..]) == Processing([], Fail(GetExistingPools(ticks[i].snapshot).error))
    ensures GetExistingPools(ticks[i].snapshot).Success? ==>
      var current := GetExistingPools(ticks[i].snapshot).value;
      var p := ProcessAll(NewPools(known, current), ticks[i].fetchAccount);
      && (p.outcome.Fail? ==> Poll(known, ticks[i..]) == p)
      && (p.outcome.Pass? ==>
            Poll(known, ticks[i..]) == Processing(p.processed + Poll(current, ticks[i + 1..]).processed,
                                                  Poll(current, ticks[i + 1..]).outcome))
  {
    assert ticks[i..][0] == ticks[i] && ticks[i..][1..] == ticks[i + 1..];
  }

  /** `start_listening`: the initial snapshot, then the ticks. */
  function Listen(initial: Result<seq<(Address, Account)>, Error>, ticks: seq<TickInput>): Processing {
    match GetExistingPools(initial)
    case Failure(e) => Processing([], Fail(e))
    case Success(known) => Poll(known, ticks)
  }

  /**
   * `start_listening` over the ticks observed so far. The source loops for
   * ever; here the run returns `Pass` when the observed ticks run out, and
   * the first error ends it, as in the source.
   */
  method StartListening(initial: Result<seq<(Address, Account)>, Error>, ticks: seq<TickInput>)
    returns (processed: seq<Address>, r: Outcome<Error>)
    ensures Processing(processed, r) == Listen(initial, ticks)
  {
    var snapshot := GetExistingPools(initial);
    if snapshot.Failure? {
      return [], Fail(snapshot.error);
    }
    var diff := new PoolDiff(snapshot.value);
    processed := [];
    var i := 0;
    while i < |ticks|
      invariant 0 <= i <= |ticks|
      invariant Listen(initial, ticks) ==
        var rest := Poll(diff.known, ticks[i..]);
        Processing(processed + rest.processed, rest.outcome)
    {
      PollAt(diff.known, ticks, i);
      var current := GetExistingPools(ticks[i].snapshot);
      if current.Failure? {
        return processed, Fail(current.error);
      }
      var handled, outcome := diff.Tick(current.value, ticks[i].fetchAccount);
      AppendAssociative(processed, handled, Poll(current.value, ticks[i + 1..]).processed);
      processed := processed + handled;
      if outcome.Fail? {
        return processed, outcome;
      }
      i := i + 1;
    }
    assert ticks[i..] == [];
    r := Pass;
  }

  /** Once a run has failed, later ticks change nothing: no tick runs after an error. */
  lemma {:induction false} FailureIsFinal(known: seq<Address>, ticks: seq<TickInput>, more: seq<TickInput>)
    requires Poll(known, ticks).outcome.Fail?
    ensures Poll(known, ticks + more) == Poll(known, ticks)
    decreases |ticks|
  {
    assert (ticks + more)[0] == ticks[0];
    match GetExistingPools(ticks[0].snapshot)
    case Failure(e) =>
    case Success(current) =>
      var p := ProcessAll(NewPools(known, current), ticks[0].fetchAccount);
      if p.outcome.Pass? {
        assert (ticks + more)[1..] == ticks[1..] + more;
        FailureIsFinal(current, ticks[1..], more);
      }
  }

  /** The reports of successive snapshots: each is compared with the one before it only. */
  function Reports(known: seq<Address>, snapshots: seq<seq<Address>>): seq<Address>
    decreases |snapshots|
  {
    if snapshots == [] then []
    else NewPools(known, snapshots[0]) + Reports(snapshots[0], snapshots[1..])
  }

  /**
   * When every snapshot query and every handler call succeeds, the run hands
   * over exactly the new addresses of each snapshot relative to the previous one.
   */
  lemma {:induction false} PollReportsDiffs(known: seq<Address>, ticks: seq<TickInput>, snapshots: seq<seq<Address>>)
    requires |snapshots| == |ticks|
    requires forall k :: 0 <= k < |ticks| ==> GetExistingPools(ticks[k].snapshot) == Success(snapshots[k])
    requires forall k, a :: 0 <= k < |ticks| && a in snapshots[k] ==> ProcessNewPool(ticks[k].fetchAccount(a)).Pass?
    ensures Poll(known, ticks) == Processing(Reports(known, snapshots), Pass)
    decreases |ticks|
  {
    if ticks != [] {
      var current := snapshots[0];
      assert GetExistingPools(ticks[0].snapshot) == Success(current);
      var pending := NewPools(known, current);
      forall k | 0 <= k < |pending|
        ensures ProcessNewPool(ticks[0].fetchAccount(pending[k])).Pass?
      {
        NewPoolsMembership(known, current, pending[k]);
      }
      ProcessAllStopsAtFirstFailure(pending, ticks[0].fetchAccount);
      forall k, a | 0 <= k < |ticks[1..]| && a in snapshots[1..][k]
        ensures ProcessNewPool(ticks[1..][k].fetchAccount(a)).Pass?
      {
        assert ticks[1..][k] == ticks[k + 1] && snapshots[1..][k] == snapshots[k + 1];
      }
      PollReportsDiffs(current, ticks[1..], snapshots[1..]);
    }
  }

  /** Replace, not union: an address that leaves the snapshot and comes back is reported again. */
  lemma ReappearingAddressReportedAgain(a: Address, known: seq<Address>, s1: seq<Address>, s2: seq<Address>)
    requires a !in s1 && a in s2
    ensures a in Reports(known, [s1, s2])
  {
    NewPoolsMembership(s1, s2, a);
    assert [s1, s2][1..] == [s2];
    assert [s2][1..] == [];
  }

  /** An address present in two consecutive snapshots is not reported for the second. */
  lemma StayingAddressNotReported(a: Address, known: seq<Address>, s1: seq<Address>, s2: seq<Address>)
    requires a in s1 && a in s2 && a in known
    ensures a !in Reports(known, [s1, s2])
  {
    NewPoolsMembership(known, s1, a);
    NewPoolsMembership(s1, s2, a);
    assert [s1, s2][1..] == [s2];
    assert [s2][1..] == [];
    assert Reports(known, [s1, s2]) == NewPools(known, s1) + (NewPools(s1, s2) + Reports(s2, []));
    assert [s1, s2][1..] == [s2];
    assert [s2][1..] == [];
  }

  /** A snapshot equal to the known one reports nothing (as for the first tick after an unchanged start). */
  lemma UnchangedSnapshotReportsNothing(s: seq<Address>)
    ensures NewPools(s, s) == []
  {
    if NewPools(s, s) != [] {
      NewPoolsMembership(s, s, NewPools(s, s)[0]);
    }
  }

  /** Known {A, B} followed by {A, B, C} reports C alone. */
  lemma ThirdPoolExample()
    ensures NewPools(["A", "B"], ["A", "B", "C"]) == ["C"]
  {
    assert ["A", "B", "C"][1..] == ["B", "C"];
    assert ["B", "C"][1..] == ["C"];
    assert ["C"][1..] == [];
  }

  /** An unknown address occurring twice in one snapshot is reported twice. */
  lemma DuplicateReportedPerOccurrence(known: seq<Address>, a: Address)
    requires a !in known
    ensures NewPools(known, [a, a]) == [a, a]
  {
    assert [a, a][1..] == [a];
    assert [a][1..] == [];
    assert NewPools(known, [a]) == [a] + NewPools(known, []);
  }
}
