/** Steps run one after another, each either raising or producing some
    items: the first step that raises decides the outcome, and otherwise
    the items of all steps are gathered in order. Schema validation and the
    nmap result filters both work this way. */
module Outcomes {
  import opened Wrappers

  function Collect<T>(outcomes: seq<Result<seq<T>, string>>): Result<seq<T>, string>
  {
    if outcomes == [] then Ok([])
    else
      match Collect(outcomes[..|outcomes| - 1])
      case Err(e) => Err(e)
      case Ok(items) =>
        match outcomes[|outcomes| - 1]
        case Err(e) => Err(e)
        case Ok(more) => Ok(items + more)
  }

  /** One more step that did not raise adds its items at the end. */
  lemma CollectStep<T>(outcomes: seq<Result<seq<T>, string>>, j: nat, items: seq<T>)
    requires j < |outcomes| && Collect(outcomes[..j]) == Ok(items) && outcomes[j].Ok?
    ensures Collect(outcomes[..j + 1]) == Ok(items + outcomes[j].value)
  {
    assert outcomes[..j + 1][..j] == outcomes[..j];
  }

  /** Gathering stops at the first step that raises. */
  lemma {:induction false} CollectErrorPersists<T>(outcomes: seq<Result<seq<T>, string>>, n: nat)
    requires n <= |outcomes| && Collect(outcomes[..n]).Err?
    ensures Collect(outcomes) == Collect(outcomes[..n])
    decreases |outcomes| - n
  {
    if n < |outcomes| {
      var m := |outcomes| - 1;
      assert outcomes[..m][..n] == outcomes[..n];
      CollectErrorPersists(outcomes[..m], n);
    } else {
      assert outcomes[..n] == outcomes;
    }
  }

  /** Once every step has run, the gathered items are the outcome. */
  lemma CollectWhole<T>(outcomes: seq<Result<seq<T>, string>>, items: seq<T>)
    requires Collect(outcomes[..|outcomes|]) == Ok(items)
    ensures Collect(outcomes) == Ok(items)
  {
    assert outcomes[..|outcomes|] == outcomes;
  }

  /** A step that raises after steps that did not decides the outcome. */
  lemma CollectStops<T>(outcomes: seq<Result<seq<T>, string>>, j: nat)
    requires j < |outcomes| && Collect(outcomes[..j]).Ok? && outcomes[j].Err?
    ensures Collect(outcomes) == Err(outcomes[j].error)
  {
    assert outcomes[..j + 1][..j] == outcomes[..j];
    CollectErrorPersists(outcomes, j + 1);
  }

  /** Items come in order: the items of steps split in two are the first
      part's followed by the second part's. */
  lemma {:induction false} CollectConcat<T>(xs: seq<Result<seq<T>, string>>, ys: seq<Result<seq<T>, string>>)
    requires Collect(xs).Ok? && Collect(ys).Ok?
    ensures Collect(xs + ys) == Ok(Collect(xs).value + Collect(ys).value)
    decreases |ys|
  {
    if ys == [] {
      assert xs + ys == xs;
      assert Collect(xs).value + [] == Collect(xs).value;
    } else {
      var m := |ys| - 1;
      assert (xs + ys)[..|xs + ys| - 1] == xs + ys[..m];
      assert (xs + ys)[|xs + ys| - 1] == ys[m];
      CollectConcat(xs, ys[..m]);
      var a := Collect(xs).value;
      var b := Collect(ys[..m]).value;
      var c := ys[m].value;
      assert a + (b + c) == (a + b) + c;
    }
  }

  /** Nothing raises overall exactly when no step raises. */
  lemma {:induction false} CollectOkIff<T>(outcomes: seq<Result<seq<T>, string>>)
    ensures Collect(outcomes).Ok? <==> forall i :: 0 <= i < |outcomes| ==> outcomes[i].Ok?
  {
    if outcomes != [] {
      var m := |outcomes| - 1;
      CollectOkIff(outcomes[..m]);
      assert forall i :: 0 <= i < m ==> outcomes[..m][i] == outcomes[i];
    }
  }

  /** No items are gathered exactly when every step produces none. */
  lemma {:induction false} CollectEmptyIff<T>(outcomes: seq<Result<seq<T>, string>>)
    ensures Collect(outcomes) == Ok([]) <==> forall i :: 0 <= i < |outcomes| ==> outcomes[i] == Ok([])
  {
    if outcomes != [] {
      var m := |outcomes| - 1;
      CollectEmptyIff(outcomes[..m]);
      if Collect(outcomes) == Ok([]) {
        forall i | 0 <= i < |outcomes| ensures outcomes[i] == Ok([]) {
          if i < m {
            assert outcomes[..m][i] == outcomes[i];
          }
        }
      }
      if forall i :: 0 <= i < |outcomes| ==> outcomes[i] == Ok([]) {
        forall i | 0 <= i < m ensures outcomes[..m][i] == Ok([]) {
          assert outcomes[..m][i] == outcomes[i];
        }
      }
    }
  }

  /** Every item a step produces is among the gathered ones. */
  lemma {:induction false} CollectReports<T>(outcomes: seq<Result<seq<T>, string>>, i: nat)
    requires i < |outcomes| && Collect(outcomes).Ok?
    ensures outcomes[i].Ok?
    ensures forall e :: e in outcomes[i].value ==> e in Collect(outcomes).value
    decreases |outcomes|
  {
    var m := |outcomes| - 1;
    if i < m {
      assert outcomes[..m][i] == outcomes[i];
      CollectReports(outcomes[..m], i);
    }
  }

  /** Every gathered item was produced by some step. */
  lemma {:induction false} CollectSources<T>(outcomes: seq<Result<seq<T>, string>>, e: T)
    requires Collect(outcomes).Ok? && e in Collect(outcomes).value
    ensures exists i :: 0 <= i < |outcomes| && outcomes[i].Ok? && e in outcomes[i].value
  {
    var m := |outcomes| - 1;
    if e in Collect(outcomes[..m]).value {
      CollectSources(outcomes[..m], e);
      var i :| 0 <= i < m && outcomes[..m][i].Ok? && e in outcomes[..m][i].value;
      assert outcomes[..m][i] == outcomes[i];
    } else {
      assert e in outcomes[m].value;
    }
  }

  function SumNat(caps: seq<nat>): nat {
    if caps == [] then 0 else SumNat(caps[..|caps| - 1]) + caps[|caps| - 1]
  }

  /** When each step produces at most `caps[i]` items, all of them together
      produce at most the sum of the caps. */
  lemma {:induction false} CollectWithin<T>(outcomes: seq<Result<seq<T>, string>>, caps: seq<nat>)
    requires |caps| == |outcomes| && Collect(outcomes).Ok?
    requires forall i :: 0 <= i < |outcomes| && outcomes[i].Ok? ==> |outcomes[i].value| <= caps[i]
    ensures |Collect(outcomes).value| <= SumNat(caps)
  {
    if outcomes != [] {
      var m := |outcomes| - 1;
      assert forall i :: 0 <= i < m ==> outcomes[..m][i] == outcomes[i] && caps[..m][i] == caps[i];
      CollectWithin(outcomes[..m], caps[..m]);
    }
  }
}
