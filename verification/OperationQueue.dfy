/**
 How the coordinator serializes its operations (`apps/daemon/src/run-runtime-coordinator.ts`): each one
 is chained onto the settlement of the one submitted before it, whether that succeeds or fails.
 */
module OperationQueue {
  import opened Wrappers

  datatype Operation = Waiting | Running | Finished(failed: bool)

  /** What the event loop does next. */
  datatype Event = Submit | Start(k: nat) | Finish(k: nat, failed: bool) | Settle(k: nat)

  function IsRunning(): Operation -> bool { (op: Operation) => op.Running? }

  class Queue {
    var operations: seq<Operation>
    /** The promise each operation was chained onto: that of an earlier operation, or the initial resolved one. */
    var after: seq<Option<nat>>
    /** Whether the promise that swallows an operation's outcome has settled. */
    var settled: seq<bool>
    /** The promise the next operation will be chained onto. */
    var pending: Option<nat>
    /** Operations in the order in which they started. */
    ghost var started: seq<nat>

    ghost predicate Valid()
      reads this
    {
      && |after| == |settled| == |operations| && |started| <= |operations|
      && pending == (if |operations| == 0 then None else Some(|operations| - 1))
      && (forall k :: 0 <= k < |after| ==> after[k] == if k == 0 then None else Some(k - 1))
      && (forall k :: 0 <= k < |started| ==> started[k] == k)
      && (forall k :: 0 <= k < |operations| ==> (operations[k].Waiting? <==> |started| <= k))
      && (forall k :: 0 <= k < |operations| && settled[k] ==> operations[k].Finished?)
      && (forall k :: 0 <= k < |started| - 1 ==> settled[k])
    }

    constructor ()
      ensures Valid() && operations == [] && started == []
    {
      operations, after, settled, pending, started := [], [], [], None, [];
    }

    method SubmitNext() returns (k: nat)
      requires Valid()
      modifies this
      ensures Valid() && k == |old(operations)| && operations == old(operations) + [Waiting] && started == old(started)
    {
      k := |operations|;
      operations, after, settled := operations + [Waiting], after + [pending], settled + [false];
      pending := Some(k);
    }

    /** An operation starts exactly when it is next and everything before it has settled, however it ended. */
    method StartOne(k: nat) returns (ran: bool)
      requires Valid()
      modifies this
      ensures Valid() && |operations| == |old(operations)|
      ensures ran <==> k == |old(started)| < |operations| && forall j :: 0 <= j < k ==> old(settled)[j]
      ensures ran ==> started == old(started) + [k] && operations == old(operations)[k := Running]
      ensures !ran ==> started == old(started) && operations == old(operations)
    {
      if k >= |operations| || !operations[k].Waiting? { return false; }
      if after[k].Some? && !settled[after[k].value] { return false; }
      operations := operations[k := Running];
      started := started + [k];
      ran := true;
    }

    method FinishOne(k: nat, failed: bool)
      requires Valid()
      modifies this`operations
      ensures Valid() && operations ==
                if k < |old(operations)| && old(operations)[k].Running? then old(operations)[k := Finished(failed)] else old(operations)
    {
      if k < |operations| && operations[k].Running? { operations := operations[k := Finished(failed)]; }
    }

    method SettleOne(k: nat)
      requires Valid()
      modifies this`settled
      ensures Valid() && settled == if k < |operations| && operations[k].Finished? then old(settled)[k := true] else old(settled)
    {
      if k < |operations| && operations[k].Finished? { settled := settled[k := true]; }
    }

    /** Whatever the event loop does and whatever fails, at most one operation runs and they start in submission order. */
    method Serve(events: seq<Event>)
      requires Valid()
      modifies this
      ensures Valid() && Count(operations, IsRunning()) <= 1
      ensures forall k :: 0 <= k < |started| ==> started[k] == k
      ensures forall j, k :: 0 <= j < k < |operations| && !operations[k].Waiting? ==> operations[j].Finished?
    {
      for i := 0 to |events|
        invariant Valid()
      {
        match events[i] {
          case Submit => var k := SubmitNext();
          case Start(k) => var ran := StartOne(k);
          case Finish(k, failed) => FinishOne(k, failed);
          case Settle(k) => SettleOne(k);
        }
      }
      CountAtMostOne(operations, IsRunning());
    }
  }
}
