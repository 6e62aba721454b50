/**
 * The two ways the hook servers hand a message to their subscribers: first
 * responder (stop at the first subscriber that handles it) and broadcast
 * (every subscriber, in the set's iteration order). The sets are unordered,
 * so the order is a parameter: any enumeration of the set.
 */
module HookDispatch {
  import opened GZCom
  import opened GZStringUtil

  /** `order` lists every element of `s` exactly once: an iteration order of the unordered set. */
  ghost predicate IsEnumeration(order: seq<Pointer>, s: set<Pointer>)
  {
    (forall i, j :: 0 <= i < j < |order| ==> order[i] != order[j]) &&
    (forall t :: t in s <==> t in order)
  }

  /** What a subscriber's callback returns: whether it handled the message, and the values it left in its in/out arguments. */
  datatype Reply<S> = Reply(handled: bool, state: S)

  /** The outcome of a first-responder dispatch: whether some subscriber handled it, how many entries of the order were visited, and the final values of the in/out arguments. */
  datatype Dispatched<S> = Dispatched(handled: bool, visited: nat, state: S)

  /**
   * First-responder dispatch over `order`: null entries are skipped; the
   * first subscriber that returns true ends the dispatch. Each subscriber sees
   * the values the previous ones left in the shared arguments.
   */
  function FirstResponder<S>(
    order: seq<Pointer>, occupant: Pointer, debugQuery: bool, state: S,
    process: (Pointer, Pointer, bool, S) -> Reply<S>): (r: Dispatched<S>)
    ensures r.visited <= |order|
    ensures r.handled ==> 0 < r.visited && order[r.visited - 1] != NULL
    ensures r.handled ==> process(order[r.visited - 1], occupant, debugQuery, StateBefore(order, occupant, debugQuery, state, process, r.visited - 1)).handled
    ensures !r.handled ==> r.visited == |order|
    ensures forall k :: 0 <= k < (if r.handled then r.visited - 1 else |order|) ==>
      !Accepts(order, k, occupant, debugQuery, StateBefore(order, occupant, debugQuery, state, process, k), process)
    decreases |order|
  {
    if order == [] then Dispatched(false, 0, state)
    else
      var reply := if order[0] == NULL then Reply(false, state) else process(order[0], occupant, debugQuery, state);
      if reply.handled then Dispatched(true, 1, reply.state)
      else
        var rest := FirstResponder(order[1..], occupant, debugQuery, reply.state, process);
        Dispatched(rest.handled, rest.visited + 1, rest.state)
  }

  /** A dispatch outcome seen from `n` entries earlier in the order. */
  function Skipped<S>(d: Dispatched<S>, n: nat): Dispatched<S>
  {
    Dispatched(d.handled, d.visited + n, d.state)
  }

  /** One step of the dispatch loop: ask the entry at `i`, then either stop or go on from `i + 1`. */
  lemma FirstResponderStep<S>(
    order: seq<Pointer>, i: nat, occupant: Pointer, debugQuery: bool, state: S,
    process: (Pointer, Pointer, bool, S) -> Reply<S>)
    requires i < |order|
    ensures var reply := if order[i] == NULL then Reply(false, state) else process(order[i], occupant, debugQuery, state);
      FirstResponder(order[i..], occupant, debugQuery, state, process)
        == if reply.handled then Dispatched(true, 1, reply.state)
           else Skipped(FirstResponder(order[i + 1..], occupant, debugQuery, reply.state, process), 1)
  {
    assert order[i..][0] == order[i];
    assert order[i..][1..] == order[i + 1..];
  }

  /**
   * The first-responder loop of SendCustomToolTipMessage: walk the iteration
   * order, skip null entries, and stop at the first subscriber that returns
   * true. Returns whether one did and the final values of the shared
   * arguments.
   */
  method DispatchFirstResponder<S>(
    order: seq<Pointer>, occupant: Pointer, debugQuery: bool, state: S,
    process: (Pointer, Pointer, bool, S) -> Reply<S>) returns (tooltipHandled: bool, final: S)
    ensures var r := FirstResponder(order, occupant, debugQuery, state, process);
      tooltipHandled == r.handled && final == r.state
  {
    tooltipHandled := false;
    final := state;
    var i := 0;
    while i < |order|
      invariant 0 <= i <= |order|
      invariant FirstResponder(order, occupant, debugQuery, state, process)
             == Skipped(FirstResponder(order[i..], occupant, debugQuery, final, process), i)
    {
      FirstResponderStep(order, i, occupant, debugQuery, final, process);
      var localTarget := order[i];
      if localTarget != NULL {
        var reply := process(localTarget, occupant, debugQuery, final);
        final := reply.state;
        if reply.handled {
          tooltipHandled := true;
          return;
        }
      }
      i := i + 1;
    }
  }

  /** The values of the shared arguments when the subscriber at index `k` is reached, if nobody before it handled the message. */
  function StateBefore<S>(
    order: seq<Pointer>, occupant: Pointer, debugQuery: bool, state: S,
    process: (Pointer, Pointer, bool, S) -> Reply<S>, k: nat): S
    requires k <= |order|
    decreases k
  {
    if k == 0 then state
    else
      var reply := if order[0] == NULL then Reply(false, state) else process(order[0], occupant, debugQuery, state);
      StateBefore(order[1..], occupant, debugQuery, reply.state, process, k - 1)
  }

  /** Whether the subscriber at index `k` would handle the message when asked with `state`. */
  predicate Accepts<S>(order: seq<Pointer>, k: nat, occupant: Pointer, debugQuery: bool, state: S, process: (Pointer, Pointer, bool, S) -> Reply<S>)
    requires k < |order|
  {
    order[k] != NULL && process(order[k], occupant, debugQuery, state).handled
  }

  /**
   * When a subscriber's answer does not depend on what earlier subscribers
   * wrote, the dispatch is handled exactly when some subscriber accepts, and
   * it stops at the first one that does: nobody after it is asked.
   */
  lemma {:induction false} FirstResponderFindsFirst<S>(
    order: seq<Pointer>, occupant: Pointer, debugQuery: bool, state: S,
    process: (Pointer, Pointer, bool, S) -> Reply<S>)
    requires forall t, s1: S, s2: S :: process(t, occupant, debugQuery, s1).handled == process(t, occupant, debugQuery, s2).handled
    ensures var r := FirstResponder(order, occupant, debugQuery, state, process);
      (r.handled <==> exists k :: 0 <= k < |order| && Accepts(order, k, occupant, debugQuery, state, process)) &&
      (r.handled ==> forall k :: 0 <= k < r.visited - 1 ==> !Accepts(order, k, occupant, debugQuery, state, process))
    decreases |order|
  {
    if order != [] {
      var reply := if order[0] == NULL then Reply(false, state) else process(order[0], occupant, debugQuery, state);
      var tail := order[1..];
      if !reply.handled {
        FirstResponderFindsFirst(tail, occupant, debugQuery, reply.state, process);
        var rest := FirstResponder(tail, occupant, debugQuery, reply.state, process);
        forall k | 0 <= k < |tail|
          ensures Accepts(tail, k, occupant, debugQuery, reply.state, process) == Accepts(order, k + 1, occupant, debugQuery, state, process)
        {
        }
        assert !Accepts(order, 0, occupant, debugQuery, state, process);
        if rest.handled {
          var k :| 0 <= k < |tail| && Accepts(tail, k, occupant, debugQuery, reply.state, process);
          assert Accepts(order, k + 1, occupant, debugQuery, state, process);
          forall k | 0 <= k < rest.visited
            ensures !Accepts(order, k, occupant, debugQuery, state, process)
          {
            if k > 0 {
              assert !Accepts(tail, k - 1, occupant, debugQuery, reply.state, process);
            }
          }
        } else {
          forall k | 0 <= k < |order|
            ensures !Accepts(order, k, occupant, debugQuery, state, process)
          {
            if k > 0 {
              assert !Accepts(tail, k - 1, occupant, debugQuery, reply.state, process);
            }
          }
        }
      } else {
        assert Accepts(order, 0, occupant, debugQuery, state, process);
      }
    }
  }

  /** Whatever follows the subscriber that handled the message is never consulted. */
  lemma {:induction false} FirstResponderIgnoresRest<S>(
    order: seq<Pointer>, rest: seq<Pointer>, occupant: Pointer, debugQuery: bool, state: S,
    process: (Pointer, Pointer, bool, S) -> Reply<S>)
    requires FirstResponder(order, occupant, debugQuery, state, process).handled
    ensures var r := FirstResponder(order, occupant, debugQuery, state, process);
      FirstResponder(order[..r.visited] + rest, occupant, debugQuery, state, process) == r
    decreases |order|
  {
    var r := FirstResponder(order, occupant, debugQuery, state, process);
    var reply := if order[0] == NULL then Reply(false, state) else process(order[0], occupant, debugQuery, state);
    var combined := order[..r.visited] + rest;
    assert combined[0] == order[0];
    if !reply.handled {
      var tail := FirstResponder(order[1..], occupant, debugQuery, reply.state, process);
      FirstResponderIgnoresRest(order[1..], rest, occupant, debugQuery, reply.state, process);
      assert combined[1..] == order[1..][..tail.visited] + rest;
    }
  }

  /** The non-null entries of `order`, in order: the subscribers a broadcast calls. */
  function NonNull(order: seq<Pointer>): (r: seq<Pointer>)
    ensures |r| <= |order|
    ensures forall t :: t in r <==> t in order && t != NULL
  {
    if order == [] then []
    else if order[0] == NULL then NonNull(order[1..])
    else [order[0]] + NonNull(order[1..])
  }

  lemma {:induction false} NonNullSplit(a: seq<Pointer>, b: seq<Pointer>)
    ensures NonNull(a + b) == NonNull(a) + NonNull(b)
    decreases |a|
  {
    if a != [] {
      assert (a + b)[0] == a[0];
      assert (a + b)[1..] == a[1..] + b;
      NonNullSplit(a[1..], b);
    } else {
      assert a + b == b;
    }
  }

  /** Without null entries, a broadcast calls every entry of the order, in that order. */
  lemma {:induction false} NonNullOfNoNulls(order: seq<Pointer>)
    requires NULL !in order
    ensures NonNull(order) == order
    decreases |order|
  {
    if order != [] {
      NonNullOfNoNulls(order[1..]);
    }
  }

  /** A broadcast over an iteration order of a null-free set calls each subscriber exactly once and nothing else. */
  lemma BroadcastCallsEachOnce(order: seq<Pointer>, s: set<Pointer>)
    requires IsEnumeration(order, s) && NULL !in s
    ensures forall t :: multiset(NonNull(order))[t] == if t in s then 1 else 0
  {
    NonNullOfNoNulls(order);
    forall t
      ensures multiset(order)[t] == if t in s then 1 else 0
    {
      DistinctCount(order, t);
    }
  }

  lemma {:induction false} DistinctCount(order: seq<Pointer>, t: Pointer)
    requires forall i, j :: 0 <= i < j < |order| ==> order[i] != order[j]
    ensures multiset(order)[t] == if t in order then 1 else 0
    decreases |order|
  {
    if order != [] {
      assert order == [order[0]] + order[1..];
      DistinctCount(order[1..], t);
      if t == order[0] {
        forall j | 0 <= j < |order[1..]|
          ensures order[1..][j] != t
        {
          assert order[1..][j] == order[j + 1];
        }
      }
    }
  }

  /** The dialog broadcast loop: every non-null entry of the order is notified once, in order; returns the targets notified. */
  method Broadcast(order: seq<Pointer>) returns (notified: seq<Pointer>)
    ensures notified == NonNull(order)
  {
    notified := [];
    var i := 0;
    while i < |order|
      invariant 0 <= i <= |order|
      invariant notified == NonNull(order[..i])
    {
      var localTarget := order[i];
      assert order[..i + 1] == order[..i] + [localTarget];
      NonNullSplit(order[..i], [localTarget]);
      if localTarget != NULL {
        notified := notified + [localTarget];
      }
      i := i + 1;
    }
    assert order[..i] == order;
  }

  /**
   * The text an append broadcast adds: each non-null subscriber writes into a
   * fresh empty string; what it wrote is appended as one line when it returns
   * true, and nothing is appended when it returns false.
   */
  function AppendedText(
    order: seq<Pointer>, occupant: Pointer, debugQuery: bool,
    appendText: (Pointer, Pointer, bool) -> Reply<string>): string
    decreases |order|
  {
    if order == [] then []
    else
      var reply := if order[0] == NULL then Reply(false, []) else appendText(order[0], occupant, debugQuery);
      (if reply.handled then Terminated(reply.state) else []) + AppendedText(order[1..], occupant, debugQuery, appendText)
  }

  lemma {:induction false} AppendedTextSplit(
    a: seq<Pointer>, b: seq<Pointer>, occupant: Pointer, debugQuery: bool,
    appendText: (Pointer, Pointer, bool) -> Reply<string>)
    ensures AppendedText(a + b, occupant, debugQuery, appendText)
         == AppendedText(a, occupant, debugQuery, appendText) + AppendedText(b, occupant, debugQuery, appendText)
    decreases |a|
  {
    if a != [] {
      assert (a + b)[0] == a[0];
      assert (a + b)[1..] == a[1..] + b;
      AppendedTextSplit(a[1..], b, occupant, debugQuery, appendText);
    } else {
      assert a + b == b;
    }
  }

  /** The appended text is empty or ends a line, and it is empty when every subscriber declines. */
  lemma {:induction false} AppendedTextIsLines(
    order: seq<Pointer>, occupant: Pointer, debugQuery: bool,
    appendText: (Pointer, Pointer, bool) -> Reply<string>)
    ensures var r := AppendedText(order, occupant, debugQuery, appendText);
      r == [] || EndsWithNewLine(r)
    ensures (forall k :: 0 <= k < |order| ==> order[k] == NULL || !appendText(order[k], occupant, debugQuery).handled)
      ==> AppendedText(order, occupant, debugQuery, appendText) == []
    decreases |order|
  {
    if order != [] {
      AppendedTextIsLines(order[1..], occupant, debugQuery, appendText);
      var reply := if order[0] == NULL then Reply(false, []) else appendText(order[0], occupant, debugQuery);
      var rest := AppendedText(order[1..], occupant, debugQuery, appendText);
      var head := if reply.handled then Terminated(reply.state) else [];
      if rest != [] {
        assert (head + rest)[|head + rest| - 1] == rest[|rest| - 1];
      }
      if forall k :: 0 <= k < |order| ==> order[k] == NULL || !appendText(order[k], occupant, debugQuery).handled {
        assert forall k :: 0 <= k < |order[1..]| ==> order[1..][k] == order[k + 1];
      }
    }
  }

  /**
   * The append broadcast loop of SendAppendToolTipMessage: every non-null
   * subscriber fills a fresh empty string, which is appended to `destination`
   * as one line when the subscriber returns true.
   */
  method AppendBroadcast(
    order: seq<Pointer>, occupant: Pointer, debugQuery: bool,
    appendText: (Pointer, Pointer, bool) -> Reply<string>, destination: GZString)
    modifies destination
    ensures destination.value == old(destination.value) + AppendedText(order, occupant, debugQuery, appendText)
  {
    var i := 0;
    while i < |order|
      invariant 0 <= i <= |order|
      invariant destination.value == old(destination.value) + AppendedText(order[..i], occupant, debugQuery, appendText)
    {
      var localTarget := order[i];
      assert order[..i + 1] == order[..i] + [localTarget];
      AppendedTextSplit(order[..i], [localTarget], occupant, debugQuery, appendText);
      if localTarget != NULL {
        var text := new GZString([]);
        var reply := appendText(localTarget, occupant, debugQuery);
        text.Copy(reply.state);
        if reply.handled {
          AppendLineFrom(text, destination);
        }
      }
      i := i + 1;
    }
    assert order[..i] == order;
  }
}
