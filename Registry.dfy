/**
 * The subscriber sets of the hook servers: `std::unordered_set`s of listener
 * pointers that AddNotification and RemoveNotification change, both refusing
 * a null pointer and reporting whether the set changed.
 */
module Registry {
  import opened GZCom

  /** The set after `AddNotification(target)`: `emplace` unless the target is null. */
  function Added(s: set<Pointer>, target: Pointer): (r: set<Pointer>)
    ensures target != NULL ==> target in r
    ensures forall t :: t != target ==> (t in r <==> t in s)
    ensures target == NULL ==> r == s
  {
    if target != NULL then s + {target} else s
  }

  /** What AddNotification returns: `emplace(target).second`, false for a null target. */
  predicate AddReports(s: set<Pointer>, target: Pointer)
  {
    target != NULL && target !in s
  }

  /** The set after `RemoveNotification(target)`: `erase` unless the target is null. */
  function Removed(s: set<Pointer>, target: Pointer): (r: set<Pointer>)
    ensures target !in r || target == NULL
    ensures forall t :: t != target ==> (t in r <==> t in s)
    ensures target == NULL ==> r == s
  {
    if target != NULL then s - {target} else s
  }

  /** What RemoveNotification returns: `erase(target) == 1`, false for a null target. */
  predicate RemoveReports(s: set<Pointer>, target: Pointer)
  {
    target != NULL && target in s
  }

  /** An add reports true exactly when the set grows by one; otherwise the set is unchanged. */
  lemma AddChangesIffReported(s: set<Pointer>, target: Pointer)
    ensures AddReports(s, target) ==> |Added(s, target)| == |s| + 1
    ensures !AddReports(s, target) ==> Added(s, target) == s
  {
  }

  /** A remove reports true exactly when the set shrinks by one; otherwise the set is unchanged. */
  lemma RemoveChangesIffReported(s: set<Pointer>, target: Pointer)
    ensures RemoveReports(s, target) ==> |Removed(s, target)| + 1 == |s|
    ensures !RemoveReports(s, target) ==> Removed(s, target) == s
  {
  }

  /** Adding the same target twice: the second add reports false and changes nothing; likewise for a second remove. */
  lemma SecondCallChangesNothing(s: set<Pointer>, target: Pointer)
    ensures !AddReports(Added(s, target), target) && Added(Added(s, target), target) == Added(s, target)
    ensures !RemoveReports(Removed(s, target), target) && Removed(Removed(s, target), target) == Removed(s, target)
  {
  }

  /** Removing a target that an add just inserted restores the set. */
  lemma RemoveUndoesAdd(s: set<Pointer>, target: Pointer)
    requires AddReports(s, target)
    ensures RemoveReports(Added(s, target), target)
    ensures Removed(Added(s, target), target) == s
  {
  }

  /** Neither operation can put the null pointer into a set. */
  lemma NeverStoresNull(s: set<Pointer>, target: Pointer)
    requires NULL !in s
    ensures NULL !in Added(s, target) && NULL !in Removed(s, target)
  {
  }

  /** An iteration order of a set is empty exactly when the set is; this is why the `size() > 0` guards change nothing. */
  lemma EnumerationEmpty(order: seq<Pointer>, s: set<Pointer>)
    requires (forall t :: t in s <==> t in order)
    ensures order == [] <==> s == {}
  {
    if order != [] {
      assert order[0] in s;
    }
    if s != {} {
      var t :| t in s;
      assert t in order;
    }
  }
}
