/**
 * `Models.Subscription`: a handle whose first `Dispose` runs the
 * unsubscribe action it was built with, and whose later calls do nothing.
 * The action itself is not modelled; its runs are counted, and each run
 * records the value the disposed flag had at that moment.
 */
module SubscriptionModel {
  class Subscription {
    var disposed: bool
    /** How many times the unsubscribe action has run. */
    var actionRuns: nat
    /** The disposed flag as seen by each run of the action, in order. */
    ghost var flagAtRuns: seq<bool>

    /** The action has run once if the handle is disposed, never otherwise, and each run saw the flag already set. */
    ghost predicate Valid()
      reads this
    {
      actionRuns == (if disposed then 1 else 0)
      && |flagAtRuns| == actionRuns
      && forall i :: 0 <= i < |flagAtRuns| ==> flagAtRuns[i]
    }

    /** Construction stores the action and never runs it. */
    constructor()
      ensures Valid() && !disposed && actionRuns == 0
    {
      disposed := false;
      actionRuns := 0;
      flagAtRuns := [];
    }

    /** A run of the unsubscribe action. */
    method RunAction()
      modifies this
      ensures actionRuns == old(actionRuns) + 1 && flagAtRuns == old(flagAtRuns) + [disposed]
      ensures disposed == old(disposed)
    {
      actionRuns := actionRuns + 1;
      flagAtRuns := flagAtRuns + [disposed];
    }

    /** `Dispose`: the first call sets the flag and then runs the action once; later calls return at once. */
    method Dispose()
      requires Valid()
      modifies this
      ensures Valid() && disposed
      ensures old(disposed) ==> actionRuns == old(actionRuns) && flagAtRuns == old(flagAtRuns)
      ensures !old(disposed) ==> actionRuns == 1 && flagAtRuns == [true]
    {
      if disposed {
        return;
      }
      disposed := true;
      RunAction();
    }
  }
}
