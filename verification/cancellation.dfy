/**
 Cooperative cancellation (core/lifecycle.py): sources form trees of any depth; a source is cancelled by its own
 reason, by a cancelled ancestor, or by its deadline on a clock that never goes back.
 */
module Cancellation {
  import opened Wrappers

  function Earlier(a: Option<int>, b: Option<int>): Option<int> {
    if a.None? then b else if b.None? then a else if a.value <= b.value then a else b
  }

  predicate Passed(deadline: Option<int>, now: int) {
    deadline.Some? && now >= deadline.value
  }

  class CancellationSource {
    const parent: CancellationSource?
    const deadline: Option<int>
    var reason: Option<string>

    /** This source and its ancestors, nearest first. */
    ghost const chain: seq<CancellationSource>

    /** The deadline this scope was asked to have, before its parent's was merged in. */
    ghost const requested: Option<int>

    ghost predicate Valid()
      decreases |chain|
    {
      && chain != [] && chain[0] == this
      && (if parent == null then chain == [this] && deadline == requested
          else
            && chain == [this] + parent.chain && parent.Valid()
            && deadline == Earlier(requested, parent.deadline))
    }

    constructor (deadline: Option<int>)
      ensures Valid() && parent == null && this.deadline == deadline && reason == None && chain == [this]
    {
      this.parent, this.deadline, reason := null, deadline, None;
      requested, chain := deadline, [this];
    }

    /** A scope below this one: it may only bring the deadline forward. */
    constructor Below(parent: CancellationSource, deadline: Option<int>)
      requires parent.Valid()
      ensures Valid() && this.parent == parent && requested == deadline && reason == None
      ensures chain == [this] + parent.chain && this.deadline == Earlier(deadline, parent.deadline)
    {
      this.parent, this.deadline, reason := parent, Earlier(deadline, parent.deadline), None;
      requested, chain := deadline, [this] + parent.chain;
    }

    method Child(deadline: Option<int>) returns (child: CancellationSource)
      requires Valid()
      ensures fresh(child) && child.Valid() && child.parent == this && child.reason == None
      ensures child.requested == deadline
    {
      child := new CancellationSource.Below(this, deadline);
    }

    predicate IsCancelled(now: int)
      requires Valid()
      reads chain
      decreases |chain|
    {
      assert parent != null ==> forall i :: 0 <= i < |parent.chain| ==> parent.chain[i] == chain[i + 1];
      reason.Some? || (parent != null && parent.IsCancelled(now)) || Passed(deadline, now)
    }

    function Reason(now: int): Option<string>
      requires Valid()
      reads chain
      decreases |chain|
    {
      assert parent != null ==> forall i :: 0 <= i < |parent.chain| ==> parent.chain[i] == chain[i + 1];
      if reason.Some? then reason
      else if parent != null && parent.IsCancelled(now) then parent.Reason(now)
      else if Passed(deadline, now) then Some("deadline exceeded")
      else None
    }

    /**
     Cancel this scope. `None` is the error for an empty reason. A call that newly cancels it cancels exactly it and
     the scopes below it, at this and at every later time; any other call changes nothing. `sources` is any set of
     scopes.
     */
    method Cancel(now: int, why: string, ghost sources: set<CancellationSource>) returns (newly: Option<bool>)
      requires Valid() && forall s :: s in sources ==> s.Valid()
      modifies this`reason
      ensures newly.None? <==> why == ""
      ensures newly.Some? ==> newly.value == !old(IsCancelled(now))
      ensures newly != Some(true) ==> reason == old(reason)
      ensures newly == Some(true) ==> reason == Some(why) && Reason(now) == Some(why)
      ensures forall s, t :: s in sources ==> (s.IsCancelled(t) <==> old(s.IsCancelled(t)) || (newly == Some(true) && this in s.chain))
    {
      if why == "" {
        newly := None;
      } else if IsCancelled(now) {
        newly := Some(false);
      } else {
        forall s, t | s in sources ensures s.IsCancelled(t) <==> SomeCause(s, t) {
          CancelledByThePath(s, t);
        }
        reason := Some(why);
        newly := Some(true);
        forall s, t | s in sources ensures s.IsCancelled(t) <==> SomeCause(s, t) {
          CancelledByThePath(s, t);
        }
      }
    }
  }

  /** Some scope on the path to the root has a reason or a deadline that passed. */
  ghost predicate SomeCause(s: CancellationSource, now: int)
    reads s.chain
  {
    exists i :: 0 <= i < |s.chain| && (s.chain[i].reason.Some? || (s.chain[i].deadline.Some? && s.chain[i].deadline.value <= now))
  }

  /** A source is cancelled exactly when there is such a cause. */
  lemma {:induction false} CancelledByThePath(s: CancellationSource, now: int)
    requires s.Valid()
    ensures s.IsCancelled(now) <==> SomeCause(s, now)
    decreases |s.chain|
  {
    if s.parent != null {
      CancelledByThePath(s.parent, now);
      assert forall i :: 0 <= i < |s.parent.chain| ==> s.chain[i + 1] == s.parent.chain[i];
      if SomeCause(s, now) && !(s.reason.Some? || Passed(s.deadline, now)) {
        var i :| 0 <= i < |s.chain| && (s.chain[i].reason.Some? || Passed(s.chain[i].deadline, now));
        assert s.parent.chain[i - 1] == s.chain[i];
      }
    }
  }

  /** Being cancelled is never undone as the clock advances, and a cancelled scope always names a reason. */
  lemma {:induction false} CancelledForGood(s: CancellationSource, now: int, later: int)
    requires s.Valid() && now <= later
    ensures s.IsCancelled(now) ==> s.IsCancelled(later)
    ensures s.IsCancelled(now) <==> s.Reason(now).Some?
    decreases |s.chain|
  {
    if s.parent != null {
      CancelledForGood(s.parent, now, later);
    }
  }

  /** Scope `i` of the path is the nearest that was cancelled by name. */
  ghost predicate NearestReason(s: CancellationSource, i: nat)
    reads s.chain
  {
    i < |s.chain| && s.chain[i].reason.Some? && forall j :: 0 <= j < i ==> s.chain[j].reason.None?
  }

  /** The reason named is that of the nearest scope cancelled by name, wherever deadlines passed. */
  lemma {:induction false} ReasonIsTheNearest(s: CancellationSource, now: int, i: nat)
    requires s.Valid() && NearestReason(s, i)
    ensures s.Reason(now) == s.chain[i].reason
    decreases |s.chain|
  {
    if i > 0 {
      assert forall j :: 0 <= j < |s.parent.chain| ==> s.chain[j + 1] == s.parent.chain[j];
      assert NearestReason(s.parent, i - 1);
      CancelledByThePath(s.parent, now);
      ReasonIsTheNearest(s.parent, now, i - 1);
    }
  }

  /** Without any, it is the deadline, once one of the path has passed. */
  lemma {:induction false} ReasonOfADeadline(s: CancellationSource, now: int)
    requires s.Valid() && forall a :: a in s.chain ==> a.reason.None?
    ensures s.Reason(now) == if exists a :: a in s.chain && a.deadline.Some? && a.deadline.value <= now
                             then Some("deadline exceeded") else None
    decreases |s.chain|
  {
    if s.parent != null {
      assert forall a :: a in s.chain <==> a == s || a in s.parent.chain;
      ReasonOfADeadline(s.parent, now);
      CancelledForGood(s.parent, now, now);
    }
  }

  /** The earliest of the deadlines asked for along a path. */
  ghost function EarliestRequested(chain: seq<CancellationSource>): Option<int> {
    if chain == [] then None else Earlier(chain[0].requested, EarliestRequested(chain[1..]))
  }

  /** A scope's deadline is the earliest one asked for anywhere on its path to the root. */
  lemma {:induction false} DeadlineIsTheEarliest(s: CancellationSource)
    requires s.Valid()
    ensures s.deadline == EarliestRequested(s.chain)
    ensures forall a :: a in s.chain && a.requested.Some? ==> s.deadline.Some? && s.deadline.value <= a.requested.value
    ensures s.deadline.Some? ==> exists a :: a in s.chain && a.requested == s.deadline
    decreases |s.chain|
  {
    if s.parent == null {
      assert s.chain[1..] == [];
    } else {
      DeadlineIsTheEarliest(s.parent);
      assert s.chain[1..] == s.parent.chain;
      assert forall a :: a in s.chain <==> a == s || a in s.parent.chain;
    }
  }

  /** So without explicit reasons a scope is cancelled from the earliest deadline of its path on, and not before. */
  lemma {:induction false} DeadlinesAlone(s: CancellationSource, now: int)
    requires s.Valid() && forall a :: a in s.chain ==> a.reason.None?
    ensures s.IsCancelled(now) <==> Passed(EarliestRequested(s.chain), now)
    decreases |s.chain|
  {
    DeadlineIsTheEarliest(s);
    if s.parent != null {
      assert forall a :: a in s.chain <==> a == s || a in s.parent.chain;
      DeadlinesAlone(s.parent, now);
      DeadlineIsTheEarliest(s.parent);
    }
  }
}
