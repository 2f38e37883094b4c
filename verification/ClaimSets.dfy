/** A set of claimed names, each released by whoever took it.

Three parts of the program share this shape: the inline-render claims, the revalidation
claims and the scheduler's in-flight marks.  A guard's drop removes its name under the lock,
or, when the lock is contended, leaves the removal to a task that runs later.  In both cases
the removal is by name alone, so it must be known that no newer holder can exist. */
module ClaimSets {
  type TaskId = nat

  /** `claims` holds exactly the names owned by some task, and no name has two owners.  An
      owner is a live guard or a deferred removal that has not run yet. */
  ghost predicate Owned<K(!new)>(claims: set<K>, owners: map<TaskId, K>) {
    && owners.Values == claims
    && forall a, b :: a in owners && b in owners && owners[a] == owners[b] ==> a == b
  }

  lemma TakeKeepsOwned<K(!new)>(claims: set<K>, owners: map<TaskId, K>, id: TaskId, k: K)
    requires Owned(claims, owners) && id !in owners && k !in claims
    ensures Owned(claims + {k}, owners[id := k])
  {
    var owners' := owners[id := k];
    forall x | x in claims + {k} ensures x in owners'.Values {
      if x == k {
        assert owners'[id] == k;
      } else {
        var o :| o in owners && owners[o] == x;
        assert owners'[o] == x;
      }
    }
    forall o | o in owners ensures owners[o] in claims {}
  }

  /** Removing a name, at once or later, frees the claim of that very owner and leaves every
      other owner its own. */
  lemma DropKeepsOwned<K(!new)>(claims: set<K>, owners: map<TaskId, K>, id: TaskId)
    requires Owned(claims, owners) && id in owners
    ensures Owned(claims - {owners[id]}, owners - {id})
    ensures forall o :: o in owners && o != id ==> owners[o] in claims - {owners[id]}
  {
    var owners' := owners - {id};
    forall x | x in claims - {owners[id]} ensures x in owners'.Values {
      var o :| o in owners && owners[o] == x;
      assert owners'[o] == x;
    }
    forall o | o in owners ensures owners[o] in claims {}
    forall o | o in owners' ensures owners'[o] != owners[id] {}
  }
}
