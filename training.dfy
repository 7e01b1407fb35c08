/**
 * Training progress of one user on the main dashboard's training page
 * (`training_modules_page` in app.py): the ids of the completed modules,
 * which the page's buttons append to and remove from in place, and the
 * stored completion rate recomputed after each action.
 */
module Training {

  /** The five training modules, in page order. */
  const ModuleIds: seq<string> :=
    ["farm_hygiene", "feed_storage", "worker_protocols", "waste_management", "disease_prevention"]

  predicate NoDuplicates(s: seq<string>) {
    forall i, j :: 0 <= i < j < |s| ==> s[i] != s[j]
  }

  /** Completion percentage for `n` completed modules out of the five (`len / total * 100`). */
  function CompletionRate(n: nat): real {
    (n as real / |ModuleIds| as real) * 100.0
  }

  /** Python's `list.remove(x)`: drops the first occurrence of `x`. */
  function Remove(s: seq<string>, x: string): (r: seq<string>)
    requires x in s
    ensures |r| == |s| - 1
  {
    if s[0] == x then s[1..] else [s[0]] + Remove(s[1..], x)
  }

  /** Removing `x` keeps every other id and, without duplicates, leaves no `x` behind. */
  lemma {:induction false} RemoveKeepsOthers(s: seq<string>, x: string)
    requires x in s
    ensures forall y :: y != x ==> (y in Remove(s, x) <==> y in s)
    ensures NoDuplicates(s) ==> x !in Remove(s, x) && NoDuplicates(Remove(s, x))
  {
    if s[0] != x {
      RemoveKeepsOthers(s[1..], x);
      var r := Remove(s[1..], x);
      assert Remove(s, x) == [s[0]] + r;
      if NoDuplicates(s) {
        assert NoDuplicates(s[1..]) by {
          forall i, j | 0 <= i < j < |s| - 1 ensures s[1..][i] != s[1..][j] {
            assert s[1..][i] == s[i + 1] && s[1..][j] == s[j + 1];
          }
        }
        assert s[0] !in s[1..] by {
          forall k | 0 <= k < |s| - 1 ensures s[1..][k] != s[0] {
            assert s[1..][k] == s[k + 1];
          }
        }
        assert s[0] !in r;
      }
    } else if NoDuplicates(s) {
      assert forall k :: 0 <= k < |s| - 1 ==> s[1..][k] == s[k + 1];
    }
  }

  /** Distinct elements of a sequence: as many as its length when nothing repeats. */
  lemma {:induction false} DistinctCount(s: seq<string>)
    requires NoDuplicates(s)
    ensures |set x | x in s| == |s|
  {
    if s != [] {
      var t := s[1..];
      assert NoDuplicates(t) by {
        forall i, j | 0 <= i < j < |t| ensures t[i] != t[j] {
          assert t[i] == s[i + 1] && t[j] == s[j + 1];
        }
      }
      DistinctCount(t);
      assert s[0] !in t by {
        forall k | 0 <= k < |t| ensures t[k] != s[0] {
          assert t[k] == s[k + 1];
        }
      }
      assert (set x | x in s) == (set x | x in t) + {s[0]};
    }
  }

  /** A duplicate-free list of module ids has at most five entries, so the rate is at most 100. */
  lemma CompletedBounded(s: seq<string>)
    requires NoDuplicates(s)
    requires forall m :: m in s ==> m in ModuleIds
    ensures |s| <= |ModuleIds|
    ensures 0.0 <= CompletionRate(|s|) <= 100.0
  {
    DistinctCount(s);
    assert NoDuplicates(ModuleIds);
    DistinctCount(ModuleIds);
    var done, all := set x | x in s, set x | x in ModuleIds;
    assert done <= all;
    assert all == done + (all - done);
    assert |all| == |done| + |all - done|;
  }

  class UserProgress {
    var modulesCompleted: seq<string>
    var completionRate: real

    /** No id twice, and only ids of the five modules. */
    ghost predicate Valid()
      reads this
    {
      NoDuplicates(modulesCompleted) && forall m :: m in modulesCompleted ==> m in ModuleIds
    }

    /** A user the store does not know yet starts with nothing completed. */
    constructor New()
      ensures Valid()
      ensures modulesCompleted == [] && completionRate == 0.0
    {
      modulesCompleted := [];
      completionRate := 0.0;
    }

    /** The rate the progress overview shows, computed from the list itself. */
    function DisplayedRate(): (r: real)
      reads this
      requires Valid()
      ensures 0.0 <= r <= 100.0
    {
      CompletedBounded(modulesCompleted);
      CompletionRate(|modulesCompleted|)
    }

    /** "Mark Completed" on a module the user has not completed. */
    method MarkCompleted(id: string)
      requires Valid()
      requires id in ModuleIds && id !in modulesCompleted
      modifies this
      ensures Valid()
      ensures modulesCompleted == old(modulesCompleted) + [id]
      ensures completionRate == CompletionRate(|modulesCompleted|)
      ensures forall m :: m != id ==> (m in modulesCompleted <==> m in old(modulesCompleted))
    {
      modulesCompleted := modulesCompleted + [id];
      completionRate := (|modulesCompleted| as real / |ModuleIds| as real) * 100.0;
    }

    /** "Reset" on a completed module. */
    method Reset(id: string)
      requires Valid()
      requires id in modulesCompleted
      modifies this
      ensures Valid()
      ensures modulesCompleted == Remove(old(modulesCompleted), id)
      ensures id !in modulesCompleted && |modulesCompleted| == |old(modulesCompleted)| - 1
      ensures completionRate == CompletionRate(|modulesCompleted|)
      ensures forall m :: m != id ==> (m in modulesCompleted <==> m in old(modulesCompleted))
    {
      RemoveKeepsOthers(modulesCompleted, id);
      modulesCompleted := Remove(modulesCompleted, id);
      completionRate := (|modulesCompleted| as real / |ModuleIds| as real) * 100.0;
    }
  }

  /** Marking and then resetting a module restores the list. */
  lemma MarkThenResetRestores(s: seq<string>, id: string)
    requires id !in s
    ensures Remove(s + [id], id) == s
  {
    if s != [] {
      assert (s + [id])[1..] == s[1..] + [id];
      MarkThenResetRestores(s[1..], id);
    }
  }
}
