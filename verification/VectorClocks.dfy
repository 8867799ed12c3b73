/** VectorClock: per-participant clocks and a cached minimum that is never recomputed. */
module VectorClocks {

  /** `low` is the least value of `m`. */
  ghost predicate IsMin(m: map<int, int>, low: int) {
    (exists i :: i in m && m[i] == low) && (forall i | i in m :: low <= m[i])
  }

  /** `id` alone has the value `low`. */
  ghost predicate SoleMin(m: map<int, int>, low: int, id: int) {
    id in m && m[id] == low && forall i | i in m && i != id :: m[i] != low
  }

  /** One tick moves the minimum by one when a sole slowest participant makes it, else not at all. */
  lemma TickedMin(m: map<int, int>, low: int, id: int)
    requires IsMin(m, low) && id in m
    ensures IsMin(m[id := m[id] + 1], if SoleMin(m, low, id) then low + 1 else low)
  {
    var m' := m[id := m[id] + 1];
    if SoleMin(m, low, id) {
      assert m'[id] == low + 1;
    } else if m[id] == low {
      var i :| i in m && i != id && m[i] == low;
      assert m'[i] == low;
    } else {
      var i :| i in m && m[i] == low;
      assert m'[i] == low;
    }
  }

  lemma MinIsUnique(m: map<int, int>, low: int, low': int)
    requires IsMin(m, low) && IsMin(m, low')
    ensures low == low'
  {
    var i :| i in m && m[i] == low;
    var i' :| i' in m && m[i'] == low';
  }

  lemma NonEmpty(s: set<int>)
    requires |s| > 0
    ensures exists i :: i in s
  {
    assert (forall i :: i !in s) ==> s == {};
  }

  class VectorClock {
    var clocks: map<int, int>
    var minClock: int

    /** The cached minimum is the true one; -1 stands for no participants. */
    ghost predicate Valid()
      reads this
    {
      if clocks == map[] then minClock == -1 else IsMin(clocks, minClock) && 0 <= minClock
    }

    constructor ()
      ensures Valid() && clocks == map[]
    {
      clocks, minClock := map[], -1;
    }

    /** Everyone starts at zero. With nobody to start, the cached minimum is wrong at once. */
    constructor FromIds(ids: seq<int>)
      ensures forall i :: i in clocks <==> i in ids
      ensures forall i | i in ids :: clocks[i] == 0
      ensures minClock == 0
      ensures Valid() <==> ids != []
    {
      clocks, minClock := map i | i in ids :: 0, 0;
      new;
      if ids != [] {
        ghost var i := ids[0];
        assert i in ids && i in clocks && clocks[i] == 0;
        assert clocks != map[] && IsMin(clocks, minClock);
      } else {
        assert clocks == map[];
      }
    }

    /** Adds or overwrites a clock. The cached minimum stays true unless this moves a sole
        slowest participant forward. */
    method AddClock(id: int, clock: int)
      requires Valid() && 0 <= clock
      modifies this
      ensures clocks == old(clocks)[id := clock]
      ensures Valid() <==> !(SoleMin(old(clocks), old(minClock), id) && clock > old(minClock))
      ensures minClock == if old(minClock) == -1 || clock < old(minClock) then clock else old(minClock)
    {
      ghost var was := clocks;
      ghost var low := minClock;
      clocks := clocks[id := clock];
      if minClock == -1 || clock < minClock {
        minClock := clock;
        assert clocks[id] == minClock;
      } else if clock == minClock {
        assert clocks[id] == minClock;
      } else if !SoleMin(was, low, id) {
        var i :| i in was && was[i] == low;
        if id in was && was[id] == low {
          var j :| j in was && j != id && was[j] == low;
          assert clocks[j] == low;
        } else {
          assert clocks[i] == low;
        }
      }
    }

    method IsUniqueMin(id: int) returns (unique: bool)
      requires id in clocks
      ensures unique <==> SoleMin(clocks, minClock, id)
    {
      if clocks[id] != minClock {
        return false;
      }
      var todo: set<int> := clocks.Keys;
      var numMin := 0;
      ghost var found: set<int> := {};
      while |todo| > 0
        invariant todo <= clocks.Keys
        invariant forall i :: i in found <==> i in clocks && i !in todo && clocks[i] == minClock
        invariant numMin == |found| <= 1
        decreases |todo|
      {
        NonEmpty(todo);
        var i :| i in todo;
        todo := todo - {i};
        if clocks[i] == minClock {
          numMin := numMin + 1;
          ghost var others := found;
          found := found + {i};
          if numMin > 1 {
            NonEmpty(others);
            ghost var j :| j in others;
            assert j != i && clocks[j] == minClock;
            return false;
          }
        }
      }
      assert id in found;
      forall i | i in clocks && i != id ensures clocks[i] != minClock {
        if clocks[i] == minClock {
          assert {i, id} <= found;
          SubsetSize({i, id}, found);
        }
      }
      return true;
    }

    /** Returns the new minimum if the true minimum moved, and 0 otherwise. */
    method Tick(id: int) returns (moved: int)
      requires Valid() && id in clocks
      modifies this
      ensures Valid() && clocks == old(clocks)[id := old(clocks)[id] + 1]
      ensures minClock == old(minClock) + (if SoleMin(old(clocks), old(minClock), id) then 1 else 0)
      ensures moved == if minClock > old(minClock) then minClock else 0
      ensures moved != 0 <==> !IsMin(clocks, old(minClock))
    {
      TickedMin(clocks, minClock, id);
      var unique := IsUniqueMin(id);
      ghost var low := minClock;
      if unique {
        clocks := clocks[id := clocks[id] + 1];
        minClock := minClock + 1;
        moved := minClock;
        if IsMin(clocks, low) {
          MinIsUnique(clocks, low, minClock);
        }
      } else {
        clocks := clocks[id := clocks[id] + 1];
        moved := 0;
      }
    }
  }

  lemma {:induction false} SubsetSize<T>(a: set<T>, b: set<T>)
    requires a <= b
    ensures |a| <= |b| && (|a| == |b| ==> a == b)
  {
    if a != {} {
      var x :| x in a;
      SubsetSize(a - {x}, b - {x});
    }
  }
}
