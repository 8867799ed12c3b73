/** ServerVersionMgr: the slowest acknowledged version, kept in 32 bits.

    Beside the stored numbers stand the unbounded ones they abbreviate. */
module ServerVersions {
  import opened VectorClocks

  const TwoTo32: int := 0x1_0000_0000

  /** What a uint32_t keeps of `x`; the initial -1 becomes the largest one. */
  function U32(x: int): int {
    x % 0x1_0000_0000
  }

  lemma U32Next(x: int)
    ensures U32(U32(x) + 1) == U32(x + 1)
  {
  }

  // ------------------------------------------------ a window of versions

  /** Inside a window shorter than 2^32, 32 bits name a version. */
  lemma WindowNames(low: int, x: int, y: int)
    requires low <= x < low + TwoTo32 && low <= y < low + TwoTo32
    ensures U32(x) == U32(y) <==> x == y
  {
  }

  /** And no wider window does that for its lowest version: the bound is exact. */
  lemma SpreadIsExact(low: int, high: int)
    requires low <= high
    ensures (forall t | low < t <= high :: U32(t) != U32(low)) <==> high - low < TwoTo32
  {
    if high - low < TwoTo32 {
      forall t | low < t <= high ensures U32(t) != U32(low) {
        WindowNames(low, t, low);
      }
    } else {
      assert U32(low + TwoTo32) == U32(low);
    }
  }

  /** Whether the run of versions from `v` up to `current` has wrapped, as the replay loops test it. */
  lemma NotWrappedIff(v: int, current: int)
    requires v <= current < v + TwoTo32
    ensures U32(v) <= U32(current) <==> v / TwoTo32 == current / TwoTo32
  {
  }

  /** A bg at true version 2^32 + 1, a row that reflects version 2^32 - 2: two oplogs are to be
      replayed, the versions are well within the window, and the test says there are none. */
  lemma WrappedReplayFindsNothing()
    ensures var t, current := TwoTo32 - 2, TwoTo32 + 1;
      t + 1 < current < t + TwoTo32 && U32(t + 1) > U32(current)
  {
  }

  /** Where version `x` of the window that starts at `low` lands. */
  lemma Placed(low: int, high: int, x: int)
    requires low <= x <= high < low + TwoTo32
    ensures U32(x) == if U32(low) + (x - low) < TwoTo32 then U32(low) + (x - low) else U32(low) + (x - low) - TwoTo32
    ensures U32(low) <= U32(high) ==> U32(x) == U32(low) + (x - low)
    ensures U32(low) > U32(high) ==> (U32(x) > U32(high) <==> U32(low) + (x - low) < TwoTo32)
  {
  }

  /** The comparison of the wrapped branch of SetServerVersion. */
  predicate WrappedLess(x: int, least: int, upper: int) {
    || (least > upper && x > upper && x < least)
    || (least <= upper && (x > upper || (x <= upper && x < least)))
  }

  /** In both branches the comparison of 32-bit versions is that of the true ones. */
  lemma LessIsLess(low: int, high: int, x: int, y: int)
    requires low <= x <= high < low + TwoTo32 && low <= y <= high
    ensures U32(low) <= U32(high) ==> (U32(x) < U32(y) <==> x < y)
    ensures U32(low) > U32(high) ==> (WrappedLess(U32(x), U32(y), U32(high)) <==> x < y)
  {
    Placed(low, high, x);
    Placed(low, high, y);
  }

  ghost predicate Abbreviates(m: map<int, int>, v: map<int, int>) {
    m.Keys == v.Keys && forall s | s in v :: m[s] == U32(v[s])
  }

  class ServerVersionMgr {
    var versions: map<int, int>
    var upper: int
    var minVersion: int

    ghost var trueVersions: map<int, int>
    ghost var trueUpper: int
    ghost var trueMin: int

    /** Every stored number abbreviates the true one, and the true minimum is one. */
    ghost predicate Valid()
      reads this
    {
      && Abbreviates(versions, trueVersions)
      && upper == U32(trueUpper) && minVersion == U32(trueMin)
      && (forall s | s in trueVersions :: trueVersions[s] <= trueUpper)
      && (if trueVersions == map[] then trueMin == -1 else IsMin(trueVersions, trueMin))
      && trueMin <= trueUpper
    }

    /** The slowest server is less than 2^32 versions behind. */
    ghost predicate Close()
      reads this
    {
      trueUpper - trueMin < TwoTo32
    }

    constructor (servers: seq<int>)
      ensures Valid() && Close() && trueUpper == -1 && trueMin == -1
      ensures forall s :: s in versions <==> s in servers
      ensures forall s | s in servers :: trueVersions[s] == -1
    {
      versions := map s | s in servers :: U32(-1);
      upper, minVersion := U32(-1), U32(-1);
      trueVersions := map s | s in servers :: -1;
      trueUpper, trueMin := -1, -1;
      new;
      if servers != [] {
        ghost var s := servers[0];
        assert s in servers && s in trueVersions;
      }
    }

    /** Close is lost only when the slowest server is 2^32 behind. */
    method IncVersionUpperBound()
      requires Valid()
      modifies this`upper, this`trueUpper
      ensures Valid() && trueUpper == old(trueUpper) + 1
      ensures upper == U32(old(upper) + 1)
    {
      upper := U32(upper + 1);
      trueUpper := trueUpper + 1;
    }

    method IsUniqueMin(server: int) returns (unique: bool)
      requires Valid() && Close() && server in versions
      ensures unique <==> SoleMin(trueVersions, trueMin, server)
    {
      if versions[server] != minVersion {
        return false;
      }
      Names();
      var todo := versions.Keys;
      var numMin := 0;
      ghost var found := {};
      while todo != {}
        invariant todo <= versions.Keys
        invariant forall s :: s in found <==> s in versions && s !in todo && versions[s] == minVersion
        invariant numMin == |found| <= 1
        decreases |todo|
      {
        NonEmpty(todo);
        var s :| s in todo;
        todo := todo - {s};
        if versions[s] == minVersion {
          numMin := numMin + 1;
          ghost var others := found;
          found := found + {s};
          if numMin > 1 {
            NonEmpty(others);
            ghost var s' :| s' in others;
            assert s' != s && trueVersions[s'] == trueMin == trueVersions[s];
            return false;
          }
        }
      }
      assert server in found;
      forall s | s in trueVersions && s != server ensures trueVersions[s] != trueMin {
        if trueVersions[s] == trueMin {
          SubsetSize({s, server}, found);
        }
      }
      return true;
    }

    /** While close, a stored version equals the stored minimum only if it is the minimum. */
    lemma Names()
      requires Valid() && Close() && trueVersions != map[]
      ensures forall s | s in versions :: versions[s] == minVersion <==> trueVersions[s] == trueMin
    {
      forall s | s in versions ensures versions[s] == minVersion <==> trueVersions[s] == trueMin {
        WindowNames(trueMin, trueVersions[s], trueMin);
      }
    }

    /** The scan for the new minimum, in whichever order the present window calls for. */
    method Scan(version: int, wrapped: bool, ghost low: int, ghost t: int) returns (least: int, ghost trueLeast: int)
      requires Abbreviates(versions, trueVersions) && upper == U32(trueUpper) && version == U32(t)
      requires low <= t <= trueUpper < low + TwoTo32
      requires forall s | s in trueVersions :: low <= trueVersions[s] <= trueUpper
      requires exists s :: s in trueVersions && trueVersions[s] == t
      requires wrapped <==> U32(low) > upper
      ensures least == U32(trueLeast) && IsMin(trueVersions, trueLeast)
      ensures forall v | IsMin(trueVersions, v) :: least == U32(v)
    {
      least, trueLeast := version, t;
      var todo := versions.Keys;
      while todo != {}
        invariant todo <= versions.Keys
        invariant least == U32(trueLeast) && low <= trueLeast <= trueUpper
        invariant exists s :: s in trueVersions && trueVersions[s] == trueLeast
        invariant forall s | s in trueVersions && s !in todo :: trueLeast <= trueVersions[s]
        decreases |todo|
      {
        NonEmpty(todo);
        var s :| s in todo;
        todo := todo - {s};
        LessIsLess(low, trueUpper, trueVersions[s], trueLeast);
        if (if wrapped then WrappedLess(versions[s], least, upper) else versions[s] < least) {
          least, trueLeast := versions[s], trueVersions[s];
        }
      }
      forall v | IsMin(trueVersions, v) ensures v == trueLeast {
        MinIsUnique(trueVersions, v, trueLeast);
      }
    }

    /** Server `server` has acknowledged true version `t`, of which `version` arrived. The stored
        minimum stays the true one, and the answer says whether it grew. */
    method SetServerVersion(server: int, version: int, ghost t: int) returns (grew: bool)
      requires Valid() && Close() && server in versions && version == U32(t)
      requires trueVersions[server] <= t <= trueUpper
      modifies this
      ensures Valid() && Close()
      ensures trueUpper == old(trueUpper) && trueVersions == old(trueVersions)[server := t]
      ensures trueMin >= old(trueMin) && (grew <==> trueMin > old(trueMin))
      ensures upper == old(upper)
    {
      WindowNames(trueMin, trueVersions[server], t);
      if versions[server] == version {
        assert trueVersions[server := t] == trueVersions;
        return false;
      }
      var unique := IsUniqueMin(server);
      ghost var low := trueMin;
      ghost var before := trueVersions;
      versions := versions[server := version];
      trueVersions := trueVersions[server := t];
      if !unique {
        OthersKeepMin(before, low, server, t);
        return false;
      }
      assert trueVersions[server] == t;
      Placed(low, trueUpper, t);
      if minVersion < upper {
        assert version <= upper;
        minVersion, trueMin := Scan(version, false, low, t);
      } else {
        WindowNames(low, low, trueUpper);
        minVersion, trueMin := Scan(version, true, low, t);
      }
      return true;
    }
  }

  /** Advancing a participant that is not the sole slowest leaves the minimum alone. */
  lemma OthersKeepMin(m: map<int, int>, low: int, id: int, t: int)
    requires IsMin(m, low) && id in m && m[id] <= t && !SoleMin(m, low, id)
    ensures IsMin(m[id := t], low)
  {
    var i :| i in m && m[i] == low;
    if i == id {
      var j :| j in m && j != id && m[j] == low;
      assert m[id := t][j] == low;
    } else {
      assert m[id := t][i] == low;
    }
  }

  /** One server, 2^32 versions behind, acknowledges everything: the stored numbers cannot tell. */
  lemma FarBehindGoesUnnoticed(low: int)
    ensures var high := low + TwoTo32;
      U32(high) == U32(low) && IsMin(map[0 := low], low) && IsMin(map[0 := low][0 := high], high) && high > low
  {
    var high := low + TwoTo32;
    assert map[0 := low][0] == low && map[0 := low][0 := high][0] == high;
  }
}
