/** The list of requests for one row that wait at a bg thread, in increasing order of clock.

    Only some of them have been sent on; the rest count on an earlier one's reply. */
module PendingRequests {
  import opened PsTypes

  /** `version` is the true (unbounded) version; the code stores it in 32 bits. */
  datatype RowRequest = RowRequest(thread: int, clock: nat, version: int, sent: bool)

  /** A request the server has been sent and has not answered. */
  datatype Ask = Ask(key: Key, clock: nat)

  type Pending = map<Key, seq<RowRequest>>

  function ListOf(pending: Pending, key: Key): seq<RowRequest> {
    if key in pending then pending[key] else []
  }

  ghost predicate Sorted(list: seq<RowRequest>) {
    forall i, j | 0 <= i < j < |list| :: list[i].clock <= list[j].clock
  }

  /** Every request marked sent is outstanding at the server. */
  ghost predicate SentOnes(key: Key, list: seq<RowRequest>, asked: set<Ask>) {
    forall r | r in list && r.sent :: Ask(key, r.clock) in asked
  }

  /** Nobody is stranded: the first in line is outstanding, and the line is in order. */
  ghost predicate ListOk(key: Key, list: seq<RowRequest>, asked: set<Ask>) {
    list != [] && Sorted(list) && list[0].sent && SentOnes(key, list, asked)
  }

  ghost predicate PendingOk(pending: Pending, asked: set<Ask>) {
    forall key {:trigger ListOk(key, pending[key], asked)} | key in pending :: ListOk(key, pending[key], asked)
  }

  /** Where a request for `clock` goes: behind everyone with a clock up to its own. */
  method FindSlot(list: seq<RowRequest>, clock: nat) returns (p: nat)
    ensures p <= |list|
    ensures p > 0 ==> list[p - 1].clock <= clock
    ensures forall i | p <= i < |list| :: clock < list[i].clock
  {
    p := |list|;
    while p > 0 && clock < list[p - 1].clock
      invariant p <= |list|
      invariant forall i | p <= i < |list| :: clock < list[i].clock
    {
      p := p - 1;
    }
  }

  function Inserted(list: seq<RowRequest>, p: nat, r: RowRequest): seq<RowRequest>
    requires p <= |list|
  {
    list[..p] + [r.(sent := p == 0)] + list[p..]
  }

  /** Sent on exactly when it is first in line; either way the line stays in order. */
  lemma InsertedOk(key: Key, list: seq<RowRequest>, p: nat, r: RowRequest, asked: set<Ask>)
    requires list != [] ==> ListOk(key, list, asked)
    requires p <= |list| && (p > 0 ==> list[p - 1].clock <= r.clock) && (forall i | p <= i < |list| :: r.clock < list[i].clock)
    ensures ListOk(key, Inserted(list, p, r), asked + if p == 0 then {Ask(key, r.clock)} else {})
    ensures p == 0 <==> forall x | x in list :: r.clock < x.clock
  {
    var list' := Inserted(list, p, r);
    forall x | x in list' ensures x in list || x == r.(sent := p == 0) {}
    if p > 0 {
      assert list[p - 1] in list;
    }
  }

  /** How many from the front a reply at clock `k` serves. */
  ghost function Due(list: seq<RowRequest>, k: int): (n: nat)
    ensures n <= |list|
  {
    if list == [] || list[0].clock > k then 0 else 1 + Due(list[1..], k)
  }

  /** They are exactly the requests with clock at most `k`. */
  lemma {:induction false} DueSplits(list: seq<RowRequest>, k: int, i: nat)
    requires Sorted(list) && i < |list|
    ensures i < Due(list, k) <==> list[i].clock <= k
  {
    if list[0].clock <= k && i > 0 {
      DueSplits(list[1..], k, i - 1);
    }
  }

  lemma {:induction false} DueFrom(list: seq<RowRequest>, k: int, m: nat)
    requires m <= |list| && forall i | 0 <= i < m :: list[i].clock <= k
    requires m == |list| || list[m].clock > k
    ensures Due(list, k) == m
  {
    if m > 0 {
      DueFrom(list[1..], k, m - 1);
    }
  }

  function Threads(list: seq<RowRequest>): seq<int> {
    seq(|list|, i requires 0 <= i < |list| => list[i].thread)
  }

  /** The new first in line is sent now if it was not, as of version `version`. */
  function Resent(list: seq<RowRequest>, version: int): seq<RowRequest>
    requires list != []
  {
    if list[0].sent then list else [list[0].(sent := true, version := version)] + list[1..]
  }

  /** What a reply at clock `k` to the request for clock `c` leaves in line. */
  lemma LeftOk(key: Key, list: seq<RowRequest>, n: nat, c: nat, k: int, version: int, asked: set<Ask>)
    requires Sorted(list) && SentOnes(key, list, asked) && n < |list| && c <= k && forall i | n <= i < |list| :: list[i].clock > k
    ensures ListOk(key, Resent(list[n..], version),
                   asked - {Ask(key, c)} + if list[n].sent then {} else {Ask(key, list[n].clock)})
  {
    var left := Resent(list[n..], version);
    forall r | r in left && r.sent && r != left[0] ensures Ask(key, r.clock) in asked && r.clock != c {
      assert r in list[n..];
      assert r in list;
    }
    assert list[n] in list;
  }

  /** Who waits, and for which clock. */
  datatype Waiter = Waiter(thread: int, clock: nat)

  ghost function Waiters(list: seq<RowRequest>): seq<Waiter> {
    seq(|list|, i requires 0 <= i < |list| => Waiter(list[i].thread, list[i].clock))
  }

  /** `list'` is `list` with a request by `thread` for `clock`, made at version `version`, at place `p`:
      behind everyone whose clock is at most its own. It is marked sent if it is first. */
  ghost predicate JoinedAt(list: seq<RowRequest>, list': seq<RowRequest>, thread: int, clock: nat, version: int, p: nat) {
    && |list'| == |list| + 1 && p <= |list|
    && list'[p].thread == thread && list'[p].clock == clock && list'[p].version == version && (list'[p].sent <==> p == 0)
    && (forall i | 0 <= i < p :: list'[i] == list[i] && list[i].clock <= clock)
    && (forall i | p <= i < |list| :: list'[i + 1] == list[i] && clock < list[i].clock)
  }

  ghost predicate Joined(list: seq<RowRequest>, list': seq<RowRequest>, thread: int, clock: nat, version: int) {
    exists p: nat :: JoinedAt(list, list', thread, clock, version, p)
  }

  /** Exactly one more waits, and for what it asked. */
  lemma {:induction false} JoinedWaiters(list: seq<RowRequest>, list': seq<RowRequest>, thread: int, clock: nat, version: int)
    requires Joined(list, list', thread, clock, version)
    ensures multiset(Waiters(list')) == multiset(Waiters(list)) + multiset{Waiter(thread, clock)}
  {
    var p: nat :| JoinedAt(list, list', thread, clock, version, p);
    var ws, ws' := Waiters(list), Waiters(list');
    forall i | 0 <= i < |ws'| ensures ws'[i] == (ws[..p] + [Waiter(thread, clock)] + ws[p..])[i] {
      assert i > p ==> list'[i - 1 + 1] == list[i - 1];
    }
    assert ws' == ws[..p] + [Waiter(thread, clock)] + ws[p..];
    assert ws == ws[..p] + ws[p..];
  }

  /** A reply at clock `k` lets exactly the requests with clock at most `k` go, from the front and in
      order; the others stay as they were, except that the first of them, if it was not sent, is now,
      as of version `version`. */
  ghost predicate ServedUpTo(list: seq<RowRequest>, left: seq<RowRequest>, threads: seq<int>, resend: int, k: int, version: int) {
    var n := |threads|;
    && |list| == n + |left|
    && (forall i | 0 <= i < |list| :: i < n <==> list[i].clock <= k)
    && (forall i | 0 <= i < n :: threads[i] == list[i].thread)
    && (forall i | 0 < i < |left| :: left[i] == list[n + i])
    && (if left == [] || list[n].sent then resend == -1 else resend == list[n].clock)
    && (left != [] ==>
          && left[0].thread == list[n].thread && left[0].clock == list[n].clock && left[0].sent
          && left[0].version == if list[n].sent then list[n].version else version)
  }

  lemma {:induction false} Absent(ws: seq<Waiter>, w: Waiter)
    requires forall i | 0 <= i < |ws| :: ws[i] != w
    ensures multiset(ws)[w] == 0
  {
    assert w !in ws;
  }

  lemma {:induction false} SplitCounts(ws: seq<Waiter>, n: nat, w: Waiter)
    requires n <= |ws|
    ensures multiset(ws)[w] == multiset(ws[..n])[w] + multiset(ws[n..])[w]
  {
    assert ws == ws[..n] + ws[n..];
  }

  /** Nobody with a clock up to `k` waits any more, everybody else does, for what they asked. */
  lemma {:induction false} ServedWaiters(list: seq<RowRequest>, left: seq<RowRequest>, threads: seq<int>, resend: int, k: int, version: int, w: Waiter)
    requires ServedUpTo(list, left, threads, resend, k, version)
    ensures multiset(Waiters(left))[w] == if w.clock <= k then 0 else multiset(Waiters(list))[w]
  {
    var n, ws := |threads|, Waiters(list);
    assert Waiters(left) == ws[n..];
    SplitCounts(ws, n, w);
    if w.clock <= k {
      Absent(ws[n..], w);
    } else {
      Absent(ws[..n], w);
    }
  }

  /** The specification functions below say just that. */
  lemma {:induction false} ServedIs(was: Pending, key: Key, clock: int, version: int)
    requires key in was ==> Sorted(was[key])
    ensures var now := Remaining(was, key, clock, version);
      ServedUpTo(ListOf(was, key), ListOf(now, key), Released(was, key, clock), ToResend(was, key, clock), clock, version)
  {
    var list := ListOf(was, key);
    var n := Due(list, clock);
    forall i | 0 <= i < |list| ensures i < n <==> list[i].clock <= clock {
      DueSplits(list, clock, i);
    }
    LineServed(list, n, clock, version);
    assert ListOf(Remaining(was, key, clock, version), key) == if n == |list| then [] else Resent(list[n..], version);
  }

  lemma {:induction false} LineServed(list: seq<RowRequest>, n: nat, clock: int, version: int)
    requires n <= |list| && forall i | 0 <= i < |list| :: i < n <==> list[i].clock <= clock
    ensures ServedUpTo(list, if n == |list| then [] else Resent(list[n..], version), Threads(list[..n]),
                       if n == |list| || list[n].sent then -1 else list[n].clock, clock, version)
  {
    if n < |list| {
      var left := Resent(list[n..], version);
      assert forall i | 0 < i < |left| :: left[i] == list[n + i];
    }
  }

  lemma AddedOk(pending: Pending, key: Key, p: nat, r: RowRequest, asked: set<Ask>)
    requires PendingOk(pending, asked)
    requires var list := ListOf(pending, key);
      p <= |list| && (p > 0 ==> list[p - 1].clock <= r.clock) && (forall i | p <= i < |list| :: r.clock < list[i].clock)
    ensures var list := ListOf(pending, key);
      && PendingOk(pending[key := Inserted(list, p, r)], asked + if p == 0 then {Ask(key, r.clock)} else {})
      && (p == 0 <==> forall x | x in list :: r.clock < x.clock)
      && Joined(list, Inserted(list, p, r), r.thread, r.clock, r.version)
  {
    var list := ListOf(pending, key);
    InsertedOk(key, list, p, r, asked);
    OthersOk(pending, pending[key := Inserted(list, p, r)], key, asked, asked + if p == 0 then {Ask(key, r.clock)} else {});
    assert list != [] ==> ListOk(key, list, asked);
    InsertedJoins(list, p, r);
  }

  lemma {:induction false} InsertedJoins(list: seq<RowRequest>, p: nat, r: RowRequest)
    requires Sorted(list) && p <= |list| && (p > 0 ==> list[p - 1].clock <= r.clock) && forall i | p <= i < |list| :: r.clock < list[i].clock
    ensures Joined(list, Inserted(list, p, r), r.thread, r.clock, r.version)
  {
    var list' := Inserted(list, p, r);
    InsertedAt(list, p, r);
    assert forall i | 0 <= i < p :: list[i].clock <= list[p - 1].clock;
    assert JoinedAt(list, list', r.thread, r.clock, r.version, p);
  }

  lemma {:induction false} InsertedAt(list: seq<RowRequest>, p: nat, r: RowRequest)
    requires p <= |list|
    ensures var list' := Inserted(list, p, r);
      && |list'| == |list| + 1 && list'[p] == r.(sent := p == 0)
      && (forall i | 0 <= i < p :: list'[i] == list[i])
      && (forall i | p <= i < |list| :: list'[i + 1] == list[i])
  {
  }

  /** What a reply at `clock` does to the line for its row: who leaves, who stays, and the
      clock to ask for next (-1 for none). */
  ghost function Released(was: Pending, key: Key, clock: int): seq<int> {
    var list := ListOf(was, key);
    Threads(list[..Due(list, clock)])
  }

  ghost function Remaining(was: Pending, key: Key, clock: int, version: int): Pending {
    var list := ListOf(was, key);
    var n := Due(list, clock);
    if n == |list| then was - {key} else was[key := Resent(list[n..], version)]
  }

  ghost function ToResend(was: Pending, key: Key, clock: int): int {
    var list := ListOf(was, key);
    var n := Due(list, clock);
    if n == |list| || list[n].sent then -1 else list[n].clock
  }

  ghost function StillAsked(asked: set<Ask>, key: Key, c: nat, resend: int): set<Ask> {
    asked - {Ask(key, c)} + if resend >= 0 then {Ask(key, resend)} else {}
  }

  /** A reply leaves every line in order with its first request outstanding. */
  lemma RepliedOk(was: Pending, key: Key, c: nat, clock: int, version: int, asked: set<Ask>)
    requires PendingOk(was, asked) && c <= clock
    ensures ServedUpTo(ListOf(was, key), ListOf(Remaining(was, key, clock, version), key), Released(was, key, clock),
                       ToResend(was, key, clock), clock, version)
    ensures PendingOk(Remaining(was, key, clock, version), StillAsked(asked, key, c, ToResend(was, key, clock)))
  {
    var list := ListOf(was, key);
    var n := Due(list, clock);
    if key in was {
      assert ListOk(key, list, asked);
    }
    ServedIs(was, key, clock, version);
    if key in was {
      if n < |list| {
        forall i | n <= i < |list| ensures list[i].clock > clock {
          DueSplits(list, clock, i);
        }
        LeftOk(key, list, n, c, clock, version, asked);
      }
    }
    OthersOk(was, Remaining(was, key, clock, version), key, asked, StillAsked(asked, key, c, ToResend(was, key, clock)));
  }

  /** Lists of other rows do not notice a reply for this one. */
  lemma OthersOk(was: Pending, now: Pending, key: Key, asked: set<Ask>, asked': set<Ask>)
    requires PendingOk(was, asked) && now.Keys <= was.Keys + {key}
    requires forall k | k in now && k != key :: k in was && now[k] == was[k]
    requires forall a | a in asked && a.key != key :: a in asked'
    requires key in now ==> ListOk(key, now[key], asked')
    ensures PendingOk(now, asked')
  {
    forall k | k in now ensures ListOk(k, now[k], asked') {
      assert k != key ==> ListOk(k, was[k], asked);
    }
  }

  // ------------------------------------------------ counting requests by version

  ghost function CountIn(list: seq<RowRequest>, v: int): nat {
    if list == [] then 0 else (if list[0].version == v then 1 else 0) + CountIn(list[1..], v)
  }

  ghost function Total(pending: Pending, v: int): nat
    decreases |pending|
  {
    if pending == map[] then 0
    else
      var key :| key in pending;
      CountIn(pending[key], v) + Total(pending - {key}, v)
  }

  lemma {:induction false} TotalWithout(pending: Pending, key: Key, v: int)
    requires key in pending
    ensures Total(pending, v) == CountIn(pending[key], v) + Total(pending - {key}, v)
    decreases |pending|
  {
    var first :| first in pending && Total(pending, v) == CountIn(pending[first], v) + Total(pending - {first}, v);
    if first != key {
      TotalWithout(pending - {first}, key, v);
      TotalWithout(pending - {key}, first, v);
      assert pending - {first} - {key} == pending - {key} - {first};
    }
  }

  lemma TotalWith(pending: Pending, key: Key, list: seq<RowRequest>, v: int)
    ensures Total(pending[key := list], v) == Total(pending, v) - CountIn(ListOf(pending, key), v) + CountIn(list, v)
  {
    TotalWithout(pending[key := list], key, v);
    assert pending[key := list] - {key} == pending - {key};
    if key in pending {
      TotalWithout(pending, key, v);
    } else {
      assert pending - {key} == pending;
    }
  }

  lemma {:induction false} CountAppend(a: seq<RowRequest>, b: seq<RowRequest>, v: int)
    ensures CountIn(a + b, v) == CountIn(a, v) + CountIn(b, v)
  {
    if a == [] {
      assert a + b == b;
    } else {
      assert (a + b)[1..] == a[1..] + b;
      CountAppend(a[1..], b, v);
    }
  }

  lemma CountInserted(list: seq<RowRequest>, p: nat, r: RowRequest, v: int)
    requires p <= |list|
    ensures CountIn(Inserted(list, p, r), v) == CountIn(list, v) + if r.version == v then 1 else 0
  {
    var one := [r.(sent := p == 0)];
    CountAppend(list[..p] + one, list[p..], v);
    CountAppend(list[..p], one, v);
    CountAppend(list[..p], list[p..], v);
    assert list[..p] + list[p..] == list;
    assert one[1..] == [];
  }
}
