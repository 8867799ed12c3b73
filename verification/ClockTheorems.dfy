/** Clocks are minima: of a process over its threads, of a client at a server over its bgs, and of
    a server over its clients, so that a server's clock is the least clock any bg has shipped to it. */
module ClockTheorems {
  import opened PsTypes
  import opened ClientNode
  import opened ClientProofs
  import opened Protocol
  import opened ProtocolProofs

  /** Some thread's clock is the process clock. */
  ghost predicate HasSlowest(C: Client) {
    C.threads != map[] ==> exists t :: t in C.threads && C.threads[t].ticked == C.minClock
  }

  /** The process clock is the least of its threads' clocks. */
  ghost predicate ProcessClockOk(C: Client) {
    HasSlowest(C) && forall t | t in C.threads :: C.minClock <= C.threads[t].ticked
  }

  lemma TickSlowest(cfg: Config, c: nat, C: Client, C': Client, t: nat)
    requires ThreadsOk(c, C) && HasSlowest(C) && Tick(cfg, C, C', t)
    ensures HasSlowest(C')
  {
    TickEffect(cfg, C, C', t);
    if UniqueMin(C, t) {
      assert C'.threads[t].ticked == C'.minClock;
    } else if C.threads[t].ticked == C.minClock {
      var t' :| t' in C.threads && t' != t && C.threads[t'].ticked == C.minClock;
      assert C'.threads[t'].ticked == C'.minClock;
    } else {
      var t' :| t' in C.threads && C.threads[t'].ticked == C.minClock;
      assert C'.threads[t'].ticked == C'.minClock;
    }
  }

  lemma SameClocksSlowest(C: Client, C': Client)
    requires HasSlowest(C) && C'.minClock == C.minClock && C'.threads.Keys == C.threads.Keys
    requires forall t | t in C.threads :: C'.threads[t].ticked == C.threads[t].ticked
    ensures HasSlowest(C')
  {
    if C'.threads != map[] {
      assert C.threads != map[];
      var t :| t in C.threads && C.threads[t].ticked == C.minClock;
      assert C'.threads[t].ticked == C'.minClock;
    }
  }

  /** Only a tick moves clocks. */
  lemma OtherStepsSameClocks(cfg: Config, c: nat, C: Client, C': Client, step: Step)
    requires Shape(cfg, C) && ClientStep(cfg, c, C, C', step) && !step.DoTick?
    ensures C'.minClock == C.minClock && C'.threads.Keys == C.threads.Keys
    ensures forall t | t in C.threads :: C'.threads[t].ticked == C.threads[t].ticked
  {
  }

  lemma StepSlowest(cfg: Config, c: nat, C: Client, C': Client, step: Step)
    requires Shape(cfg, C) && ThreadsOk(c, C) && HasSlowest(C) && ClientStep(cfg, c, C, C', step)
    ensures HasSlowest(C')
  {
    if step.DoTick? {
      TickSlowest(cfg, c, C, C', step.t);
    } else {
      OtherStepsSameClocks(cfg, c, C, C', step);
      SameClocksSlowest(C, C');
    }
  }

  // ------------------------------------------------ servers

  ghost predicate HasSlowestBg(cfg: Config, sv: Server, c: nat) {
    exists b :: 0 <= b < cfg.numBgs && BgClock(sv, c, b) == ClientClock(sv, c)
  }

  ghost predicate HasSlowestClient(S: System, sv: Server) {
    S.clients != map[] ==> exists c :: c in S.clients && ClientClock(sv, c) == sv.minClock
  }

  ghost predicate ServerClocksLeast(cfg: Config, S: System, sv: Server) {
    HasSlowestClient(S, sv) && forall c | c in S.clients :: HasSlowestBg(cfg, sv, c)
  }

  lemma TickedClocks(cfg: Config, S: System, sv: Server, c: nat, b: nat, c': nat, b': nat)
    ensures var t := TickServer(cfg, S, sv, c, b);
      && BgClock(t, c', b') == BgClock(sv, c', b') + (if c' == c && b' == b then 1 else 0)
      && ClientClock(t, c') == ClientClock(sv, c') + (if c' == c && SlowestBg(cfg, sv, c, b) then 1 else 0)
  {
  }

  /** The second level after a tick of bg (c, b). */
  lemma TickSlowestBg(cfg: Config, S: System, sv: Server, c: nat, b: nat, c': nat)
    requires b < cfg.numBgs && HasSlowestBg(cfg, sv, c')
    ensures HasSlowestBg(cfg, TickServer(cfg, S, sv, c, b), c')
  {
    var b0: nat :| b0 < cfg.numBgs && BgClock(sv, c', b0) == ClientClock(sv, c');
    var b1: nat := b0;
    if c' == c && SlowestBg(cfg, sv, c, b) {
      b1 := b;
    } else if c' == c && BgClock(sv, c, b) == ClientClock(sv, c) {
      b1 :| b1 < cfg.numBgs && b1 != b && BgClock(sv, c, b1) == ClientClock(sv, c);
    }
    TickedClocks(cfg, S, sv, c, b, c', b1);
    assert BgClock(TickServer(cfg, S, sv, c, b), c', b1) == ClientClock(TickServer(cfg, S, sv, c, b), c');
  }

  lemma TickSlowestClient(cfg: Config, S: System, sv: Server, c: nat, b: nat)
    requires c in S.clients && HasSlowestClient(S, sv)
    ensures HasSlowestClient(S, TickServer(cfg, S, sv, c, b))
  {
    var t := TickServer(cfg, S, sv, c, b);
    var c0 :| c0 in S.clients && ClientClock(sv, c0) == sv.minClock;
    if !SlowestBg(cfg, sv, c, b) {
      assert ClientClock(t, c0) == t.minClock;
    } else if SlowestClient(S, sv, c) {
      assert ClientClock(t, c) == t.minClock;
    } else if ClientClock(sv, c) == sv.minClock {
      var c1 :| c1 in S.clients && c1 != c && ClientClock(sv, c1) == sv.minClock;
      assert ClientClock(t, c1) == t.minClock;
    } else {
      assert c0 != c && ClientClock(t, c0) == t.minClock;
    }
  }

  /** Applying a shipment keeps all three levels minima. */
  lemma HandledLeast(cfg: Config, S: System, sv: Server, s: nat, c: nat, b: nat, sh: Shipment)
    requires c in S.clients && b < cfg.numBgs && ServerClocksLeast(cfg, S, sv)
    ensures ServerClocksLeast(cfg, S, Handled(cfg, S, sv, s, c, b, sh))
  {
    var w := AfterOpLog(cfg, sv, s, c, b, sh);
    SameServerClocks(cfg, S, sv, S, w);
    if sh.isClock {
      TickSlowestClient(cfg, S, w, c, b);
      forall c' | c' in S.clients ensures HasSlowestBg(cfg, TickServer(cfg, S, w, c, b), c') {
        TickSlowestBg(cfg, S, w, c, b, c');
      }
    }
  }

  lemma SameServerClocks(cfg: Config, S: System, sv: Server, S': System, sv': Server)
    requires ServerClocksLeast(cfg, S, sv) && S'.clients.Keys == S.clients.Keys
    requires sv'.bgClock == sv.bgClock && sv'.clientClock == sv.clientClock && sv'.minClock == sv.minClock
    ensures ServerClocksLeast(cfg, S', sv')
  {
    if S'.clients != map[] {
      var c :| c in S.clients && ClientClock(sv, c) == sv.minClock;
      assert ClientClock(sv', c) == sv'.minClock;
    }
    forall c | c in S'.clients ensures HasSlowestBg(cfg, sv', c) {
      assert HasSlowestBg(cfg, sv, c);
      var b :| 0 <= b < cfg.numBgs && BgClock(sv, c, b) == ClientClock(sv, c);
      assert BgClock(sv', c, b) == ClientClock(sv', c);
    }
  }

  // ------------------------------------------------ runs

  ghost predicate AllLeast(cfg: Config, S: System) {
    && (forall c | c in S.clients :: HasSlowest(S.clients[c]))
    && (forall s | 0 <= s < |S.servers| :: ServerClocksLeast(cfg, S, S.servers[s]))
  }

  lemma InitLeast(cfg: Config, S: System)
    requires Init(cfg, S)
    ensures AllLeast(cfg, S)
  {
    forall c | c in S.clients ensures HasSlowest(S.clients[c]) {
      var C := S.clients[c];
      assert InitClient(cfg, C);
      if t :| t in C.threads {
        assert C.threads[t].ticked == C.minClock;
      }
    }
    forall s | 0 <= s < |S.servers| ensures ServerClocksLeast(cfg, S, S.servers[s]) {
      var sv := S.servers[s];
      assert InitServer(sv);
      var b := Part(cfg, Key(0, 0));
      forall c | c in S.clients ensures HasSlowestBg(cfg, sv, c) {
        assert 0 <= b < cfg.numBgs && BgClock(sv, c, b) == ClientClock(sv, c);
      }
      if c :| c in S.clients {
        assert ClientClock(sv, c) == sv.minClock;
      }
    }
  }

  /** A client step leaves every server as it was. */
  lemma ClientMovesLeast(cfg: Config, S: System, S': System, c: nat, C': Client, step: Step)
    requires SysShape(cfg, S) && c in S.clients && ThreadsOk(c, S.clients[c]) && AllLeast(cfg, S)
    requires ClientMoves(cfg, S, S', c, C', step)
    ensures AllLeast(cfg, S')
  {
    StepSlowest(cfg, c, S.clients[c], C', step);
    OneClientLeast(cfg, S, S', c, C');
  }

  lemma OneClientLeast(cfg: Config, S: System, S': System, c: nat, C': Client)
    requires AllLeast(cfg, S) && c in S.clients && HasSlowest(C') && S'.clients == S.clients[c := C'] && |S'.servers| == |S.servers|
    requires forall s | 0 <= s < |S.servers| :: SameLevels(S.servers[s], S'.servers[s])
    ensures AllLeast(cfg, S')
  {
    forall s | 0 <= s < |S'.servers| ensures ServerClocksLeast(cfg, S', S'.servers[s]) {
      assert SameLevels(S.servers[s], S'.servers[s]);
      SameServerClocks(cfg, S, S.servers[s], S', S'.servers[s]);
    }
  }

  ghost predicate SameLevels(sv: Server, sv': Server) {
    sv'.bgClock == sv.bgClock && sv'.clientClock == sv.clientClock && sv'.minClock == sv.minClock
  }

  /** A server step leaves every client and every other server as it was. */
  lemma OneServerLeast(cfg: Config, S: System, S': System, s: nat, sv': Server)
    requires AllLeast(cfg, S) && s < |S.servers| && S' == S.(servers := S.servers[s := sv']) && ServerClocksLeast(cfg, S, sv')
    ensures AllLeast(cfg, S')
  {
    forall i | 0 <= i < |S'.servers| ensures ServerClocksLeast(cfg, S', S'.servers[i]) {
      var moved := if i == s then sv' else S.servers[i];
      assert ServerClocksLeast(cfg, S, moved);
      SameServerClocks(cfg, S, moved, S', S'.servers[i]);
    }
  }

  lemma ReceiveLeast(cfg: Config, S: System, S': System, s: nat, c: nat, b: nat, C': Client)
    requires SysShape(cfg, S) && AllLeast(cfg, S) && Receive(cfg, S, S', s, c, b, C')
    ensures AllLeast(cfg, S')
  {
    assert C'.threads == S.clients[c].threads && C'.minClock == S.clients[c].minClock;
    SameClocksSlowest(S.clients[c], C');
    OneClientLeast(cfg, S, S', c, C');
  }

  lemma ServerStepLeast(cfg: Config, S: System, S': System)
    requires AllLeast(cfg, S)
    requires (exists s: nat, c: nat, k: Key :: Reply(cfg, S, S', s, c, k)) || (exists s: nat, down': map<Ch, seq<Msg>> :: PushAll(cfg, S, S', s, down'))
    ensures AllLeast(cfg, S')
  {
    if s: nat, c: nat, k: Key :| Reply(cfg, S, S', s, c, k) {
      SameServerClocks(cfg, S, S.servers[s], S, S'.servers[s]);
      OneServerLeast(cfg, S, S', s, S'.servers[s]);
    } else {
      var s: nat, down': map<Ch, seq<Msg>> :| PushAll(cfg, S, S', s, down');
      SameServerClocks(cfg, S, S.servers[s], S, S'.servers[s]);
      OneServerLeast(cfg, S, S', s, S'.servers[s]);
    }
  }

  lemma ApplyLeast(cfg: Config, S: System, S': System, s: nat, c: nat, b: nat)
    requires AllLeast(cfg, S) && Apply(cfg, S, S', s, c, b)
    ensures AllLeast(cfg, S')
  {
    var sv := S.servers[s];
    var sh := Log(S, c, b)[AppliedOf(sv, c, b)];
    HandledLeast(cfg, S, sv, s, c, b, sh);
    OneServerLeast(cfg, S, S', s, Handled(cfg, S, sv, s, c, b, sh));
  }

  lemma NextLeast(cfg: Config, S: System, S': System)
    requires SysShape(cfg, S) && (forall c | c in S.clients :: ThreadsOk(c, S.clients[c])) && AllLeast(cfg, S) && Next(cfg, S, S')
    ensures AllLeast(cfg, S')
  {
    if c, C', step :| ClientMoves(cfg, S, S', c, C', step) {
      ClientMovesLeast(cfg, S, S', c, C', step);
    } else if s, c, b :| Apply(cfg, S, S', s, c, b) {
      ApplyLeast(cfg, S, S', s, c, b);
    } else if s, c, b, C' :| Receive(cfg, S, S', s, c, b, C') {
      ReceiveLeast(cfg, S, S', s, c, b, C');
    } else {
      ServerStepLeast(cfg, S, S');
    }
  }

  lemma InvThreads(cfg: Config, S: System)
    requires Inv(cfg, S)
    ensures SysShape(cfg, S) && forall c | c in S.clients :: ThreadsOk(c, S.clients[c])
  {
    forall c | c in S.clients ensures ThreadsOk(c, S.clients[c]) {
      assert ClientInv(cfg, c, S.clients[c]);
    }
  }

  lemma RunThreads(cfg: Config, run: seq<System>, i: nat)
    requires IsRun(cfg, run) && i < |run|
    ensures SysShape(cfg, run[i]) && forall c | c in run[i].clients :: ThreadsOk(c, run[i].clients[c])
  {
    RunInv(cfg, run, i);
    InvThreads(cfg, run[i]);
  }

  lemma {:induction false} RunLeast(cfg: Config, run: seq<System>, i: nat)
    requires IsRun(cfg, run) && i < |run|
    ensures AllLeast(cfg, run[i])
  {
    if i == 0 {
      InitLeast(cfg, run[0]);
    } else {
      RunLeast(cfg, run, i - 1);
      RunThreads(cfg, run, i - 1);
      assert Next(cfg, run[i - 1], run[i - 1 + 1]);
      NextLeast(cfg, run[i - 1], run[i]);
    }
  }

  /** In every state of every run a process's clock is the minimum of its threads' clocks. */
  lemma ProcessClockIsMinimum(cfg: Config, run: seq<System>, i: nat, c: nat)
    requires IsRun(cfg, run) && i < |run| && c in run[i].clients
    ensures ProcessClockOk(run[i].clients[c])
  {
    RunThreads(cfg, run, i);
    RunLeast(cfg, run, i);
  }

  /** How many clocks of bg (c, b) a server has received. */
  ghost function Received(S: System, sv: Server, c: nat, b: nat): nat {
    var log := Log(S, c, b);
    if AppliedOf(sv, c, b) <= |log| then Clocks(log, AppliedOf(sv, c, b)) else 0
  }

  /** `low` is the least of the clocks a server has received from the bgs of client `c`. */
  ghost predicate LeastOfBgs(cfg: Config, S: System, sv: Server, c: nat, low: nat) {
    && (forall b | 0 <= b < cfg.numBgs :: low <= Received(S, sv, c, b))
    && exists b :: 0 <= b < cfg.numBgs && Received(S, sv, c, b) == low
  }

  /** In every state of every run a server's clock of a client is the least clock received from any of
      its bgs, and the server's own clock is the least of those. */
  lemma ServerClockIsMinimum(cfg: Config, run: seq<System>, i: nat, s: nat)
    requires IsRun(cfg, run) && i < |run| && s < |run[i].servers|
    ensures var S, sv := run[i], run[i].servers[s];
      && (forall c | c in S.clients :: LeastOfBgs(cfg, S, sv, c, ClientClock(sv, c)) && sv.minClock <= ClientClock(sv, c))
      && HasSlowestClient(S, sv)
  {
    RunLeast(cfg, run, i);
    var S, sv := run[i], run[i].servers[s];
    assert ServerClocksLeast(cfg, S, sv);
    RunClocks(cfg, run, i, s);
    forall c | c in S.clients ensures LeastOfBgs(cfg, S, sv, c, ClientClock(sv, c)) && sv.minClock <= ClientClock(sv, c) {
      forall b | 0 <= b < cfg.numBgs ensures Received(S, sv, c, b) == BgClock(sv, c, b) >= ClientClock(sv, c) >= sv.minClock {
        assert ClockOk(S, sv, c, b);
      }
      assert HasSlowestBg(cfg, sv, c);
      var b :| 0 <= b < cfg.numBgs && BgClock(sv, c, b) == ClientClock(sv, c);
      assert Received(S, sv, c, b) == ClientClock(sv, c);
    }
  }

  lemma RunClocks(cfg: Config, run: seq<System>, i: nat, s: nat)
    requires IsRun(cfg, run) && i < |run| && s < |run[i].servers|
    ensures ClocksOk(cfg, run[i], run[i].servers[s])
  {
    RunInv(cfg, run, i);
    assert ServerOk(cfg, run[i], s, run[i].servers[s]);
  }
}
