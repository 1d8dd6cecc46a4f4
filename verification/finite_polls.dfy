/**
 The claims of a poll. Its worker executes them one after the other, and leaves the loop when one of them raises:
 exactly which claims can still be carried through, and which never will.
 */
module FinitePolls {
  import opened Wrappers
  import opened Retry
  import opened FiniteTables
  import opened FiniteProtocol
  import opened FiniteUnits
  import opened FiniteHistory

  predicate Issued(s: System, k: ClaimKey) {
    k.unit in s.cells && k.token <= s.cells[k.unit].row.claimToken
  }

  predicate InHand(s: System, k: ClaimKey) {
    k.unit in s.cells && k.token in s.cells[k.unit].tasks
  }

  /** The claim's worker is still there, and holds the token or has written everything but the verdict. */
  predicate Sound(c: Cell, token: nat) {
    token in c.tasks && (token == c.row.claimToken || c.tasks[token].stage.Finalizing?)
  }

  /** The claim was not carried through: its worker is gone, or lost the token before it wrote the outcome. */
  predicate Lost(s: System, k: ClaimKey) {
    k !in s.finished && !(k.unit in s.cells && Sound(s.cells[k.unit], k.token))
  }

  ghost predicate LostAhead(s: System, ahead: seq<ClaimKey>) {
    exists i :: 0 <= i < |ahead| && Lost(s, ahead[i])
  }

  // ---- the queue of a poll ----

  predicate QueuedAt(s: System, ahead: seq<ClaimKey>, i: nat)
    requires i < |ahead|
  {
    var k := ahead[i];
    Issued(s, k) && (InHand(s, k) ==> s.cells[k.unit].tasks[k.token].ahead == ahead[..i])
  }

  ghost predicate QueueOk(s: System, ahead: seq<ClaimKey>) {
    forall i :: 0 <= i < |ahead| ==> QueuedAt(s, ahead, i)
  }

  /** Whoever waits, waits for claims that wait for each other in the same order; what is carried through is gone. */
  ghost predicate QueueInv(s: System) {
    && (forall u, token :: u in s.cells && token in s.cells[u].tasks ==> QueueOk(s, s.cells[u].tasks[token].ahead))
    && (forall k :: k in s.finished ==> Issued(s, k) && !InHand(s, k))
  }

  /** Where the claims in hand after an action come from. */
  lemma TasksComeFrom(now: int, policy: Policy, c: Cell, a: Action, token: nat)
    requires token in CellStep(now, policy, c, a).tasks
    ensures var t := CellStep(now, policy, c, a).tasks[token];
            || (token in c.tasks && t.ahead == c.tasks[token].ahead)
            || (a.Claim? && RowDue(now, c.row) && token == c.row.claimToken + 1 && t.ahead == a.ahead)
  {
  }

  lemma HandsComeFrom(s: System, e: Event, k: ClaimKey)
    requires InHand(Step(s, e), k)
    ensures || (InHand(s, k) && Step(s, e).cells[k.unit].tasks[k.token].ahead == s.cells[k.unit].tasks[k.token].ahead)
            || (k.unit in s.cells && Names(s, e, k.unit) && e.action.Claim? && RowDue(s.now, s.cells[k.unit].row) &&
                k.token == s.cells[k.unit].row.claimToken + 1 &&
                Step(s, e).cells[k.unit].tasks[k.token].ahead == e.action.ahead)
  {
    StepIsLocal(s, e);
    if k.unit in s.cells && Names(s, e, k.unit) {
      TasksComeFrom(s.now, s.policy, s.cells[k.unit], e.action, k.token);
    }
  }

  lemma IssuedStays(s: System, e: Event, k: ClaimKey)
    requires Issued(s, k)
    ensures Issued(Step(s, e), k)
    ensures InHand(Step(s, e), k) ==> InHand(s, k) && Step(s, e).cells[k.unit].tasks[k.token].ahead == s.cells[k.unit].tasks[k.token].ahead
  {
    StepIsLocal(s, e);
    if Names(s, e, k.unit) {
      TokenGrows(s.now, s.policy, s.cells[k.unit], e.action);
    }
    if InHand(Step(s, e), k) {
      HandsComeFrom(s, e, k);
    }
  }

  lemma QueueStays(s: System, e: Event, ahead: seq<ClaimKey>)
    requires QueueOk(s, ahead)
    ensures QueueOk(Step(s, e), ahead)
  {
    forall i | 0 <= i < |ahead| ensures QueuedAt(Step(s, e), ahead, i) {
      assert QueuedAt(s, ahead, i);
      IssuedStays(s, e, ahead[i]);
    }
  }

  /** Joining the queue behind its last claim. */
  lemma JoinedQueueOk(s: System, ahead: seq<ClaimKey>)
    requires QueueInv(s) && Queues(s, ahead)
    ensures QueueOk(s, ahead)
  {
    if ahead != [] {
      var n := |ahead| - 1;
      assert AsClaimed(s, ahead[n]);
      assert QueueOk(s, ahead[..n]);
      forall i | 0 <= i < |ahead| ensures QueuedAt(s, ahead, i) {
        assert AsClaimed(s, ahead[i]);
        if i < n {
          assert QueuedAt(s, ahead[..n], i) && ahead[..n][..i] == ahead[..i];
        }
      }
    }
  }

  lemma FinishedStep(s: System, e: Event, k: ClaimKey)
    requires k in Step(s, e).finished && k !in s.finished
    ensures InHand(s, k) && s.cells[k.unit].tasks[k.token].stage.Finalizing? && !InHand(Step(s, e), k)
    ensures Names(s, e, k.unit)
  {
  }

  lemma QueueStep(s: System, e: Event)
    requires UnitInv(s) && QueueInv(s)
    ensures QueueInv(Step(s, e)) && s.finished <= Step(s, e).finished
  {
    var s' := Step(s, e);
    forall u, token | u in s'.cells && token in s'.cells[u].tasks ensures QueueOk(s', s'.cells[u].tasks[token].ahead) {
      HandsComeFrom(s, e, ClaimKey(u, token));
      if !(InHand(s, ClaimKey(u, token)) && s'.cells[u].tasks[token].ahead == s.cells[u].tasks[token].ahead) {
        JoinedQueueOk(s, e.action.ahead);
      }
      QueueStays(s, e, s'.cells[u].tasks[token].ahead);
    }
    forall k | k in s'.finished ensures Issued(s', k) && !InHand(s', k) {
      if k !in s.finished {
        FinishedStep(s, e, k);
        assert CellOk(s, k.unit) && TaskOk(s.cells[k.unit], k.token);
      }
      IssuedStays(s, e, k);
    }
  }

  lemma {:induction false} RunKeepsQueues(s: System, es: seq<Event>)
    requires UnitInv(s) && QueueInv(s)
    ensures QueueInv(Run(s, es)) && s.finished <= Run(s, es).finished
  {
    if es != [] {
      RunKeepsQueues(s, es[..|es| - 1]);
      RunKeepsUnits(s, es[..|es| - 1]);
      QueueStep(Run(s, es[..|es| - 1]), es[|es| - 1]);
    }
  }

  // ---- a lost claim stays lost ----

  lemma UnsoundStays(now: int, policy: Policy, c: Cell, a: Action, token: nat)
    requires Fenced(c) && token <= c.row.claimToken && !Sound(c, token)
    ensures !Sound(CellStep(now, policy, c, a), token)
  {
  }

  lemma LostStays(s: System, e: Event, k: ClaimKey)
    requires UnitInv(s) && Issued(s, k) && Lost(s, k)
    ensures Issued(Step(s, e), k) && Lost(Step(s, e), k)
  {
    IssuedStays(s, e, k);
    StepIsLocal(s, e);
    assert CellOk(s, k.unit);
    if Names(s, e, k.unit) {
      UnsoundStays(s.now, s.policy, s.cells[k.unit], e.action, k.token);
    }
    if k in Step(s, e).finished {
      FinishedStep(s, e, k);
    }
  }

  /** A poll's later claim behind a lost one waits for a turn that never comes. */
  predicate Waiting(s: System, k: ClaimKey) {
    k.unit in s.cells && Doing(s.cells[k.unit], k.token, Holding) && k !in s.finished
  }

  ghost predicate Doomed(s: System, k: ClaimKey) {
    Lost(s, k) || (Waiting(s, k) && LostAhead(s, s.cells[k.unit].tasks[k.token].ahead))
  }

  lemma LostAheadStays(s: System, e: Event, ahead: seq<ClaimKey>)
    requires UnitInv(s) && QueueOk(s, ahead) && LostAhead(s, ahead)
    ensures LostAhead(Step(s, e), ahead)
  {
    var i :| 0 <= i < |ahead| && Lost(s, ahead[i]);
    assert QueuedAt(s, ahead, i);
    LostStays(s, e, ahead[i]);
  }

  /** A waiting claim without its turn waits on or is forgotten. */
  lemma WaitsOn(now: int, policy: Policy, c: Cell, a: Action, token: nat)
    requires Fenced(c) && Doing(c, token, Holding) && !(a.Finish? && a.token == token)
    ensures var d := CellStep(now, policy, c, a);
            (Doing(d, token, Holding) && d.tasks[token] == c.tasks[token]) || token !in d.tasks
  {
    assert TaskOk(c, token);
  }

  lemma DoomedStays(s: System, e: Event, k: ClaimKey)
    requires UnitInv(s) && QueueInv(s) && Issued(s, k) && Doomed(s, k)
    ensures Issued(Step(s, e), k) && Doomed(Step(s, e), k)
  {
    IssuedStays(s, e, k);
    if Lost(s, k) {
      LostStays(s, e, k);
    } else {
      var t := s.cells[k.unit].tasks[k.token];
      LostAheadStays(s, e, t.ahead);
      StepIsLocal(s, e);
      assert CellOk(s, k.unit) && !HasTurn(s, t);
      if Names(s, e, k.unit) {
        WaitsOn(s.now, s.policy, s.cells[k.unit], e.action, k.token);
      }
      if k in Step(s, e).finished {
        FinishedStep(s, e, k);
      }
    }
  }

  lemma {:induction false} DoomedForever(s: System, es: seq<Event>, k: ClaimKey)
    requires UnitInv(s) && QueueInv(s) && Issued(s, k) && Doomed(s, k)
    ensures Issued(Run(s, es), k) && Doomed(Run(s, es), k) && k !in Run(s, es).finished
  {
    if es != [] {
      var n := |es| - 1;
      DoomedForever(s, es[..n], k);
      RunKeepsUnits(s, es[..n]);
      RunKeepsQueues(s, es[..n]);
      DoomedStays(Run(s, es[..n]), es[n], k);
    }
  }

  /** How a claim is lost: its worker dies, or the unit is claimed again before the outcome is written. */
  predicate Supersedes(s: System, e: Event, k: ClaimKey) {
    && k.unit in s.cells && Names(s, e, k.unit) && e.action.Claim? && RowDue(s.now, s.cells[k.unit].row)
    && k.token == s.cells[k.unit].row.claimToken && !Doing(s.cells[k.unit], k.token, Finalizing)
  }

  lemma SoundStays(now: int, policy: Policy, c: Cell, a: Action, token: nat)
    requires Fenced(c) && Sound(c, token) && a != Drop(token) && a != Finalize(token)
    requires !(a.Claim? && RowDue(now, c.row) && token == c.row.claimToken && !Doing(c, token, Finalizing))
    ensures Sound(CellStep(now, policy, c, a), token)
  {
    assert TaskOk(c, token);
  }

  lemma FinishedStays(s: System, e: Event, k: ClaimKey)
    requires k.unit in s.cells
    ensures k in s.finished ==> k in Step(s, e).finished
    ensures e == OnUnit(k.unit, Finalize(k.token)) && Doing(s.cells[k.unit], k.token, Finalizing) ==> k in Step(s, e).finished
  {
  }

  lemma NewlyLost(s: System, e: Event, k: ClaimKey)
    requires UnitInv(s) && Issued(s, k) && !Lost(s, k) && Lost(Step(s, e), k)
    ensures Sound(s.cells[k.unit], k.token)
    ensures e == OnUnit(k.unit, Drop(k.token)) || Supersedes(s, e, k)
  {
    StepIsLocal(s, e);
    FinishedStays(s, e, k);
    assert CellOk(s, k.unit);
    if Names(s, e, k.unit) && e.action != Drop(k.token) && !Supersedes(s, e, k) && e.action != Finalize(k.token) {
      SoundStays(s.now, s.policy, s.cells[k.unit], e.action, k.token);
    }
  }

  // ---- any other claim can be carried through ----

  /** What the worker that has its turn does: it ends its handler, writes as the holder, and finalizes. */
  predicate Works(s: System, e: Event) {
    && e.OnUnit? && e.unit in s.cells
    && (e.action.Finish? || e.action.Finalize? ||
        ((e.action.Record? || e.action.Bury?) && e.action.token == s.cells[e.unit].row.claimToken))
  }

  ghost predicate OnlyWork(s: System, es: seq<Event>) {
    es == [] || (OnlyWork(s, es[..|es| - 1]) && Works(Run(s, es[..|es| - 1]), es[|es| - 1]))
  }

  lemma WorkOneMore(s: System, es: seq<Event>, e: Event)
    requires OnlyWork(s, es) && Works(Run(s, es), e)
    ensures OnlyWork(s, es + [e]) && Run(s, es + [e]) == Step(Run(s, es), e)
  {
    assert (es + [e])[..|es|] == es;
  }

  /** Only these claims, and the rows of those that hold their token, were touched. */
  ghost predicate Progressed(s: System, t: System, ks: set<ClaimKey>) {
    && t.cells.Keys == s.cells.Keys && t.now == s.now && t.policy == s.policy && s.finished <= t.finished
    && forall u :: u in s.cells ==> CellProgressed(s.cells[u], t.cells[u], u, ks)
  }

  ghost predicate CellProgressed(c: Cell, d: Cell, u: UnitId, ks: set<ClaimKey>) {
    && d.row.claimToken == c.row.claimToken && (ClaimKey(u, c.row.claimToken) !in ks ==> d.row == c.row)
    && forall token :: ClaimKey(u, token) !in ks ==>
         (token in d.tasks <==> token in c.tasks) && (token in c.tasks ==> d.tasks[token] == c.tasks[token])
  }

  lemma CellWorks(now: int, policy: Policy, c: Cell, u: UnitId, a: Action)
    requires a.Finish? || a.Finalize? || ((a.Record? || a.Bury?) && a.token == c.row.claimToken)
    ensures CellProgressed(c, CellStep(now, policy, c, a), u, {ClaimKey(u, a.token)})
  {
  }

  lemma WorkProgresses(s: System, k: ClaimKey, a: Action)
    requires k.unit in s.cells && Works(s, OnUnit(k.unit, a)) && a.token == k.token
    ensures Progressed(s, Step(s, OnUnit(k.unit, a)), {k})
  {
    CellWorks(s.now, s.policy, s.cells[k.unit], k.unit, a);
  }

  lemma ProgressesTransitively(a: System, b: System, c: System, ks: set<ClaimKey>, ls: set<ClaimKey>)
    requires Progressed(a, b, ks) && Progressed(b, c, ls)
    ensures Progressed(a, c, ks + ls)
  {
    forall u | u in a.cells ensures CellProgressed(a.cells[u], c.cells[u], u, ks + ls) {
      assert CellProgressed(a.cells[u], b.cells[u], u, ks) && CellProgressed(b.cells[u], c.cells[u], u, ls);
    }
  }

  /** The claim has its worker, its token where it needs it, and its turn. */
  predicate MayGo(s: System, k: ClaimKey) {
    && k.unit in s.cells && Sound(s.cells[k.unit], k.token)
    && (s.cells[k.unit].tasks[k.token].stage.Holding? ==> HasTurn(s, s.cells[k.unit].tasks[k.token]))
  }

  ghost predicate Carries(s: System, es: seq<Event>, t: System, k: ClaimKey) {
    t == Run(s, es) && OnlyWork(s, es) && Progressed(s, t, {k})
  }

  lemma Work(s: System, es: seq<Event>, t: System, k: ClaimKey, a: Action) returns (es': seq<Event>, t': System)
    requires Carries(s, es, t, k) && Works(t, OnUnit(k.unit, a)) && a.token == k.token && Enabled(t, k.unit, a)
    ensures Carries(s, es', t', k) && t' == Step(t, OnUnit(k.unit, a))
    ensures t'.cells[k.unit] == CellStep(t.now, t.policy, t.cells[k.unit], a)
  {
    es', t' := es + [OnUnit(k.unit, a)], Step(t, OnUnit(k.unit, a));
    WorkOneMore(s, es, OnUnit(k.unit, a));
    WorkProgresses(t, k, a);
    ProgressesTransitively(s, t, t', {k}, {k});
    assert {k} + {k} == {k};
    StepIsLocal(t, OnUnit(k.unit, a));
  }

  /** The action that leaves a stage. */
  function Next(stage: Stage, token: nat): Action {
    match stage
    case Holding => Finish(token, Returned(None))
    case Recording(_, _, _, _) => Record(token)
    case DeadLettering => Bury(token)
    case Finalizing => Finalize(token)
  }

  function StagesLeft(stage: Stage): nat {
    match stage
    case Holding => 3
    case Recording(_, _, _, _) => 2
    case DeadLettering => 1
    case Finalizing => 0
  }

  lemma NextStage(now: int, policy: Policy, c: Cell, token: nat)
    requires Sound(c, token) && !c.tasks[token].stage.Finalizing?
    ensures var d := CellStep(now, policy, c, Next(c.tasks[token].stage, token));
            Sound(d, token) && !d.tasks[token].stage.Holding? && StagesLeft(d.tasks[token].stage) < StagesLeft(c.tasks[token].stage)
  {
  }

  lemma NextIsWork(t: System, k: ClaimKey)
    requires MayGo(t, k)
    ensures var a := Next(t.cells[k.unit].tasks[k.token].stage, k.token);
            a.token == k.token && Works(t, OnUnit(k.unit, a)) && Enabled(t, k.unit, a)
  {
  }

  lemma NextMayGo(t: System, t': System, k: ClaimKey)
    requires MayGo(t, k) && !t.cells[k.unit].tasks[k.token].stage.Finalizing?
    requires k.unit in t'.cells
    requires t'.cells[k.unit] == CellStep(t.now, t.policy, t.cells[k.unit], Next(t.cells[k.unit].tasks[k.token].stage, k.token))
    ensures MayGo(t', k)
    ensures StagesLeft(t'.cells[k.unit].tasks[k.token].stage) < StagesLeft(t.cells[k.unit].tasks[k.token].stage)
  {
    NextStage(t.now, t.policy, t.cells[k.unit], k.token);
  }

  /** One more stage, or the last one. */
  lemma CarryOn(s: System, es: seq<Event>, t: System, k: ClaimKey) returns (es': seq<Event>, t': System)
    requires Carries(s, es, t, k) && MayGo(t, k)
    ensures Carries(s, es', t', k)
    ensures if t.cells[k.unit].tasks[k.token].stage.Finalizing? then k in t'.finished
            else MayGo(t', k) && StagesLeft(t'.cells[k.unit].tasks[k.token].stage) < StagesLeft(t.cells[k.unit].tasks[k.token].stage)
  {
    NextIsWork(t, k);
    es', t' := Work(s, es, t, k, Next(t.cells[k.unit].tasks[k.token].stage, k.token));
    if t.cells[k.unit].tasks[k.token].stage.Finalizing? {
      FinishedStays(t, OnUnit(k.unit, Finalize(k.token)), k);
    } else {
      NextMayGo(t, t', k);
    }
  }

  lemma {:induction false} CarryFrom(s: System, es: seq<Event>, t: System, k: ClaimKey)
    returns (es': seq<Event>, t': System)
    requires Carries(s, es, t, k) && MayGo(t, k)
    ensures Carries(s, es', t', k) && k in t'.finished
    decreases StagesLeft(t.cells[k.unit].tasks[k.token].stage)
  {
    es', t' := CarryOn(s, es, t, k);
    if !t.cells[k.unit].tasks[k.token].stage.Finalizing? {
      es', t' := CarryFrom(s, es', t', k);
    }
  }

  lemma Carry(s: System, k: ClaimKey) returns (es: seq<Event>, t: System)
    requires MayGo(s, k)
    ensures Carries(s, es, t, k) && k in t.finished
  {
    es, t := CarryFrom(s, [], s, k);
  }

  lemma WorkingLosesNothing(s: System, e: Event, k: ClaimKey)
    requires UnitInv(s) && Works(s, e) && Issued(s, k) && !Lost(s, k)
    ensures Issued(Step(s, e), k) && !Lost(Step(s, e), k)
  {
    IssuedStays(s, e, k);
    if Lost(Step(s, e), k) {
      NewlyLost(s, e, k);
    }
  }

  lemma {:induction false} WorkLosesNothing(s: System, es: seq<Event>, k: ClaimKey)
    requires UnitInv(s) && OnlyWork(s, es) && Issued(s, k) && !Lost(s, k)
    ensures Issued(Run(s, es), k) && !Lost(Run(s, es), k)
  {
    if es != [] {
      var n := |es| - 1;
      WorkLosesNothing(s, es[..n], k);
      RunKeepsUnits(s, es[..n]);
      WorkingLosesNothing(Run(s, es[..n]), es[n], k);
    }
  }

  lemma {:induction false} RunKeepsQueue(s: System, es: seq<Event>, ahead: seq<ClaimKey>)
    requires QueueOk(s, ahead)
    ensures QueueOk(Run(s, es), ahead)
  {
    if es != [] {
      RunKeepsQueue(s, es[..|es| - 1], ahead);
      QueueStays(Run(s, es[..|es| - 1]), es[|es| - 1], ahead);
    }
  }

  function KeysOf(ahead: seq<ClaimKey>): set<ClaimKey> {
    set i | 0 <= i < |ahead| :: ahead[i]
  }

  ghost predicate CarriesAll(s: System, es: seq<Event>, t: System, ahead: seq<ClaimKey>) {
    t == Run(s, es) && OnlyWork(s, es) && Progressed(s, t, KeysOf(ahead)) && CarriedThrough(t, ahead)
  }

  /** The claims of a queue can be carried through one after the other, unless one is lost. */
  lemma {:induction false} CarryAhead(s: System, ahead: seq<ClaimKey>) returns (es: seq<Event>, t: System)
    requires UnitInv(s) && QueueOk(s, ahead) && !LostAhead(s, ahead)
    ensures CarriesAll(s, es, t, ahead)
  {
    if ahead == [] {
      es, t := [], s;
    } else {
      var n := |ahead| - 1;
      FrontQueues(s, ahead);
      es, t := CarryAhead(s, ahead[..n]);
      var es', t' := CarryNext(s, es, t, ahead);
      es, t := es', t';
    }
  }

  lemma FrontQueues(s: System, ahead: seq<ClaimKey>)
    requires QueueOk(s, ahead) && !LostAhead(s, ahead) && ahead != []
    ensures QueueOk(s, ahead[..|ahead| - 1]) && !LostAhead(s, ahead[..|ahead| - 1])
  {
    var front := ahead[..|ahead| - 1];
    forall i | 0 <= i < |front| ensures QueuedAt(s, front, i) && !Lost(s, front[i]) {
      assert QueuedAt(s, ahead, i) && front[..i] == ahead[..i] && !Lost(s, ahead[i]);
    }
  }

  lemma CarryNext(s: System, es: seq<Event>, t: System, ahead: seq<ClaimKey>) returns (es': seq<Event>, t': System)
    requires UnitInv(s) && QueueOk(s, ahead) && !LostAhead(s, ahead) && ahead != []
    requires CarriesAll(s, es, t, ahead[..|ahead| - 1])
    ensures CarriesAll(s, es', t', ahead)
  {
    var n := |ahead| - 1;
    var k := ahead[n];
    assert QueuedAt(s, ahead, n) && !Lost(s, k);
    RunKeepsQueue(s, es, ahead);
    assert QueuedAt(t, ahead, n);
    WorkLosesNothing(s, es, k);
    if k in t.finished {
      es', t' := es, t;
      ProgressesMore(s, t, KeysOf(ahead[..n]), KeysOf(ahead[..n]) + {k});
    } else {
      TurnFrom(t, ahead);
      var more;
      more, t' := Carry(t, k);
      es' := es + more;
      WorkAppends(s, es, more);
      ProgressesTransitively(s, t, t', KeysOf(ahead[..n]), {k});
    }
    KeysGrow(ahead);
    AllFinished(t, t', ahead);
  }

  lemma TurnFrom(t: System, ahead: seq<ClaimKey>)
    requires ahead != [] && QueuedAt(t, ahead, |ahead| - 1) && InHand(t, ahead[|ahead| - 1])
    requires CarriedThrough(t, ahead[..|ahead| - 1])
    ensures HasTurn(t, t.cells[ahead[|ahead| - 1].unit].tasks[ahead[|ahead| - 1].token])
  {
  }

  lemma AllFinished(t: System, t': System, ahead: seq<ClaimKey>)
    requires ahead != [] && t.finished <= t'.finished && ahead[|ahead| - 1] in t'.finished
    requires CarriedThrough(t, ahead[..|ahead| - 1])
    ensures CarriedThrough(t', ahead)
  {
    forall i | 0 <= i < |ahead| ensures ahead[i] in t'.finished {
      assert i < |ahead| - 1 ==> ahead[..|ahead| - 1][i] == ahead[i];
    }
  }

  lemma KeysGrow(ahead: seq<ClaimKey>)
    requires ahead != []
    ensures KeysOf(ahead) == KeysOf(ahead[..|ahead| - 1]) + {ahead[|ahead| - 1]}
  {
    var n := |ahead| - 1;
    forall k | k in KeysOf(ahead) ensures k in KeysOf(ahead[..n]) + {ahead[n]} {
      var i :| 0 <= i < |ahead| && ahead[i] == k;
      assert i < n ==> ahead[..n][i] == k;
    }
    forall k | k in KeysOf(ahead[..n]) ensures k in KeysOf(ahead) {
      var i :| 0 <= i < n && ahead[..n][i] == k;
      assert ahead[i] == k;
    }
  }

  lemma ProgressesMore(s: System, t: System, ks: set<ClaimKey>, ls: set<ClaimKey>)
    requires Progressed(s, t, ks) && ks <= ls
    ensures Progressed(s, t, ls)
  {
    forall u | u in s.cells ensures CellProgressed(s.cells[u], t.cells[u], u, ls) {
      assert CellProgressed(s.cells[u], t.cells[u], u, ks);
    }
  }

  lemma {:induction false} WorkAppends(s: System, a: seq<Event>, b: seq<Event>)
    requires OnlyWork(s, a) && OnlyWork(Run(s, a), b)
    ensures OnlyWork(s, a + b) && Run(s, a + b) == Run(Run(s, a), b)
  {
    if b == [] {
      assert a + b == a;
    } else {
      assert (a + b)[..|a + b| - 1] == a + b[..|b| - 1];
      WorkAppends(s, a, b[..|b| - 1]);
    }
  }

  lemma ReachableQueues(policy: Policy, es: seq<Event>)
    ensures QueueInv(Run(Init(policy), es))
  {
    RunKeepsQueues(Init(policy), es);
  }

  /** A claim is not ahead of itself. */
  lemma NotAheadOfItself(s: System, k: ClaimKey)
    requires QueueInv(s) && InHand(s, k)
    ensures k !in s.cells[k.unit].tasks[k.token].ahead
  {
    var ahead := s.cells[k.unit].tasks[k.token].ahead;
    assert QueueOk(s, ahead);
    forall i | 0 <= i < |ahead| ensures ahead[i] != k {
      assert QueuedAt(s, ahead, i);
    }
  }

  /** Carrying the claims ahead leaves the claim behind them as it was, with its turn. */
  lemma TurnComes(s: System, k: ClaimKey) returns (es: seq<Event>, t: System)
    requires UnitInv(s) && QueueInv(s) && InHand(s, k) && !Lost(s, k)
    requires !LostAhead(s, s.cells[k.unit].tasks[k.token].ahead)
    ensures t == Run(s, es) && OnlyWork(s, es) && MayGo(t, k) && t.cells.Keys == s.cells.Keys
    ensures t.cells[k.unit].tasks[k.token] == s.cells[k.unit].tasks[k.token]
    ensures t.cells[k.unit].row.claimToken == s.cells[k.unit].row.claimToken
    ensures k.token == s.cells[k.unit].row.claimToken ==> t.cells[k.unit].row == s.cells[k.unit].row
  {
    var ahead := s.cells[k.unit].tasks[k.token].ahead;
    assert QueueOk(s, ahead);
    NotAheadOfItself(s, k);
    es, t := CarryAhead(s, ahead);
    assert k !in KeysOf(ahead) && CellProgressed(s.cells[k.unit], t.cells[k.unit], k.unit, KeysOf(ahead));
  }

  /**
   Which claims of a poll are executed. A claim in hand can still be carried through, by nothing but what its worker
   does, if and only if it holds its token where it needs it and no earlier claim of its poll is lost. Otherwise it
   never is.
   */
  lemma {:induction false} ClaimsAreCarriedThroughUnlessDoomed(policy: Policy, past: seq<Event>, k: ClaimKey)
    requires InHand(Run(Init(policy), past), k)
    ensures var s := Run(Init(policy), past);
            if Doomed(s, k) then forall future: seq<Event> :: k !in Run(s, future).finished
            else exists future: seq<Event> :: OnlyWork(s, future) && k in Run(s, future).finished
  {
    var s := Run(Init(policy), past);
    ReachableUnits(policy, past);
    ReachableQueues(policy, past);
    assert CellOk(s, k.unit) && TaskOk(s.cells[k.unit], k.token);
    if Doomed(s, k) {
      forall future: seq<Event> ensures k !in Run(s, future).finished {
        DoomedForever(s, future, k);
      }
    } else {
      var es, t := [], s;
      if s.cells[k.unit].tasks[k.token].stage.Holding? {
        es, t := TurnComes(s, k);
      }
      var more, done := Carry(t, k);
      WorkAppends(s, es, more);
      assert OnlyWork(s, es + more) && k in Run(s, es + more).finished;
    }
  }
}
