/** Every submit ends: whatever the scheduling, a fixed set of calls takes a bounded number of steps,
    and stops only when all have returned. */
module GatewayProgress {
  import opened Options
  import opened Gateway
  import opened GatewayProtocol
  import opened GatewayReplay
  import opened MapSums

  /** A step of a call already in progress: no new caller, no restart. */
  predicate Progress(e: Event) {
    e.BeginCall? || e.Wake? || e.Cancel? || e.Advance? || e.FinishCall?
  }

  // ---- What a call has left ------------------------------------------------------------------------------

  function Rank(m: Memory, c: Call): nat {
    if c.pc.Returned? then 0
    else if c.pc.Begin? then 12
    else if c.pc.Waiting? then if CloseCount(m, c.pc.done) > 0 then 13 else 11
    else Left(c.pc) + 1
  }

  function Ranking(m: Memory): Call -> int {
    (c: Call) => Rank(m, c)
  }

  function Open(c: Call): int {
    if c.pc.Returned? then 0 else 1
  }

  ghost function Unreturned(s: State): int {
    Sum(s.calls, Open)
  }

  ghost function Ranks(s: State): int {
    Sum(s.calls, Ranking(s.memory))
  }

  /** What every step of a call takes away from: first the calls that have not returned, then what these
      have left. A finish may wake all waiters, but it returns a call. */
  ghost function Potential(s: State): int {
    Unreturned(s) * (13 * |s.calls| + 1) + Ranks(s)
  }

  lemma OneLess<K, V>(m: map<K, V>, k: K)
    requires k in m
    ensures |m| == |m - {k}| + 1
  {
    assert m.Keys - {k} == (m - {k}).Keys;
    assert |m| == |m.Keys| && |m - {k}| == |(m - {k}).Keys|;
  }

  lemma OneMore(most: nat, n: nat)
    ensures most * (n + 1) == most * n + most
  {
  }

  lemma {:induction false} SumAtMost<K, V>(m: map<K, V>, amount: V -> int, most: nat)
    requires forall k :: k in m ==> 0 <= amount(m[k]) <= most
    ensures 0 <= Sum(m, amount) <= most * |m|
    decreases |m|
  {
    if m == map[] {
      SumZero(m, amount);
    } else {
      var k :| k in m;
      OneLess(m, k);
      SumTake(m, amount, k);
      SumAtMost(m - {k}, amount, most);
      OneMore(most, |m - {k}|);
    }
    hide Sum;
  }

  lemma RankAtMost(m: Memory, c: Call)
    ensures 0 <= Rank(m, c) <= 13
  {
  }

  lemma RanksBounded(s: State)
    ensures 0 <= Ranks(s) <= 13 * |s.calls| && 0 <= Unreturned(s) <= |s.calls|
  {
    forall t | t in s.calls ensures 0 <= Ranking(s.memory)(s.calls[t]) <= 13 {
      RankAtMost(s.memory, s.calls[t]);
    }
    SumAtMost(s.calls, Ranking(s.memory), 13);
    SumAtMost(s.calls, Open, 1);
  }

  lemma Descends(s: State, s': State)
    requires |s'.calls| == |s.calls|
    requires Unreturned(s') < Unreturned(s) || (Unreturned(s') == Unreturned(s) && Ranks(s') < Ranks(s))
    ensures 0 <= Potential(s') < Potential(s)
  {
    RanksBounded(s);
    RanksBounded(s');
    Lower(Unreturned(s'), Unreturned(s), Ranks(s'), Ranks(s), 13 * |s.calls|);
  }

  lemma Lower(a: int, b: int, x: int, y: int, n: int)
    requires 0 <= a && 0 <= x <= n && 0 <= y && (a < b || (a == b && x < y))
    ensures 0 <= a * (n + 1) + x < b * (n + 1) + y
  {
    NonNegative(a, n + 1);
    if a < b {
      NonNegative(b - a - 1, n + 1);
      assert b * (n + 1) == a * (n + 1) + (b - a - 1) * (n + 1) + (n + 1);
    }
  }

  lemma NonNegative(a: int, n: int)
    requires a >= 0 && n >= 0
    ensures a * n >= 0
  {
  }

  // ---- One step --------------------------------------------------------------------------------------------

  /** Only call t changed, and no other call's rank did. */
  predicate OneMoved(s: State, s': State, t: CallId) {
    && t in s.calls && t in s'.calls && s'.calls == s.calls[t := s'.calls[t]]
    && forall u :: u in s.calls ==> Rank(s'.memory, s.calls[u]) == Rank(s.memory, s.calls[u])
  }

  lemma OneDescends(s: State, s': State, t: CallId)
    requires OneMoved(s, s', t) && !s.calls[t].pc.Returned?
    requires Rank(s'.memory, s'.calls[t]) < Rank(s.memory, s.calls[t])
    ensures |s'.calls| == |s.calls| && 0 <= Potential(s') < Potential(s)
  {
    hide Rank, Potential;
    assert s'.calls.Keys == s.calls.Keys;
    assert |s'.calls| == |s'.calls.Keys| == |s.calls.Keys| == |s.calls|;
    SumPut(s.calls, Open, t, s'.calls[t]);
    SumPut(s.calls, Ranking(s'.memory), t, s'.calls[t]);
    SumAgrees(s.calls, Ranking(s'.memory), Ranking(s.memory));
    Descends(s, s');
  }

  /** A call that returns takes a step off, whatever becomes of the others' ranks. */
  lemma ReturnDescends(s: State, s': State, t: CallId)
    requires t in s.calls && t in s'.calls && s'.calls == s.calls[t := s'.calls[t]]
    requires !s.calls[t].pc.Returned? && s'.calls[t].pc.Returned?
    ensures |s'.calls| == |s.calls| && 0 <= Potential(s') < Potential(s)
  {
    hide Potential, Rank;
    assert s'.calls.Keys == s.calls.Keys;
    assert |s'.calls| == |s'.calls.Keys| == |s.calls.Keys| == |s.calls|;
    SumPut(s.calls, Open, t, s'.calls[t]);
    Descends(s, s');
  }

  /** A begin leaves the channels that calls wait on as they were, and only waits on an open one. */
  lemma BeginMoves(s: State, t: CallId)
    requires TablesFit(s) && Enabled(s, BeginCall(t))
    ensures
      var s' := BeginNext(s, t);
      OneMoved(s, s', t) && (s'.calls[t].pc.Returned? || Rank(s'.memory, s'.calls[t]) < Rank(s.memory, s.calls[t]))
  {
    hide OwnersFit, ActionsFit;
    var s' := BeginNext(s, t);
    forall u | u in s.calls ensures Rank(s'.memory, s.calls[u]) == Rank(s.memory, s.calls[u]) {
      assert CallFits(s.memory, s.calls[u]);
      BeginKeepsRank(s.memory, s.calls[t].req, s.calls[u]);
    }
    BeginRank(s.memory, s.calls[t]);
  }

  lemma BeginKeepsRank(m: Memory, req: SubmitRequest, c: Call)
    requires ChannelsFit(m) && CallFits(m, c)
    ensures Rank(BeginSubmit(m, req).0, c) == Rank(m, c)
  {
  }

  lemma BeginRank(m: Memory, c: Call)
    requires ChannelsFit(m) && CacheFits(m) && c.pc.Begin?
    ensures
      var (m', b) := BeginSubmit(m, c.req);
      var c' := AfterBegin(c, b, if m'.nextChannel != m.nextChannel then Some(m.nextChannel) else None);
      c'.pc.Returned? || Rank(m', c') < Rank(m, c)
  {
    hide Hash, Left;
    assert Left(ToCommand) == 9 by {
      CommandLeft();
    }
  }

  lemma CommandLeft()
    ensures Left(ToCommand) == 9
  {
  }

  /** Every step of a call lowers the potential. */
  lemma StepDescends(s: State, e: Event)
    requires TablesFit(s) && Enabled(s, e) && Progress(e)
    ensures |Next(s, e).calls| == |s.calls| && 0 <= Potential(Next(s, e)) < Potential(s)
  {
    hide Potential, TablesFit;
    var s' := Next(s, e);
    match e
    case BeginCall(t) =>
      BeginMoves(s, t);
      hide Rank, BeginSubmit;
      if s'.calls[t].pc.Returned? {
        ReturnDescends(s, s', t);
      } else {
        OneDescends(s, s', t);
      }
    case Wake(t) => OneDescends(s, s', t);
    case Cancel(t) => ReturnDescends(s, s', t);
    case Advance(t, o) =>
      OwnedStepMoves(s.calls[t], s.store, s.durable, o);
      hide OwnedStep;
      OneDescends(s, s', t);
    case FinishCall(t) => ReturnDescends(s, s', t);
  }

  // ---- Whole runs ------------------------------------------------------------------------------------------

  ghost predicate AllProgress(es: seq<Event>) {
    forall e :: e in es ==> Progress(e)
  }

  /** With no new callers and no restarts, a run of the calls in progress is no longer than its potential,
      however the calls interleave and whatever the calls out of the gateway answer: every caller's loop of
      waking up and trying again ends. */
  lemma {:induction false} RunEnds(s: State, es: seq<Event>)
    requires TablesFit(s) && Allowed(s, es) && AllProgress(es)
    ensures |es| <= Potential(s) - Potential(Exec(s, es)) && Potential(Exec(s, es)) >= 0
    ensures Potential(s) <= (13 * |s.calls| + 1) * |s.calls| + 13 * |s.calls|
    decreases |es|
  {
    PotentialBounded(s);
    hide Potential, TablesFit;
    if es != [] {
      assert es[0] in es;
      StepKeepsTables(s, es[0]);
      StepDescends(s, es[0]);
      RunEnds(Next(s, es[0]), es[1..]);
    }
  }

  lemma PotentialBounded(s: State)
    ensures 0 <= Potential(s) <= (13 * |s.calls| + 1) * |s.calls| + 13 * |s.calls|
  {
    RanksBounded(s);
    var n, k := |s.calls|, 13 * |s.calls| + 1;
    NonNegative(Unreturned(s), k);
    NonNegative(n - Unreturned(s), k);
    assert k * n == Unreturned(s) * k + (n - Unreturned(s)) * k;
  }

  /** And it can stop only when every call has returned: while one has not, some call can take a step, even
      if no caller gives up. */
  lemma SomeCallCanMove(s: State, t: CallId)
    requires TablesFit(s) && t in s.calls && !s.calls[t].pc.Returned?
    ensures exists e :: Progress(e) && !e.Cancel? && Enabled(s, e)
  {
    hide TablesFit;
    var u := t;
    if s.calls[t].pc.Waiting? {
      WaiterHasOwner(s, t);
      if CloseCount(s.memory, s.calls[t].pc.done) != 1 {
        u :| OwnedBy(s, u, s.calls[t].req.requestId) && s.calls[u].owned == Some(s.calls[t].pc.done);
      }
    }
    var e := if s.calls[u].pc.Begin? then BeginCall(u)
             else if s.calls[u].pc.Waiting? then Wake(u)
             else if s.calls[u].pc.Finish? then FinishCall(u)
             else Advance(u, Succeeds);
    assert Progress(e) && !e.Cancel? && Enabled(s, e);
  }

  lemma InitFits(durable: bool, actors: set<string>, observer: bool)
    ensures Inv(Init(durable, actors, observer))
  {
  }

  /** Wherever a run has got, if no more callers come the submits in progress end: their steps are bounded,
      and when none is left every call has returned. */
  lemma SubmitsEnd(durable: bool, actors: set<string>, observer: bool, es: seq<Event>, more: seq<Event>)
    requires Allowed(Init(durable, actors, observer), es)
    requires Allowed(Exec(Init(durable, actors, observer), es), more) && AllProgress(more)
    ensures
      var s := Exec(Init(durable, actors, observer), es);
      var n := |s.calls|;
      && |more| <= (13 * n + 1) * n + 13 * n
      && ((forall e :: Progress(e) && !e.Cancel? ==> !Enabled(Exec(s, more), e)) ==>
           forall t :: t in Exec(s, more).calls ==> Exec(s, more).calls[t].pc.Returned?)
  {
    hide Potential, Allowed, Exec, Enabled, TablesFit, ReplayFits, AllProgress, Init;
    var s := Exec(Init(durable, actors, observer), es);
    InitFits(durable, actors, observer);
    RunKeepsInv(Init(durable, actors, observer), es);
    RunKeepsInv(s, more);
    RunEnds(s, more);
    forall t | t in Exec(s, more).calls && !Exec(s, more).calls[t].pc.Returned?
      ensures exists e :: Progress(e) && !e.Cancel? && Enabled(Exec(s, more), e)
    {
      SomeCallCanMove(Exec(s, more), t);
    }
  }
}
