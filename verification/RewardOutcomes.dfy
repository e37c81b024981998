/** What a reconcile makes of tasks and submissions, and of the miners' accounts, said record by record
    (forecast_engine: settling, admission, reward windows). */
module RewardOutcomes {
  import opened Options
  import opened MapSums
  import opened Rewards

  // ---- Rounding and admission --------------------------------------------------------------------------

  /** Python's round of n / d: halves go to the even neighbour. */
  function RoundHalfEven(n: nat, d: nat): nat
    requires d > 0
  {
    var q, r := n / d, n % d;
    if 2 * r < d then q else if 2 * r > d then q + 1 else if q % 2 == 0 then q else q + 1
  }

  /** No whole number is nearer to n / d, and of two that are equally near it is the even one. */
  lemma RoundsNearest(n: nat, d: nat)
    requires d > 0
    ensures
      var off := 2 * (RoundHalfEven(n, d) * d - n);
      off <= d && -off <= d && (off == d || -off == d ==> RoundHalfEven(n, d) % 2 == 0)
  {
    var q, r := n / d, n % d;
    assert n == q * d + r;
    assert (q + 1) * d == q * d + d;
  }

  predicate Mature(m: Miner, now: int, matureHours: int, matureReveals: int) {
    (if now > m.createdAt then now - m.createdAt else 0) >= 3600 * matureHours || m.revealed >= matureReveals
  }

  ghost function MatureMiners(miners: Miners, now: int, matureHours: int, matureReveals: int): set<string> {
    set m | m in miners && Mature(miners[m], now, matureHours, matureReveals)
  }

  /** Amounts and flags do not make a miner mature. */
  lemma SameMature(miners: Miners, name: string, m: Miner, now: int, matureHours: int, matureReveals: int)
    requires name in miners && m.createdAt == miners[name].createdAt && m.revealed == miners[name].revealed
    ensures MatureMiners(miners[name := m], now, matureHours, matureReveals)
              == MatureMiners(miners, now, matureHours, matureReveals)
  {
  }

  /** An account after a release: a mature miner is paid all that is held. */
  function AccountThen(m: Miner, mature: bool): Miner {
    if mature then m.(total := m.total + m.held, held := 0, mature := true) else m.(mature := false)
  }

  // ---- Settling ----------------------------------------------------------------------------------------

  /** A revealed submission once settled: an ineligible one earns nothing; a mature miner is paid everything at
      once, another the released share to the nearest whole, and the rest is held. */
  function Earning(s: Submission, reward: nat, mature: bool, releaseBps: nat): Submission {
    var due: nat := if s.eligible then reward else 0;
    var paid := if mature then due else RoundHalfEven(due * releaseBps, 10000);
    s.(state := Resolved, reward := due, released := paid, held := due - paid)
  }

  function Known(outcomes: map<string, int>, t: string): Option<int> {
    if t in outcomes then Some(outcomes[t]) else None
  }

  /** An unresolved task whose time has come. */
  predicate Due(task: Task, now: int) {
    !task.resolved && task.resolveAt <= now
  }

  function TaskThen(task: Task, now: int, outcome: Option<int>): Task {
    if !Due(task, now) then task
    else if outcome.Some? then task.(resolved := true, awaiting := false, outcome := outcome)
    else task.(awaiting := true, outcome := None)
  }

  function SubThen(s: Submission, task: Task, now: int, outcome: Option<int>, reward: nat, mature: bool,
                   releaseBps: nat): Submission {
    if !Due(task, now) || s.pYes.None? then s
    else if outcome.Some? then Earning(s, reward, mature, releaseBps)
    else s.(state := PendingResolution)
  }

  /** Outside rest, the revealed submissions of the task are settled; the rest is as it was. */
  ghost predicate SettledFor(t: string, before: Submissions, after: Submissions, rest: set<Key>,
                             rewardFor: Key -> nat, mature: set<string>, releaseBps: nat) {
    && after.Keys == before.Keys
    && forall k :: k in before ==>
         after[k] == if k.0 == t && k !in rest && before[k].pYes.Some?
                     then Earning(before[k], rewardFor(k), k.1 in mature, releaseBps) else before[k]
  }

  lemma SettledNone(t: string, subs: Submissions, rest: set<Key>, rewardFor: Key -> nat, mature: set<string>,
                    releaseBps: nat)
    requires rest == set k | k in subs && k.0 == t
    ensures SettledFor(t, subs, subs, rest, rewardFor, mature, releaseBps)
  {
  }

  lemma SettledNext(t: string, before: Submissions, now: Submissions, rest: set<Key>, k: Key, rewardFor: Key -> nat,
                    mature: set<string>, releaseBps: nat, after: Submissions)
    requires SettledFor(t, before, now, rest + {k}, rewardFor, mature, releaseBps) && k !in rest && k in now
    requires k.0 == t
    requires after == if now[k].pYes.Some?
                      then now[k := Earning(now[k], rewardFor(k), k.1 in mature, releaseBps)] else now
    ensures SettledFor(t, before, after, rest, rewardFor, mature, releaseBps)
  {
    hide Earning;
  }

  function Waiting(s: Submission): Submission {
    if s.pYes.Some? then s.(state := PendingResolution) else s
  }

  /** The revealed submissions of the task wait, except for the rest. */
  predicate Awaiting(before: Submissions, after: Submissions, t: string, rest: set<Key>) {
    after.Keys == before.Keys
    && forall k :: k in before ==> after[k] == if k.0 == t && k !in rest then Waiting(before[k]) else before[k]
  }

  lemma AwaitingNone(subs: Submissions, t: string)
    ensures Awaiting(subs, subs, t, set k | k in subs && k.0 == t)
  {
  }

  lemma AwaitingNext(before: Submissions, mid: Submissions, after: Submissions, t: string, rest: set<Key>, k: Key)
    requires Awaiting(before, mid, t, rest) && k in rest && k in mid && k.0 == t
    requires after == if mid[k].pYes.Some? then mid[k := mid[k].(state := PendingResolution)] else mid
    ensures Awaiting(before, after, t, rest - {k})
  {
  }

  /** All due tasks but the rest were settled, or wait for their outcome. */
  ghost predicate Settled(tasks: Tasks, subs: Submissions, tasks': Tasks, subs': Submissions, now: int,
                          outcomes: map<string, int>, rewardFor: Key -> nat, mature: set<string>, releaseBps: nat,
                          rest: set<string>) {
    && tasks'.Keys == tasks.Keys && subs'.Keys == subs.Keys
    && (forall t :: t in tasks ==>
         tasks'[t] == if t in rest then tasks[t] else TaskThen(tasks[t], now, Known(outcomes, t)))
    && (forall k :: k in subs ==>
         && k.0 in tasks
         && subs'[k] == if k.0 in rest then subs[k]
                        else SubThen(subs[k], tasks[k.0], now, Known(outcomes, k.0), rewardFor(k), k.1 in mature,
                                     releaseBps))
  }

  lemma SettledStart(tasks: Tasks, subs: Submissions, now: int, outcomes: map<string, int>, rewardFor: Key -> nat,
                     mature: set<string>, releaseBps: nat, rest: set<string>)
    requires forall k :: k in subs ==> k.0 in tasks
    requires rest == set t | t in tasks && Due(tasks[t], now)
    ensures Settled(tasks, subs, tasks, subs, now, outcomes, rewardFor, mature, releaseBps, rest)
  {
    hide Earning;
  }

  /** One more task is settled or waits. */
  lemma SettledStep(tasks: Tasks, subs: Submissions, mid: Tasks, midSubs: Submissions, tasks': Tasks,
                    subs': Submissions, now: int, outcomes: map<string, int>, rewardFor: Key -> nat,
                    mature: set<string>, releaseBps: nat, rest: set<string>, t: string)
    requires Settled(tasks, subs, mid, midSubs, now, outcomes, rewardFor, mature, releaseBps, rest)
    requires t in rest && t in tasks && Due(tasks[t], now)
    requires tasks' == mid[t := TaskThen(tasks[t], now, Known(outcomes, t))]
    requires if t in outcomes then SettledFor(t, midSubs, subs', {}, rewardFor, mature, releaseBps)
             else Awaiting(midSubs, subs', t, {})
    ensures Settled(tasks, subs, tasks', subs', now, outcomes, rewardFor, mature, releaseBps, rest - {t})
  {
    hide Earning, TaskThen;
    forall k | k in subs
      ensures subs'[k] == if k.0 in rest - {t} then subs[k]
                          else SubThen(subs[k], tasks[k.0], now, Known(outcomes, k.0), rewardFor(k), k.1 in mature,
                                       releaseBps)
    {
      if k.0 != t {
        hide SubThen, Known;
        assert subs'[k] == midSubs[k];
      }
    }
  }

  // ---- Filing into windows -----------------------------------------------------------------------------

  /** The tasks of a group know their window. */
  function Windowed(tasks: Tasks, group: set<string>, w: string): Tasks {
    map t | t in tasks :: if t in group then tasks[t].(windowId := Some(w)) else tasks[t]
  }

  /** The revealed submissions of the tasks know their window, except for the rest. */
  ghost predicate MarkedWith(before: Submissions, after: Submissions, ids: set<string>, w: string, rest: set<Key>) {
    && after.Keys == before.Keys
    && forall k :: k in before ==>
         after[k] == if k !in rest && k.0 in ids && before[k].pYes.Some? then before[k].(windowId := Some(w))
                     else before[k]
  }

  /** A resolved task gets into the window of its time, once. */
  function FiledTask(task: Task, windowFor: int -> string): Task {
    if task.resolved && task.windowId.None? then task.(windowId := Some(windowFor(task.resolveAt))) else task
  }

  /** A submission changes but for its window, which is then its task's; a revealed one learns the window that
      its task got into. */
  predicate FiledSub(s: Submission, s': Submission, task: Task, task': Task) {
    && s' == s.(windowId := s'.windowId)
    && (s'.windowId == s.windowId || (s.pYes.Some? && s'.windowId == task'.windowId))
    && (s.pYes.Some? && task'.windowId != task.windowId ==> s'.windowId == task'.windowId)
  }

  /** Every resolved task but the pending ones is in its window. */
  ghost predicate Filed(tasks: Tasks, subs: Submissions, tasks': Tasks, subs': Submissions, windowFor: int -> string,
                        pending: set<string>) {
    && tasks'.Keys == tasks.Keys && subs'.Keys == subs.Keys
    && (forall t :: t in tasks ==> tasks'[t] == if t in pending then tasks[t] else FiledTask(tasks[t], windowFor))
    && (forall k :: k in subs ==> k.0 in tasks && FiledSub(subs[k], subs'[k], tasks[k.0], tasks'[k.0]))
  }

  lemma FiledStart(tasks: Tasks, subs: Submissions, windowFor: int -> string, pending: set<string>)
    requires forall k :: k in subs ==> k.0 in tasks
    requires pending == set t | t in tasks && tasks[t].resolved && tasks[t].windowId.None?
    ensures Filed(tasks, subs, tasks, subs, windowFor, pending)
  {
  }

  lemma FiledStep(tasks: Tasks, subs: Submissions, mid: Tasks, midSubs: Submissions, subs': Submissions,
                  windowFor: int -> string, pending: set<string>, group: set<string>, ids: set<string>, w: string)
    requires Filed(tasks, subs, mid, midSubs, windowFor, pending)
    requires group <= pending && group <= ids && pending <= tasks.Keys
    requires forall t :: t in pending ==> tasks[t].resolved && tasks[t].windowId.None?
    requires forall t :: t in group ==> windowFor(tasks[t].resolveAt) == w
    requires forall t :: t in ids ==> t in mid && (t in group || mid[t].windowId == Some(w))
    requires MarkedWith(midSubs, subs', ids, w, {})
    ensures Filed(tasks, subs, Windowed(mid, group, w), subs', windowFor, pending - group)
  {
    var tasks' := Windowed(mid, group, w);
    forall t | t in tasks
      ensures tasks'[t] == if t in pending - group then tasks[t] else FiledTask(tasks[t], windowFor)
    {
    }
    forall k | k in subs ensures FiledSub(subs[k], subs'[k], tasks[k.0], tasks'[k.0]) {
      FiledSubStep(subs[k], midSubs[k], subs'[k], tasks[k.0], mid[k.0], tasks'[k.0], k.0 in group, k.0 in ids, w);
    }
  }

  lemma FiledSubStep(s: Submission, mid: Submission, s': Submission, task: Task, midTask: Task, task': Task,
                     joins: bool, listed: bool, w: string)
    requires FiledSub(s, mid, task, midTask) && task' == if joins then midTask.(windowId := Some(w)) else midTask
    requires (joins ==> listed) && (listed ==> joins || midTask.windowId == Some(w))
    requires joins ==> midTask == task && task.windowId.None?
    requires s' == if listed && mid.pYes.Some? then mid.(windowId := Some(w)) else mid
    ensures FiledSub(s, s', task, task')
  {
  }

  // ---- A reconcile -------------------------------------------------------------------------------------

  /** What a reconcile makes of the tasks and submissions. */
  ghost predicate Reconciled(tasks: Tasks, subs: Submissions, tasks': Tasks, subs': Submissions, now: int,
                             outcomes: map<string, int>, rewardFor: Key -> nat, mature: set<string>, releaseBps: nat,
                             windowFor: int -> string) {
    && tasks'.Keys == tasks.Keys && subs'.Keys == subs.Keys
    && (forall t :: t in tasks ==> tasks'[t] == FiledTask(TaskThen(tasks[t], now, Known(outcomes, t)), windowFor))
    && (forall k :: k in subs ==>
         && k.0 in tasks
         && FiledSub(SubThen(subs[k], tasks[k.0], now, Known(outcomes, k.0), rewardFor(k), k.1 in mature, releaseBps),
                     subs'[k], tasks[k.0], tasks'[k.0]))
  }

  lemma SettledThenFiled(tasks: Tasks, subs: Submissions, mid: Tasks, midSubs: Submissions, tasks': Tasks,
                         subs': Submissions, now: int, outcomes: map<string, int>, rewardFor: Key -> nat,
                         mature: set<string>, releaseBps: nat, windowFor: int -> string)
    requires Settled(tasks, subs, mid, midSubs, now, outcomes, rewardFor, mature, releaseBps, {})
    requires Filed(mid, midSubs, tasks', subs', windowFor, {})
    ensures Reconciled(tasks, subs, tasks', subs', now, outcomes, rewardFor, mature, releaseBps, windowFor)
  {
    hide FiledSub, SubThen, FiledTask;
    forall k | k in subs
      ensures FiledSub(SubThen(subs[k], tasks[k.0], now, Known(outcomes, k.0), rewardFor(k), k.1 in mature,
                               releaseBps), subs'[k], tasks[k.0], tasks'[k.0])
    {
      SameWindow(midSubs[k], subs'[k], tasks[k.0], mid[k.0], tasks'[k.0]);
    }
  }

  lemma SameWindow(s: Submission, s': Submission, task: Task, mid: Task, task': Task)
    requires FiledSub(s, s', mid, task') && mid.windowId == task.windowId
    ensures FiledSub(s, s', task, task')
  {
  }
}
