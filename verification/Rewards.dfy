/** Forecast rewards: what a miner has been paid and what is held back for it, and the reward windows
    the resolved tasks go into. Sums and single steps; the service is in RewardService. */
module Rewards {
  import opened Options
  import opened MapSums

  // ---- Data --------------------------------------------------------------------------------------------

  datatype Miner = Miner(total: int, held: int, createdAt: int, revealed: int, mature: bool)

  datatype Task = Task(publishAt: int, commitDeadline: int, revealDeadline: int, resolveAt: int, resolved: bool,
                       awaiting: bool, outcome: Option<int>, windowId: Option<string>)

  datatype SubState = Committed | Revealed | PendingResolution | Resolved

  datatype Submission = Submission(task: string, miner: string, commitHash: string, commitRequest: string,
                                   revealRequest: string, pYes: Option<int>, eligible: bool, state: SubState,
                                   reward: int, released: int, held: int, windowId: Option<string>)

  datatype Hold = Hold(miner: string, amount: int, released: int, open: bool, releaseAfter: int)

  datatype RewardWindow = RewardWindow(tasks: set<string>, total: int)

  /** A submission, and its hold, is known by its task and miner. */
  type Key = (string, string)

  type Miners = map<string, Miner>
  type Tasks = map<string, Task>
  type Submissions = map<Key, Submission>

  type Requests = map<string, Key>
  type Holds = map<Key, Hold>
  type RewardWindows = map<string, RewardWindow>

  // ---- Amounts -----------------------------------------------------------------------------------------

  function RewardTo(m: string): Submission -> int {
    (s: Submission) => if s.miner == m then s.reward else 0
  }

  function RewardIn(ts: set<string>): Submission -> int {
    (s: Submission) => if s.task in ts then s.reward else 0
  }

  function RewardAmong(ms: set<string>): Submission -> int {
    (s: Submission) => if s.miner in ms then s.reward else 0
  }

  function Reward(s: Submission): int {
    s.reward
  }

  function OpenOf(m: string): Hold -> int {
    (h: Hold) => if h.miner == m && h.open then h.amount - h.released else 0
  }

  /** An open hold of the miner whose time has come. */
  predicate IsDue(h: Hold, m: string, clock: int) {
    h.open && h.miner == m && h.releaseAfter <= clock
  }

  function DueOf(m: string, clock: int): Hold -> int {
    (h: Hold) => if IsDue(h, m, clock) then h.amount - h.released else 0
  }

  function Closed(h: Hold): Hold {
    h.(released := h.amount, open := false)
  }

  /** The holds once the due ones of the miner are closed. */
  function ClosedDue(holds: Holds, m: string, clock: int): Holds {
    map k | k in holds :: if IsDue(holds[k], m, clock) then Closed(holds[k]) else holds[k]
  }

  function Earned(m: Miner): int {
    m.total + m.held
  }

  function WindowTotal(w: RewardWindow): int {
    w.total
  }

  // ---- What holds of the tables ------------------------------------------------------------------------

  /** A miner's held rewards are the unreleased amounts of its open holds; paid and held together are the
      rewards of its submissions. */
  ghost predicate MinerSound(name: string, m: Miner, subs: Submissions, holds: Holds) {
    m.held == Sum(holds, OpenOf(name)) && m.total + m.held == Sum(subs, RewardTo(name))
  }

  /** Only a resolved submission has a reward, and only a resolved task (or the one being settled) has
      resolved submissions. */
  predicate SubSound(k: Key, s: Submission, miners: Miners, tasks: Tasks, busy: set<string>) {
    && s.task == k.0 && s.miner == k.1 && k.0 in tasks && k.1 in miners
    && (s.state != Resolved ==> s.reward == 0)
    && (s.state == Resolved ==> (tasks[k.0].resolved || k.0 in busy) && s.pYes.Some? && s.reward >= 0)
  }

  /** A hold belongs to a resolved submission, and nothing of it is released until it is closed. */
  predicate HoldShaped(k: Key, h: Hold, subs: Submissions) {
    && k in subs && subs[k].state == Resolved && h.miner == k.1 && h.amount > 0
    && h.released == if h.open then 0 else h.amount
  }

  /** Under a clock that does not run backwards every open hold is due. */
  predicate HoldSound(k: Key, h: Hold, subs: Submissions, clock: int) {
    HoldShaped(k, h, subs) && (h.open ==> h.releaseAfter <= clock)
  }

  predicate TaskSound(t: string, task: Task, windows: RewardWindows) {
    task.windowId.Some? ==> task.resolved && task.windowId.value in windows && t in windows[task.windowId.value].tasks
  }

  /** A window's total is the rewards of the tasks in it, and those tasks know their window. */
  ghost predicate WindowSound(id: string, w: RewardWindow, tasks: Tasks, subs: Submissions) {
    && w.total == Sum(subs, RewardIn(w.tasks))
    && forall t :: t in w.tasks ==> t in tasks && tasks[t].windowId == Some(id)
  }

  ghost predicate MinersSound(miners: Miners, subs: Submissions, holds: Holds) {
    forall m :: m in miners ==> MinerSound(m, miners[m], subs, holds)
  }

  ghost predicate SubsSound(miners: Miners, tasks: Tasks, subs: Submissions, busy: set<string>) {
    forall k :: k in subs ==> SubSound(k, subs[k], miners, tasks, busy)
  }

  ghost predicate HoldsShaped(subs: Submissions, holds: Holds) {
    forall k :: k in holds ==> HoldShaped(k, holds[k], subs)
  }

  ghost predicate HoldsSound(subs: Submissions, holds: Holds, clock: int) {
    forall k :: k in holds ==> HoldSound(k, holds[k], subs, clock)
  }

  ghost predicate TasksSound(tasks: Tasks, windows: RewardWindows) {
    forall t :: t in tasks ==> TaskSound(t, tasks[t], windows)
  }

  ghost predicate WindowsSound(tasks: Tasks, subs: Submissions, windows: RewardWindows) {
    forall w :: w in windows ==> WindowSound(w, windows[w], tasks, subs)
  }

  /** A submission's request ids are its own: no other submission can have been saved under them. */
  predicate RequestsSound(subs: Submissions, requests: map<string, Key>) {
    forall k :: k in subs ==>
         OwnRequest(subs[k].commitRequest, k, requests) && OwnRequest(subs[k].revealRequest, k, requests)
  }

  predicate OwnRequest(id: string, k: Key, requests: map<string, Key>) {
    id != "" ==> id in requests && requests[id] == k
  }

  // ---- Conservation ------------------------------------------------------------------------------------

  lemma {:induction false} EarnedByAll(miners: Miners, all: Miners, subs: Submissions, holds: Holds)
    requires MinersSound(all, subs, holds) && forall m :: m in miners ==> m in all && miners[m] == all[m]
    ensures Sum(miners, Earned) == Sum(subs, RewardAmong(miners.Keys))
    decreases |miners|
  {
    hide MinersSound, Sum, Earned;
    if miners == map[] {
      NothingEarned();
      SumZero(subs, RewardAmong({}));
    } else {
      var m :| m in miners;
      var rest := miners - {m};
      SumTake(miners, Earned, m);
      EarnedByAll(rest, all, subs, holds);
      EarnedBy(m, all, subs, holds);
      RewardsGrow(subs, rest.Keys, m);
      assert miners.Keys == rest.Keys + {m};
    }
  }

  lemma NothingEarned()
    ensures
      var none: Miners := map[];
      Sum(none, Earned) == 0
  {
  }

  lemma EarnedBy(m: string, all: Miners, subs: Submissions, holds: Holds)
    requires MinersSound(all, subs, holds) && m in all
    ensures Earned(all[m]) == Sum(subs, RewardTo(m))
  {
    assert MinerSound(m, all[m], subs, holds);
  }

  lemma RewardsGrow(subs: Submissions, ms: set<string>, m: string)
    requires m !in ms
    ensures Sum(subs, RewardAmong(ms + {m})) == Sum(subs, RewardTo(m)) + Sum(subs, RewardAmong(ms))
  {
    SumSplit(subs, RewardTo(m), RewardAmong(ms), RewardAmong(ms + {m}));
  }

  ghost function TasksIn(windows: RewardWindows): set<string> {
    set w, t | w in windows && t in windows[w].tasks :: t
  }

  lemma {:induction false} WindowsHold(windows: RewardWindows, all: RewardWindows, tasks: Tasks, subs: Submissions)
    requires WindowsSound(tasks, subs, all) && forall w :: w in windows ==> w in all && windows[w] == all[w]
    ensures Sum(windows, WindowTotal) == Sum(subs, RewardIn(TasksIn(windows)))
    decreases |windows|
  {
    if windows == map[] {
      SumZero(subs, RewardIn(TasksIn(windows)));
      SumZero(windows, WindowTotal);
    } else {
      var w :| w in windows;
      var rest := windows - {w};
      SumTake(windows, WindowTotal, w);
      WindowsHold(rest, all, tasks, subs);
      assert WindowSound(w, all[w], tasks, subs);
      WindowsApart(windows, all, tasks, subs, w);
      hide TasksIn, WindowSound, WindowsSound;
      RewardsApart(subs, windows[w].tasks, TasksIn(rest));
    }
  }

  lemma WindowsApart(windows: RewardWindows, all: RewardWindows, tasks: Tasks, subs: Submissions, w: string)
    requires WindowsSound(tasks, subs, all) && (forall x :: x in windows ==>
              x in all && windows[x] == all[x]) && w in windows
    ensures TasksIn(windows) == windows[w].tasks + TasksIn(windows - {w})
    ensures windows[w].tasks !! TasksIn(windows - {w})
  {
    forall t | t in TasksIn(windows - {w}) ensures t !in windows[w].tasks {
      var x :| x in windows - {w} && t in windows[x].tasks;
      assert WindowSound(x, all[x], tasks, subs) && WindowSound(w, all[w], tasks, subs);
    }
    forall t | t in TasksIn(windows) ensures t in windows[w].tasks || t in TasksIn(windows - {w}) {
      var x :| x in windows && t in windows[x].tasks;
      assert x != w ==> x in windows - {w} && (windows - {w})[x] == windows[x];
    }
  }

  lemma RewardsApart(subs: Submissions, a: set<string>, b: set<string>)
    requires a !! b
    ensures Sum(subs, RewardIn(a + b)) == Sum(subs, RewardIn(a)) + Sum(subs, RewardIn(b))
  {
    SumSplit(subs, RewardIn(a), RewardIn(b), RewardIn(a + b));
  }

  ghost predicate AllWindowed(tasks: Tasks) {
    forall t :: t in tasks && tasks[t].resolved ==> tasks[t].windowId.Some?
  }

  /** When every resolved task is in a window, the windows' totals are all that miners were paid or are
      held. */
  lemma WindowsPayMiners(miners: Miners, tasks: Tasks, subs: Submissions, holds: Holds, windows: RewardWindows)
    requires MinersSound(miners, subs, holds) && SubsSound(miners, tasks, subs, {})
    requires TasksSound(tasks, windows) && WindowsSound(tasks, subs, windows) && AllWindowed(tasks)
    ensures Sum(windows, WindowTotal) == Sum(miners, Earned) == Sum(subs, Reward)
  {
    hide MinerSound, WindowSound;
    EarnedByAll(miners, miners, subs, holds);
    WindowsHold(windows, windows, tasks, subs);
    forall k | k in subs
      ensures RewardAmong(miners.Keys)(subs[k]) == Reward(subs[k]) == RewardIn(TasksIn(windows))(subs[k])
    {
      assert SubSound(k, subs[k], miners, tasks, {});
      assert TaskSound(k.0, tasks[k.0], windows);
    }
    SumAgrees(subs, RewardAmong(miners.Keys), Reward);
    SumAgrees(subs, RewardIn(TasksIn(windows)), Reward);
  }
}
