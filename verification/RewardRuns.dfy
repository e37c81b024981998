/** Runs of the reward service: why a task is resolved, why a submission has a prediction and a reward, and that
    the accounts add up (forecast_engine). */
module RewardRuns {
  import opened Options
  import opened MapSums
  import opened Rewards
  import opened RewardOutcomes
  import opened RewardService

  datatype Event =
    | Registering(address: string, at: int)
    | Publishing(id: string, task: Task)
    | Committing(taskId: string, miner: string, request: string, commitHash: string, at: int)
    | Revealing(taskId: string, miner: string, request: string, pYes: int, nonce: string, duplicate: bool, at: int)
    | Reconciling(now: int, outcomes: map<string, int>, rewardFor: Key -> nat)

  /** Reconciles happen in the order of their times, none before `start`. */
  ghost predicate InTime(events: seq<Event>, start: int) {
    && (forall k :: 0 <= k < |events| && events[k].Reconciling? ==> start <= events[k].now)
    && (forall i, j :: 0 <= i < j < |events| && events[i].Reconciling? && events[j].Reconciling? ==>
         events[i].now <= events[j].now)
  }

  /** What the book was made with. */
  datatype Setup = Setup(windowFor: int -> string, commitHashOf: (string, string, int, string) -> string,
                         minBps: int, maxBps: int)

  ghost function SetupOf(book: RewardBook): Setup {
    Setup(book.windowFor, book.commitHashOf, book.minBps, book.maxBps)
  }

  // ---- Why a record is as it is ------------------------------------------------------------------------

  /** A reconcile at or after the task's time had this outcome for it. */
  predicate Resolves(e: Event, id: string, task: Task) {
    && e.Reconciling? && id in e.outcomes && task.resolveAt <= e.now
    && task.resolved && task.outcome == Some(e.outcomes[id])
  }

  /** A reveal within the task's window opened the submission's commitment to its prediction. */
  predicate Opened(setup: Setup, e: Event, k: Key, s: Submission, task: Task) {
    && e.Revealing? && (e.taskId, e.miner) == k && task.publishAt <= e.at <= task.revealDeadline
    && s.commitHash != "" && s.eligible == !e.duplicate
    && s.pYes == Some(Clamped(e.pYes, setup.minBps, setup.maxBps))
    && setup.commitHashOf(k.0, k.1, s.pYes.value, e.nonce) == s.commitHash
  }

  /** A reconcile that resolved the task gave the submission its reward. */
  predicate Rewarded(e: Event, k: Key, s: Submission, task: Task) {
    Resolves(e, k.0, task) && s.reward == if s.eligible then e.rewardFor(k) else 0
  }

  ghost predicate TaskExplained(setup: Setup, events: seq<Event>, t: string, task: Task) {
    && (task.resolved ==> exists j :: 0 <= j < |events| && Resolves(events[j], t, task))
    && (task.windowId.Some? ==> task.windowId == Some(setup.windowFor(task.resolveAt)))
  }

  ghost predicate SubExplained(setup: Setup, events: seq<Event>, k: Key, s: Submission, task: Task) {
    && (s.pYes.Some? ==> exists j :: 0 <= j < |events| && Opened(setup, events[j], k, s, task))
    && (s.state == Resolved ==> exists j :: 0 <= j < |events| && Rewarded(events[j], k, s, task))
  }

  ghost predicate Explained(setup: Setup, events: seq<Event>, tasks: Tasks, subs: Submissions) {
    && (forall t :: t in tasks ==> TaskExplained(setup, events, t, tasks[t]))
    && (forall k :: k in subs ==> k.0 in tasks && SubExplained(setup, events, k, subs[k], tasks[k.0]))
  }

  lemma TaskStillExplained(setup: Setup, events: seq<Event>, e: Event, t: string, task: Task)
    requires TaskExplained(setup, events, t, task)
    ensures TaskExplained(setup, events + [e], t, task)
  {
    hide Resolves;
    if task.resolved {
      var j :| 0 <= j < |events| && Resolves(events[j], t, task);
      assert (events + [e])[j] == events[j];
    }
  }

  lemma SubStillExplained(setup: Setup, events: seq<Event>, e: Event, k: Key, s: Submission, task: Task)
    requires SubExplained(setup, events, k, s, task)
    ensures SubExplained(setup, events + [e], k, s, task)
  {
    hide Opened, Rewarded;
    if s.pYes.Some? {
      var j :| 0 <= j < |events| && Opened(setup, events[j], k, s, task);
      assert (events + [e])[j] == events[j];
    }
    if s.state == Resolved {
      var j :| 0 <= j < |events| && Rewarded(events[j], k, s, task);
      assert (events + [e])[j] == events[j];
    }
  }

  lemma StillExplained(setup: Setup, events: seq<Event>, e: Event, tasks: Tasks, subs: Submissions)
    requires Explained(setup, events, tasks, subs)
    ensures Explained(setup, events + [e], tasks, subs)
  {
    hide TaskExplained, SubExplained;
    forall t | t in tasks ensures TaskExplained(setup, events + [e], t, tasks[t]) {
      TaskStillExplained(setup, events, e, t, tasks[t]);
    }
    forall k | k in subs ensures SubExplained(setup, events + [e], k, subs[k], tasks[k.0]) {
      SubStillExplained(setup, events, e, k, subs[k], tasks[k.0]);
    }
  }

  /** A new task has nothing to explain. */
  lemma PublishExplained(setup: Setup, events: seq<Event>, tasks: Tasks, subs: Submissions, id: string, task: Task)
    requires Explained(setup, events, tasks, subs) && id !in tasks && !task.resolved && task.windowId.None?
    ensures Explained(setup, events, tasks[id := task], subs)
  {
    hide SubExplained;
  }

  /** A submission whose explanation stands. */
  lemma SubPutExplained(setup: Setup, events: seq<Event>, tasks: Tasks, subs: Submissions, k: Key, s: Submission)
    requires Explained(setup, events, tasks, subs) && k.0 in tasks && SubExplained(setup, events, k, s, tasks[k.0])
    ensures Explained(setup, events, tasks, subs[k := s])
  {
    hide TaskExplained, SubExplained;
  }

  lemma CommitExplained(setup: Setup, events: seq<Event>, k: Key, s: Submission, task: Task, s': Submission)
    requires SubExplained(setup, events, k, s, task) && s.commitHash == ""
    requires s.state == Resolved ==> s.pYes.Some?
    requires s' == s.(commitHash := s'.commitHash, commitRequest := s'.commitRequest)
    ensures SubExplained(setup, events, k, s', task)
  {
  }

  lemma RevealExplained(setup: Setup, events: seq<Event>, e: Event, k: Key, s: Submission, task: Task)
    requires Opened(setup, e, k, s, task) && s.state == Revealed
    ensures SubExplained(setup, events + [e], k, s, task)
  {
    hide Opened;
    assert (events + [e])[|events|] == e;
  }

  lemma ReconcileExplains(setup: Setup, events: seq<Event>, e: Event, tasks: Tasks, subs: Submissions, tasks': Tasks,
                          subs': Submissions, mature: set<string>, releaseBps: nat)
    requires Explained(setup, events, tasks, subs) && e.Reconciling?
    requires Reconciled(tasks, subs, tasks', subs', e.now, e.outcomes, e.rewardFor, mature, releaseBps,
                        setup.windowFor)
    ensures Explained(setup, events + [e], tasks', subs')
  {
    hide TaskExplained, SubExplained, TaskThen, SubThen, FiledSub, FiledTask, Known;
    forall t | t in tasks' ensures TaskExplained(setup, events + [e], t, tasks'[t]) {
      ReconcileTask(setup, events, e, t, tasks[t]);
    }
    forall k | k in subs' ensures SubExplained(setup, events + [e], k, subs'[k], tasks'[k.0]) {
      ReconcileSub(setup, events, e, k, subs[k], tasks[k.0], subs'[k], k.1 in mature, releaseBps);
    }
  }

  lemma ReconcileTask(setup: Setup, events: seq<Event>, e: Event, t: string, task: Task)
    requires TaskExplained(setup, events, t, task) && e.Reconciling?
    ensures
      TaskExplained(setup, events + [e], t, FiledTask(TaskThen(task, e.now, Known(e.outcomes, t)), setup.windowFor))
  {
    var task' := FiledTask(TaskThen(task, e.now, Known(e.outcomes, t)), setup.windowFor);
    if task.resolved {
      var j :| 0 <= j < |events| && Resolves(events[j], t, task);
      assert Resolves((events + [e])[j], t, task');
    } else if task'.resolved {
      assert Resolves((events + [e])[|events|], t, task');
    }
  }

  lemma ReconcileSub(setup: Setup, events: seq<Event>, e: Event, k: Key, s: Submission, task: Task, s': Submission,
                     mature: bool, releaseBps: nat)
    requires SubExplained(setup, events, k, s, task) && e.Reconciling?
    requires
      var outcome := Known(e.outcomes, k.0);
      var task' := FiledTask(TaskThen(task, e.now, outcome), setup.windowFor);
      FiledSub(SubThen(s, task, e.now, outcome, e.rewardFor(k), mature, releaseBps), s', task, task')
    ensures
      SubExplained(setup, events + [e], k, s',
                   FiledTask(TaskThen(task, e.now, Known(e.outcomes, k.0)), setup.windowFor))
  {
    var task' := FiledTask(TaskThen(task, e.now, Known(e.outcomes, k.0)), setup.windowFor);
    hide RoundHalfEven;
    if s'.pYes.Some? {
      var j :| 0 <= j < |events| && Opened(setup, events[j], k, s, task);
      assert Opened(setup, (events + [e])[j], k, s', task');
    }
    if s'.state == Resolved {
      if s.state == Resolved {
        var j :| 0 <= j < |events| && Rewarded(events[j], k, s, task);
        assert Rewarded((events + [e])[j], k, s', task');
      } else {
        assert Rewarded((events + [e])[|events|], k, s', task');
      }
    }
  }

  // ---- Runs --------------------------------------------------------------------------------------------

  /** One event of a run: what was explained by the past is explained with it. */
  method Step(book: RewardBook, ghost past: seq<Event>, e: Event)
    requires book.Valid({}) && (e.Reconciling? ==> book.clock <= e.now)
    modifies book
    ensures book.Valid({})
    ensures old(Explained(SetupOf(book), past, book.tasks, book.subs)) ==>
              Explained(SetupOf(book), past + [e], book.tasks, book.subs)
    ensures book.clock == if e.Reconciling? then e.now else old(book.clock)
    ensures e.Reconciling? ==> Sum(book.windows, WindowTotal) == Sum(book.miners, Earned)
  {
    hide HoldsSound, WindowsSound, TasksSound, RequestsSound, SubsSound, MinersSound, Explained, Reconciled, Sum;
    hide SubExplained, MatureMiners, Clamped;
    ghost var setup := SetupOf(book);
    ghost var explained := Explained(setup, past, book.tasks, book.subs);
    if explained {
      StillExplained(setup, past, e, book.tasks, book.subs);
    }
    match e
    case Registering(address, at) => var _ := book.Register(address, at);
    case Publishing(id, task) =>
      if !task.resolved && task.windowId.None? {
        if explained && id !in book.tasks {
          PublishExplained(setup, past + [e], book.tasks, book.subs, id, task);
        }
        book.Publish(id, task);
      }
    case Committing(taskId, miner, request, commitHash, at) => CommitStep(book, past + [e], e);
    case Revealing(taskId, miner, request, pYes, nonce, duplicate, at) => RevealStep(book, past, e);
    case Reconciling(now, outcomes, rewardFor) =>
      ghost var tasks, subs := book.tasks, book.subs;
      ghost var mature := MatureMiners(book.miners, now, book.matureHours, book.matureReveals);
      book.Reconcile(now, outcomes, rewardFor);
      if explained {
        ReconcileExplains(setup, past, e, tasks, subs, book.tasks, book.subs, mature, book.releaseBps);
      }
  }

  method CommitStep(book: RewardBook, ghost events: seq<Event>, e: Event)
    requires book.Valid({}) && e.Committing?
    modifies book`subs, book`requests
    ensures book.Valid({})
    ensures old(Explained(SetupOf(book), events, book.tasks, book.subs)) ==>
              Explained(SetupOf(book), events, book.tasks, book.subs)
  {
    hide HoldsSound, WindowsSound, TasksSound, RequestsSound, SubsSound, MinersSound, SubExplained, TaskExplained;
    var k := (e.taskId, e.miner);
    ghost var setup, subs := SetupOf(book), book.subs;
    RevealedFirst(book.miners, book.tasks, subs, k);
    var r := book.Commit(e.taskId, e.miner, e.request, e.commitHash, e.at);
    if r == Ok(true) && Explained(setup, events, book.tasks, subs) {
      if k in subs {
        CommitExplained(setup, events, k, subs[k], book.tasks[k.0], book.subs[k]);
      } else {
        NewExplained(setup, events, k, book.subs[k], book.tasks[k.0]);
      }
      SubPutExplained(setup, events, book.tasks, subs, k, book.subs[k]);
    }
  }

  lemma RevealedFirst(miners: Miners, tasks: Tasks, subs: Submissions, k: Key)
    requires SubsSound(miners, tasks, subs, {})
    ensures k in subs && subs[k].state == Resolved ==> subs[k].pYes.Some?
  {
    if k in subs {
      assert SubSound(k, subs[k], miners, tasks, {});
    }
  }

  lemma NewExplained(setup: Setup, events: seq<Event>, k: Key, s: Submission, task: Task)
    requires s.pYes.None? && s.state == Committed
    ensures SubExplained(setup, events, k, s, task)
  {
  }

  method RevealStep(book: RewardBook, ghost events: seq<Event>, e: Event)
    requires book.Valid({}) && e.Revealing?
    modifies book`subs, book`requests, book`miners
    ensures book.Valid({})
    ensures old(Explained(SetupOf(book), events, book.tasks, book.subs)) ==>
              Explained(SetupOf(book), events + [e], book.tasks, book.subs)
  {
    hide HoldsSound, WindowsSound, TasksSound, RequestsSound, SubsSound, MinersSound, SubExplained, TaskExplained;
    hide Explained, Clamped;
    var k := (e.taskId, e.miner);
    ghost var setup, subs := SetupOf(book), book.subs;
    var r := book.Reveal(e.taskId, e.miner, e.request, e.pYes, e.nonce, e.duplicate, e.at);
    if Explained(setup, events, book.tasks, subs) {
      StillExplained(setup, events, e, book.tasks, subs);
      if r == Ok(true) {
        RevealExplained(setup, events, e, k, book.subs[k], book.tasks[k.0]);
        SubPutExplained(setup, events + [e], book.tasks, subs, k, book.subs[k]);
      }
    }
  }

  /** A book without tasks and submissions has nothing to explain. */
  lemma NothingToExplain(setup: Setup)
    ensures Explained(setup, [], map[], map[])
  {
  }

  /** Over every run under a clock that does not run backwards, from any book whose records its past events
      explain: a task is resolved only by a reconcile at or after its time that had its outcome; a submission has
      a prediction only by a reveal within the task's window that opened its commitment, and is resolved only with
      the reward that the reconcile resolving its task had for it, or none if it is ineligible. And from any book
      at all, each miner's held rewards are its open holds and its account is the rewards of its submissions, and
      after a reconcile the windows' totals are all that miners were paid or are held. */
  method RunAll(book: RewardBook, ghost past: seq<Event>, events: seq<Event>)
    requires book.Valid({}) && InTime(events, book.clock)
    modifies book
    ensures book.Valid({})
    ensures old(Explained(SetupOf(book), past, book.tasks, book.subs)) ==>
              Explained(SetupOf(book), past + events, book.tasks, book.subs)
    ensures forall m :: m in book.miners ==>
              book.miners[m].held == Sum(book.holds, OpenOf(m))
              && book.miners[m].total + book.miners[m].held == Sum(book.subs, RewardTo(m))
    ensures events != [] && events[|events| - 1].Reconciling? ==>
              Sum(book.windows, WindowTotal) == Sum(book.miners, Earned)
  {
    hide HoldsSound, WindowsSound, TasksSound, RequestsSound, SubsSound, MinersSound, Explained;
    assert past + events[..0] == past;
    for k := 0 to |events|
      invariant book.Valid({})
      invariant old(Explained(SetupOf(book), past, book.tasks, book.subs)) ==>
                  Explained(SetupOf(book), past + events[..k], book.tasks, book.subs)
      invariant forall j :: k <= j < |events| && events[j].Reconciling? ==> book.clock <= events[j].now
      invariant 0 < k && events[k - 1].Reconciling? ==> Sum(book.windows, WindowTotal) == Sum(book.miners, Earned)
    {
      Step(book, past + events[..k], events[k]);
      assert past + events[..k + 1] == past + events[..k] + [events[k]];
    }
    assert events[..|events|] == events;
    AllMinersSound(book.miners, book.subs, book.holds);
  }

  lemma AllMinersSound(miners: Miners, subs: Submissions, holds: Holds)
    requires MinersSound(miners, subs, holds)
    ensures forall m :: m in miners ==>
              miners[m].held == Sum(holds, OpenOf(m)) && miners[m].total + miners[m].held == Sum(subs, RewardTo(m))
  {
    forall m | m in miners
      ensures miners[m].held == Sum(holds, OpenOf(m)) && miners[m].total + miners[m].held == Sum(subs, RewardTo(m))
    {
      assert MinerSound(m, miners[m], subs, holds);
    }
  }
}
