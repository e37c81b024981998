/** The forecast reward steps of the service over the in-memory repository: registering, committing,
    revealing, and the reconcile that settles tasks, releases holds and builds reward windows. */
module RewardService {
  import opened Options
  import opened MapSums
  import opened Rewards
  import opened RewardOutcomes

  datatype RewardError =
    | InvalidAddress | AlreadyRegistered | TaskNotFound | NotPublished | WindowClosed | NotRegistered | AlreadyCommitted
    | CommitRequired | AlreadyRevealed | CommitMismatch

  // ---- Rounding and admission --------------------------------------------------------------------------

  /** What is paid at once of a reward. */
  function ReleasedPart(reward: nat, mature: bool, releaseBps: nat): nat {
    if mature then reward else RoundHalfEven(reward * releaseBps, 10000)
  }

  /** Everything if the miner is mature, otherwise the whole number nearest to the released share, and the even
      one of two that are equally near. */
  lemma PaidAtOnce(reward: nat, mature: bool, releaseBps: nat)
    ensures
      var paid := ReleasedPart(reward, mature, releaseBps);
      if mature then paid == reward
      else
        var off := 2 * (10000 * paid - reward * releaseBps);
        -10000 <= off <= 10000 && (off == 10000 || off == -10000 ==> paid % 2 == 0)
  {
    if !mature {
      RoundsNearest(reward * releaseBps, 10000);
    }
  }

  lemma ReleasedWithin(reward: nat, mature: bool, releaseBps: nat)
    requires releaseBps <= 10000
    ensures ReleasedPart(reward, mature, releaseBps) <= reward
  {
    if !mature {
      ScaledWithin(reward, releaseBps);
    }
  }

  lemma ScaledWithin(reward: nat, bps: nat)
    requires bps <= 10000
    ensures RoundHalfEven(reward * bps, 10000) <= reward
  {
    MulMonotone(reward, bps, 10000);
    RoundedWithin(reward * bps, 10000, reward);
  }

  lemma MulMonotone(x: nat, a: nat, b: nat)
    requires a <= b
    ensures x * a <= x * b
  {
    assert x * (b - a) >= 0;
    assert x * b == x * a + x * (b - a);
  }

  /** Rounding a quotient to the nearest does not pass a whole bound. */
  lemma RoundedWithin(n: nat, d: nat, most: nat)
    requires d > 0 && n <= most * d
    ensures RoundHalfEven(n, d) <= most
  {
    var q, r := n / d, n % d;
    assert n == q * d + r;
    if q >= most {
      MulMonotone(d, most, q);
      assert r == 0;
    }
  }

  // ---- One submission changes --------------------------------------------------------------------------

  lemma RewardPut(subs: Submissions, k: Key, s: Submission, x: string)
    ensures Sum(subs[k := s], RewardTo(x))
              == Sum(subs, RewardTo(x)) + RewardTo(x)(s) - if k in subs then RewardTo(x)(subs[k]) else 0
  {
    SumPut(subs, RewardTo(x), k, s);
  }

  /** A change that leaves the reward alone leaves every sum alone. */
  lemma SameReward(miners: Miners, tasks: Tasks, subs: Submissions, holds: Holds, windows: RewardWindows, k: Key,
                   s: Submission)
    requires MinersSound(miners, subs, holds) && WindowsSound(tasks, subs, windows)
    requires s.task == k.0 && s.miner == k.1
    requires k in subs ==> subs[k].reward == s.reward && subs[k].task == k.0 && subs[k].miner == k.1
    requires k !in subs ==> s.reward == 0
    ensures MinersSound(miners, subs[k := s], holds) && WindowsSound(tasks, subs[k := s], windows)
  {
    forall x | x in miners ensures MinerSound(x, miners[x], subs[k := s], holds) {
      RewardPut(subs, k, s, x);
      assert MinerSound(x, miners[x], subs, holds);
    }
    forall w | w in windows ensures WindowSound(w, windows[w], tasks, subs[k := s]) {
      assert WindowSound(w, windows[w], tasks, subs);
      SumPut(subs, RewardIn(windows[w].tasks), k, s);
    }
  }

  /** A reward in a task outside every window leaves the windows alone. */
  lemma OutsideWindows(tasks: Tasks, subs: Submissions, windows: RewardWindows, k: Key, s: Submission)
    requires WindowsSound(tasks, subs, windows) && k in subs && subs[k].task == s.task == k.0
    requires k.0 in tasks && tasks[k.0].windowId.None?
    ensures WindowsSound(tasks, subs[k := s], windows)
  {
    forall w | w in windows ensures WindowSound(w, windows[w], tasks, subs[k := s]) {
      assert WindowSound(w, windows[w], tasks, subs);
      SumPut(subs, RewardIn(windows[w].tasks), k, s);
    }
  }

  /** A submission is settled: its reward is paid in part and held in part. */
  lemma SettledSums(miners: Miners, subs: Submissions, holds: Holds, k: Key, s: Submission, paid: int, kept: int,
                    at: int, m: Miner)
    requires MinersSound(miners, subs, holds) && k in subs && k.1 in miners && k !in holds
    requires m.total == miners[k.1].total + paid && m.held == miners[k.1].held + kept
    requires subs[k].miner == s.miner == k.1 && subs[k].reward == 0 && s.reward == paid + kept && kept >= 0
    ensures MinersSound(miners[k.1 := m], subs[k := s], WithHold(holds, k, kept, at))
  {
    var after := miners[k.1 := m];
    forall x | x in miners ensures MinerSound(x, after[x], subs[k := s], WithHold(holds, k, kept, at)) {
      RewardPut(subs, k, s, x);
      HoldAdds(holds, k, kept, at, x);
      assert MinerSound(x, miners[x], subs, holds);
    }
  }

  function WithHold(holds: Holds, k: Key, kept: int, at: int): Holds {
    if kept > 0 then holds[k := Hold(k.1, kept, 0, true, at)] else holds
  }

  lemma HoldAdds(holds: Holds, k: Key, kept: int, at: int, x: string)
    requires k !in holds && kept >= 0
    ensures Sum(WithHold(holds, k, kept, at), OpenOf(x)) == Sum(holds, OpenOf(x)) + if k.1 == x then kept else 0
  {
    SumPut(holds, OpenOf(x), k, Hold(k.1, kept, 0, true, at));
  }

  // ---- The service -------------------------------------------------------------------------------------

  class RewardBook {
    const releaseBps: nat
    const matureHours: int
    const matureReveals: int
    /** The hourly window a time falls in. */
    const windowFor: int -> string
    /** The commitment to a prediction: of its task, miner, probability and nonce. */
    const commitHashOf: (string, string, int, string) -> string
    const minBps: int
    const maxBps: int
    var miners: Miners
    var tasks: Tasks
    var subs: Submissions
    var holds: Holds
    var windows: RewardWindows
    var requests: Requests
    /** The latest time a step ran at. */
    var clock: int

    constructor (releaseBps: nat, matureHours: int, matureReveals: int, windowFor: int -> string,
                 commitHashOf: (string, string, int, string) -> string, minBps: int, maxBps: int, start: int)
      requires releaseBps <= 10000
      ensures Valid({}) && miners == map[] && tasks == map[] && windows == map[] && clock == start
      ensures subs == map[] && holds == map[] && requests == map[]
      ensures this.releaseBps == releaseBps && this.matureHours == matureHours && this.matureReveals == matureReveals
      ensures this.windowFor == windowFor && this.commitHashOf == commitHashOf
      ensures this.minBps == minBps && this.maxBps == maxBps
    {
      this.releaseBps, this.matureHours := releaseBps, matureHours;
      this.matureReveals, this.windowFor := matureReveals, windowFor;
      this.commitHashOf, this.minBps, this.maxBps := commitHashOf, minBps, maxBps;
      miners, tasks, subs, holds, windows, requests, clock := map[], map[], map[], map[], map[], map[], start;
    }

    /** The tables are sound; the tasks in busy are being settled. */
    ghost predicate Valid(busy: set<string>)
      reads this
    {
      && releaseBps <= 10000 && "" !in miners
      && MinersSound(miners, subs, holds) && SubsSound(miners, tasks, subs, busy) && HoldsSound(subs, holds, clock)
      && TasksSound(tasks, windows) && WindowsSound(tasks, subs, windows) && RequestsSound(subs, requests)
    }

    /** register_miner */
    method Register(address: string, now: int) returns (r: Result<Miner, RewardError>)
      requires Valid({})
      modifies this`miners
      ensures Valid({})
      ensures r.Ok? <==> "claw1" <= address && address !in old(miners)
      ensures miners == if r.Ok? then old(miners)[address := Miner(0, 0, now, 0, false)] else old(miners)
    {
      if !("claw1" <= address) {
        return Err(InvalidAddress);
      }
      if address in miners {
        return Err(AlreadyRegistered);
      }
      var m := Miner(0, 0, now, 0, false);
      NothingYet(miners, tasks, subs, holds, clock, address, m);
      hide MinersSound, WindowsSound, TasksSound, SubsSound, HoldsSound;
      miners := miners[address := m];
      r := Ok(m);
    }

    /** A fast task is published by the schedule. */
    method Publish(id: string, task: Task)
      requires Valid({}) && !task.resolved && task.windowId.None?
      modifies this`tasks
      ensures Valid({}) && tasks == if id in old(tasks) then old(tasks) else old(tasks)[id := task]
    {
      if id !in tasks {
        NewTask(tasks, subs, windows, id, task);
        hide MinersSound, HoldsSound, WindowsSound, TasksSound;
        tasks := tasks[id := task];
      }
    }

    /** save_submission: refused, silently, when a request id was used for another submission. */
    method Save(k: Key, s: Submission) returns (stored: bool)
      requires Valid({}) && SubSound(k, s, miners, tasks, {})
      requires (if k in subs then subs[k].reward == s.reward else s.reward == 0)
      requires k in holds ==> s.state == Resolved
      modifies this`subs, this`requests
      ensures Valid({}) && (stored <==> Storable(old(requests), k, s))
      ensures subs == (if stored then old(subs)[k := s] else old(subs))
      ensures !stored ==> requests == old(requests)
    {
      if Taken(requests, k, s.commitRequest) || Taken(requests, k, s.revealRequest) {
        return false;
      }
      if k in subs {
        assert SubSound(k, subs[k], miners, tasks, {});
      }
      RequestsKept(subs, requests, k, s);
      SavedSound(miners, tasks, subs, holds, clock, k, s);
      hide MinersSound, WindowsSound, SubsSound, HoldsSound, TasksSound;
      SameReward(miners, tasks, subs, holds, windows, k, s);
      subs := subs[k := s];
      requests := Noted(Noted(requests, k, s.commitRequest), k, s.revealRequest);
      stored := true;
    }

    /** commit_submission */
    method Commit(task: string, miner: string, request: string, commitHash: string, now: int)
      returns (r: Result<bool, RewardError>)
      requires Valid({})
      modifies this`subs, this`requests
      ensures Valid({})
      ensures r.Ok? <==>
                task in tasks && tasks[task].publishAt <= now <= tasks[task].commitDeadline && miner in miners
                && !((task, miner) in old(subs) && old(subs)[(task, miner)].commitHash != "")
      ensures r.Ok? ==> (r.value <==> Storable(old(requests), (task, miner),
                                               CommittedAs(old(subs), task, miner, request, commitHash)))
      ensures r != Ok(true) ==> subs == old(subs)
      ensures r == Ok(true) ==>
                var k := (task, miner);
                subs == old(subs)[k := if k in old(subs)
                                       then old(subs)[k].(commitHash := commitHash, commitRequest := request)
                                       else Submission(task, miner, commitHash, request, "", None, true, Committed, 0,
                                                       0, 0, None)]
    {
      if task !in tasks {
        return Err(TaskNotFound);
      }
      if tasks[task].publishAt > now {
        return Err(NotPublished);
      }
      if tasks[task].commitDeadline < now {
        return Err(WindowClosed);
      }
      if miner !in miners {
        return Err(NotRegistered);
      }
      var k := (task, miner);
      if k in subs && subs[k].commitHash != "" {
        return Err(AlreadyCommitted);
      }
      CommitSound(miners, tasks, subs, holds, clock, task, miner, request, commitHash);
      hide MinersSound, SubsSound, HoldsSound, TasksSound, WindowsSound, RequestsSound, SubSound;
      var stored := Save(k, CommittedAs(subs, task, miner, request, commitHash));
      r := Ok(stored);
    }

    /** reveal_submission; `duplicate` says that another miner of the same economic unit revealed for the task. */
    method Reveal(task: string, miner: string, request: string, pYes: int, nonce: string, duplicate: bool, now: int)
      returns (r: Result<bool, RewardError>)
      requires Valid({})
      modifies this`subs, this`requests, this`miners
      ensures Valid({})
      ensures
        var k := (task, miner);
        var refused :=
          RevealRefused(old(miners), tasks, old(subs), task, miner,
                        k in old(subs) && Opens(old(subs)[k].commitHash, task, miner, pYes, nonce), now);
        if refused.Some? then r == Err(refused.value) && subs == old(subs) && miners == old(miners)
        else
          var s := old(subs)[k].(revealRequest := request, pYes := Some(Clamped(pYes, minBps, maxBps)),
                                 eligible := !duplicate, state := Revealed);
          && r == Ok(Storable(old(requests), k, s))
          && miners == old(miners)[miner := old(miners)[miner].(revealed := old(miners)[miner].revealed + 1)]
          && subs == if r.value then old(subs)[k := s] else old(subs)
    {
      hide MinersSound, SubsSound, HoldsSound, TasksSound, WindowsSound, RequestsSound, SubSound, Clamped;
      if task !in tasks {
        return Err(TaskNotFound);
      }
      if tasks[task].publishAt > now {
        return Err(NotPublished);
      }
      if tasks[task].revealDeadline < now {
        return Err(WindowClosed);
      }
      if miner !in miners {
        return Err(NotRegistered);
      }
      var k := (task, miner);
      if k !in subs || subs[k].commitHash == "" {
        return Err(CommitRequired);
      }
      if subs[k].pYes.Some? {
        return Err(AlreadyRevealed);
      }
      var p := Clamped(pYes, minBps, maxBps);
      if commitHashOf(task, miner, p, nonce) != subs[k].commitHash {
        return Err(CommitMismatch);
      }
      var s := RevealedAs(subs[k], request, p, duplicate);
      RevealSound(miners, tasks, subs, holds, clock, k, s);
      var stored := Save(k, s);
      var m := miners[miner].(revealed := miners[miner].revealed + 1);
      Recounted(miners, tasks, subs, holds, miner, m);
      miners := miners[miner := m];
      r := Ok(stored);
    }

    /** The nonce and the probability, brought into the permitted range, are what was committed to. */
    predicate Opens(commitHash: string, task: string, miner: string, pYes: int, nonce: string) {
      commitHashOf(task, miner, Clamped(pYes, minBps, maxBps), nonce) == commitHash
    }

    // ---- Settling ----

    ghost function Matures(): set<string>
      reads this`miners, this`clock
    {
      MatureMiners(miners, clock, matureHours, matureReveals)
    }

    predicate IsMature(m: Miner)
      reads this`clock
    {
      Mature(m, clock, matureHours, matureReveals)
    }

    /** Settle one revealed submission of a task that resolved, at the current time. */
    method SettleSubmission(k: Key, reward: nat)
      requires k in subs && k.0 in tasks && Valid({k.0}) && !tasks[k.0].resolved
      requires subs[k].pYes.Some? && subs[k].state != Resolved
      modifies this`subs, this`holds, this`miners
      ensures Valid({k.0}) && k.1 in old(miners)
      ensures
        var mature := IsMature(old(miners)[k.1]);
        var paid := if mature then reward else RoundHalfEven(reward * releaseBps, 10000);
        && subs == old(subs)[k := old(subs)[k].(state := Resolved, reward := reward, released := paid,
                                                held := reward - paid)]
        && holds == (if reward > paid then old(holds)[k := Hold(k.1, reward - paid, 0, true, clock)] else old(holds))
        && miners == old(miners)[k.1 := old(miners)[k.1].(total := old(miners)[k.1].total + paid,
                                                          held := old(miners)[k.1].held + (reward - paid),
                                                          mature := mature)]
      ensures Matures() == old(Matures())
    {
      hide Mature, RoundHalfEven, RequestsSound, MinersSound, SubsSound, HoldsSound, TasksSound, WindowsSound;
      hide MatureMiners;
      SettlingFacts(miners, tasks, subs, holds, windows, clock, k);
      var m := miners[k.1];
      var mature := IsMature(m);
      var paid := ReleasedPart(reward, mature, releaseBps);
      ReleasedWithin(reward, mature, releaseBps);
      var s := subs[k].(state := Resolved, reward := reward, released := paid, held := reward - paid);
      var m' := Credited(m, paid, reward - paid, mature);
      SettledSums(miners, subs, holds, k, s, paid, reward - paid, clock, m');
      OutsideWindows(tasks, subs, windows, k, s);
      SettledRecords(miners, tasks, subs, holds, clock, k, s, m', reward - paid);
      SameRequests(subs, requests, k, s);
      SameMature(miners, k.1, m', clock, matureHours, matureReveals);
      subs := subs[k := s];
      holds := WithHold(holds, k, reward - paid, clock);
      miners := miners[k.1 := m'];
    }

    /** The due task resolved: settle every revealed submission, then the task. */
    method SettleTask(t: string, outcome: int, rewardFor: Key -> nat)
      requires Valid({}) && t in tasks && !tasks[t].resolved
      modifies this`subs, this`holds, this`miners, this`tasks
      ensures Valid({}) && Matures() == old(Matures())
      ensures tasks == old(tasks)[t := old(tasks)[t].(resolved := true, awaiting := false, outcome := Some(outcome))]
      ensures SettledFor(t, old(subs), subs, {}, rewardFor, old(Matures()), releaseBps)
    {
      hide MinersSound, SubsSound, HoldsSound, TasksSound, WindowsSound, RequestsSound, MatureMiners;
      NowBusy(miners, tasks, subs, t);
      hide SettledFor;
      SettleAll(t, rewardFor);
      var task := tasks[t].(resolved := true, awaiting := false, outcome := Some(outcome));
      TaskSettled(miners, tasks, subs, windows, t, task);
      tasks := tasks[t := task];
    }

    method SettleAll(t: string, rewardFor: Key -> nat)
      requires Valid({t}) && t in tasks && !tasks[t].resolved
      requires forall k :: k in subs && k.0 == t ==> subs[k].state != Resolved
      modifies this`subs, this`holds, this`miners
      ensures Valid({t}) && Matures() == old(Matures())
      ensures SettledFor(t, old(subs), subs, {}, rewardFor, old(Matures()), releaseBps)
    {
      hide MinersSound, SubsSound, HoldsSound, TasksSound, WindowsSound, RequestsSound;
      hide RoundHalfEven, SettledFor, Mature;
      ghost var mature := Matures();
      var rest := set k | k in subs && k.0 == t;
      SettledNone(t, subs, rest, rewardFor, mature, releaseBps);
      while rest != {}
        invariant Valid({t}) && Matures() == mature
        invariant SettledFor(t, old(subs), subs, rest, rewardFor, mature, releaseBps)
        invariant forall k :: k in rest ==> k in subs && k.0 == t && subs[k].state != Resolved
        decreases |rest|
      {
        var k :| k in rest;
        ghost var whole := rest;
        rest := rest - {k};
        assert whole == rest + {k};
        ghost var now := subs;
        if subs[k].pYes.Some? {
          var reward := if subs[k].eligible then rewardFor(k) else 0;
          SettleSubmission(k, reward);
        }
        SettledNext(t, old(subs), now, rest, k, rewardFor, mature, releaseBps, subs);
      }
    }

    /** The due task has no outcome yet: its revealed submissions wait. */
    method AwaitTask(t: string)
      requires Valid({}) && t in tasks && !tasks[t].resolved
      modifies this`subs, this`requests, this`tasks
      ensures Valid({})
      ensures tasks == old(tasks)[t := old(tasks)[t].(awaiting := true, outcome := None)]
      ensures Awaiting(old(subs), subs, t, {})
    {
      hide MinersSound, SubsSound, HoldsSound, TasksSound, WindowsSound, RequestsSound, Awaiting;
      NowBusy(miners, tasks, subs, t);
      AwaitAll(t);
      var task := tasks[t].(awaiting := true, outcome := None);
      TaskSettled(miners, tasks, subs, windows, t, task);
      tasks := tasks[t := task];
    }

    method AwaitAll(t: string)
      requires Valid({}) && forall k :: k in subs && k.0 == t ==> subs[k].state != Resolved
      modifies this`subs, this`requests
      ensures Valid({}) && Awaiting(old(subs), subs, t, {})
    {
      hide MinersSound, SubsSound, HoldsSound, TasksSound, WindowsSound, RequestsSound, SubSound, Awaiting;
      AwaitingNone(subs, t);
      var rest := set k | k in subs && k.0 == t;
      while rest != {}
        invariant Valid({}) && Awaiting(old(subs), subs, t, rest)
        invariant forall k :: k in rest ==> k in subs && k.0 == t && subs[k].state != Resolved
        decreases |rest|
      {
        var k :| k in rest;
        ghost var before := subs;
        if subs[k].pYes.Some? {
          WaitingSound(miners, tasks, subs, holds, clock, requests, k);
          var _ := Save(k, subs[k].(state := PendingResolution));
        }
        AwaitingNext(old(subs), before, subs, t, rest, k);
        rest := rest - {k};
      }
    }

    /** _settle_due_tasks, with the outcomes the task provider gave. */
    method SettleDue(outcomes: map<string, int>, rewardFor: Key -> nat)
      requires Valid({})
      modifies this`subs, this`holds, this`miners, this`tasks, this`requests
      ensures Valid({}) && Matures() == old(Matures())
      ensures Settled(old(tasks), old(subs), tasks, subs, clock, outcomes, rewardFor, old(Matures()), releaseBps, {})
    {
      hide MinersSound, SubsSound, HoldsSound, TasksSound, WindowsSound, RequestsSound, SettledFor, Awaiting;
      hide MatureMiners, SubThen, Settled;
      var rest := set t | t in tasks && !tasks[t].resolved && tasks[t].resolveAt <= clock;
      ghost var mature := Matures();
      TasksKnown(miners, tasks, subs);
      SettledStart(tasks, subs, clock, outcomes, rewardFor, mature, releaseBps, rest);
      while rest != {}
        invariant Valid({}) && Matures() == mature && rest <= old(tasks).Keys
        invariant forall t :: t in rest ==> Due(old(tasks)[t], clock)
        invariant Settled(old(tasks), old(subs), tasks, subs, clock, outcomes, rewardFor, mature, releaseBps, rest)
        decreases |rest|
      {
        var t :| t in rest;
        SettledRest(old(tasks), old(subs), tasks, subs, clock, outcomes, rewardFor, mature, releaseBps, rest, t);
        ghost var mid, midSubs := tasks, subs;
        if t in outcomes {
          SettleTask(t, outcomes[t], rewardFor);
        } else {
          AwaitTask(t);
        }
        SettledStep(old(tasks), old(subs), mid, midSubs, tasks, subs, clock, outcomes, rewardFor, mature, releaseBps,
                    rest, t);
        rest := rest - {t};
      }
    }

    // ---- Releasing ----

    /** Close the due holds of one miner, whatever the clock says. */
    method CloseHolds(m: string) returns (due: int)
      requires HoldsShaped(subs, holds)
      modifies this`holds
      ensures holds == ClosedDue(old(holds), m, clock) && due == Sum(old(holds), DueOf(m, clock)) >= 0
    {
      hide HoldShaped, DueOf, Closed, Sum, ClosedDue, ClosedBut;
      due := 0;
      var rest := set k | k in holds && holds[k].open && holds[k].releaseAfter <= clock;
      NoneClosed(holds, m, clock, rest);
      while rest != {}
        invariant rest <= holds.Keys && due >= 0 && ClosedBut(old(holds), holds, m, clock, rest)
        invariant Sum(holds, DueOf(m, clock)) + due == Sum(old(holds), DueOf(m, clock))
        decreases |rest|
      {
        var k :| k in rest;
        ghost var before := holds;
        var remaining := holds[k].amount - holds[k].released;
        StillShaped(subs, old(holds), holds, m, clock, rest, k);
        if holds[k].miner == m && remaining > 0 && holds[k].open {
          due := due + remaining;
          holds := holds[k := Closed(holds[k])];
        }
        ClosedNext(old(holds), before, holds, m, clock, rest, k);
        rest := rest - {k};
      }
      AllClosed(old(holds), holds, m, clock);
    }

    /** _release_matured_holds for one miner, whatever the clock says. */
    method ReleaseMiner(m: string)
      requires HoldsShaped(subs, holds) && m in miners
      modifies this`holds, this`miners
      ensures
        var mature := IsMature(old(miners)[m]);
        && holds == (if mature then ClosedDue(old(holds), m, clock) else old(holds))
        && miners == old(miners)[m := if mature then AfterRelease(old(miners)[m], Sum(old(holds), DueOf(m, clock)))
                                      else old(miners)[m].(mature := false)]
        && miners[m].mature == mature
      ensures old(Valid({})) ==> Valid({})
    {
      hide HoldsSound, HoldsShaped, SubsSound, WindowsSound, TasksSound, RequestsSound, MinersSound, Mature;
      hide ClosedDue, DueOf, OpenOf, Sum;
      ghost var before := miners[m];
      ghost var valid := Valid({});
      if IsMature(miners[m]) {
        var due := CloseHolds(m);
        if valid {
          ReleasedSound(miners, tasks, subs, old(holds), clock, m);
        }
        miners := miners[m := AfterRelease(miners[m], due)];
      } else {
        if valid {
          Recounted(miners, tasks, subs, holds, m, miners[m].(mature := false));
        }
        miners := miners[m := miners[m].(mature := false)];
      }
    }

    /** _release_matured_holds */
    method ReleaseMatured()
      requires Valid({})
      modifies this`holds, this`miners
      ensures Valid({}) && miners.Keys == old(miners).Keys
      ensures forall m :: m in miners ==> miners[m] == AccountThen(old(miners)[m], IsMature(old(miners)[m]))
      ensures Sum(miners, Earned) == Sum(old(miners), Earned)
    {
      hide MinersSound, HoldsSound, SubsSound, WindowsSound, TasksSound, RequestsSound, Mature, Earned, Sum;
      hide AccountThen, AfterRelease, DueOf, HoldsShaped, ClosedDue;
      var rest := miners.Keys;
      while rest != {}
        invariant Valid({}) && miners.Keys == old(miners).Keys && rest <= miners.Keys
        invariant forall m :: m in rest ==> miners[m] == old(miners)[m]
        invariant forall m :: m in miners && m !in rest ==>
                              miners[m] == AccountThen(old(miners)[m], IsMature(old(miners)[m]))
        invariant Sum(miners, Earned) == Sum(old(miners), Earned)
        decreases |rest|
      {
        var m :| m in rest;
        rest := rest - {m};
        HeldIsDue(m, miners, subs, holds, clock);
        PaidOut(miners[m], Sum(holds, DueOf(m, clock)));
        ghost var before := miners;
        ReleaseMiner(m);
        EarnedThen(before[m], IsMature(before[m]));
        SumPut(before, Earned, m, miners[m]);
      }
    }

    // ---- Windows ----

    /** The rewards of the revealed submissions of some tasks. */
    method TotalRewards(ids: set<string>) returns (total: int)
      requires SubsSound(miners, tasks, subs, {})
      ensures total == Sum(subs, RewardIn(ids))
    {
      hide SubSound;
      total := 0;
      var rest := subs;
      while rest != map[]
        invariant forall k :: k in rest ==> k in subs && rest[k] == subs[k]
        invariant total + Sum(rest, RewardIn(ids)) == Sum(subs, RewardIn(ids))
        decreases |rest|
      {
        var k :| k in rest;
        SumTake(rest, RewardIn(ids), k);
        rest := rest - {k};
        UnrevealedEarnsNothing(miners, tasks, subs, k);
        if k.0 in ids && subs[k].pYes.Some? {
          total := total + subs[k].reward;
        }
      }
      SumZero(rest, RewardIn(ids));
    }

    /** The revealed submissions of some tasks learn their window. */
    method MarkWindow(w: string, ids: set<string>)
      requires Valid({})
      modifies this`subs, this`requests
      ensures Valid({}) && MarkedWith(old(subs), subs, ids, w, {})
    {
      hide MinersSound, HoldsSound, WindowsSound, TasksSound, RequestsSound, SubSound, SubsSound;
      var rest := subs.Keys;
      while rest != {}
        invariant Valid({}) && rest <= subs.Keys && MarkedWith(old(subs), subs, ids, w, rest)
        decreases |rest|
      {
        var k :| k in rest;
        rest := rest - {k};
        if k.0 in ids && subs[k].pYes.Some? && subs[k].windowId != Some(w) {
          MovableSound(miners, tasks, subs, holds, clock, requests, k, w);
          var _ := Save(k, subs[k].(windowId := Some(w)));
        }
      }
    }

    /** Build or extend one window with the resolved tasks of its hour. */
    method BuildWindow(w: string, group: set<string>)
      requires Valid({})
      requires forall t :: t in group ==> t in tasks && tasks[t].resolved && tasks[t].windowId.None?
      modifies this`subs, this`requests, this`tasks, this`windows
      ensures Valid({}) && tasks == Windowed(old(tasks), group, w)
      ensures
        var ids := (if w in old(windows) then old(windows)[w].tasks else {}) + group;
        && MarkedWith(old(subs), subs, ids, w, {})
        && windows == old(windows)[w := RewardWindow(ids, Sum(old(subs), RewardIn(ids)))]
      ensures forall t :: w in old(windows) && t in old(windows)[w].tasks ==>
                          t in old(tasks) && old(tasks)[t].windowId == Some(w)
    {
      hide MinersSound, HoldsSound, WindowsSound, TasksSound, RequestsSound, SubsSound, Windowed;
      var ids := (if w in windows then windows[w].tasks else {}) + group;
      WindowTasks(tasks, subs, windows, w);
      var total := TotalRewards(ids);
      ghost var before := subs;
      MarkWindow(w, ids);
      SameTotals(before, subs, ids, w);
      hide MarkedWith;
      WindowBuilt(miners, tasks, subs, windows, w, group, total);
      tasks := Windowed(tasks, group, w);
      windows := windows[w := RewardWindow(ids, total)];
    }

    /** _build_reward_windows: every resolved task gets into the window of its hour. */
    method BuildWindows()
      requires Valid({})
      modifies this`subs, this`requests, this`tasks, this`windows
      ensures Valid({}) && AllWindowed(tasks)
      ensures Filed(old(tasks), old(subs), tasks, subs, windowFor, {})
    {
      hide MinersSound, HoldsSound, WindowsSound, TasksSound, RequestsSound, SubsSound, MarkedWith, Windowed, FiledSub;
      hide Sum, Filed;
      var pending := set t | t in tasks && tasks[t].resolved && tasks[t].windowId.None?;
      TasksKnown(miners, tasks, subs);
      FiledStart(tasks, subs, windowFor, pending);
      while pending != {}
        invariant Valid({}) && pending <= old(tasks).Keys
        invariant forall t :: t in pending ==> old(tasks)[t].resolved && old(tasks)[t].windowId.None?
        invariant Filed(old(tasks), old(subs), tasks, subs, windowFor, pending)
        decreases |pending|
      {
        var first :| first in pending;
        FiledPending(old(tasks), old(subs), tasks, subs, windowFor, pending);
        var w := windowFor(tasks[first].resolveAt);
        var group := set t | t in pending && windowFor(tasks[t].resolveAt) == w;
        ghost var mid, midSubs := tasks, subs;
        ghost var ids := (if w in windows then windows[w].tasks else {}) + group;
        BuildWindow(w, group);
        FiledStep(old(tasks), old(subs), mid, midSubs, subs, windowFor, pending, group, ids, w);
        assert first in group;
        Fewer(pending, group);
        pending := pending - group;
      }
      FiledAll(old(tasks), old(subs), tasks, subs, windowFor);
    }

    /** reconcile, with the outcomes known now and the rewards the scores come to: afterwards the
        windows' totals are exactly what miners were paid and are held. */
    method Reconcile(now: int, outcomes: map<string, int>, rewardFor: Key -> nat)
      requires Valid({}) && clock <= now
      modifies this
      ensures Valid({}) && clock == now
      ensures AllWindowed(tasks) && Sum(windows, WindowTotal) == Sum(miners, Earned) == Sum(subs, Reward)
      ensures
        var mature := MatureMiners(old(miners), now, matureHours, matureReveals);
        && Reconciled(old(tasks), old(subs), tasks, subs, now, outcomes, rewardFor, mature, releaseBps, windowFor)
        && forall m :: m in mature && m in miners ==> miners[m].held == 0
    {
      hide MinersSound, HoldsSound, WindowsSound, TasksSound, RequestsSound, SubsSound, Settled, Filed, Reconciled;
      hide Sum, Mature;
      LaterHolds(subs, holds, clock, now);
      clock := now;
      SettleDue(outcomes, rewardFor);
      ghost var mid, midSubs, settled := tasks, subs, miners;
      ReleaseMatured();
      BuildWindows();
      WindowsPayMiners(miners, tasks, subs, holds, windows);
      SettledThenFiled(old(tasks), old(subs), mid, midSubs, tasks, subs, now, outcomes, rewardFor,
                       MatureMiners(old(miners), now, matureHours, matureReveals), releaseBps, windowFor);
    }
  }

  lemma TasksKnown(miners: Miners, tasks: Tasks, subs: Submissions)
    requires SubsSound(miners, tasks, subs, {})
    ensures forall k :: k in subs ==> k.0 in tasks
  {
    forall k | k in subs ensures k.0 in tasks {
      assert SubSound(k, subs[k], miners, tasks, {});
    }
  }

  lemma SettledRest(tasks: Tasks, subs: Submissions, tasks': Tasks, subs': Submissions, now: int,
                    outcomes: map<string, int>, rewardFor: Key -> nat, mature: set<string>, releaseBps: nat,
                    rest: set<string>, t: string)
    requires Settled(tasks, subs, tasks', subs', now, outcomes, rewardFor, mature, releaseBps, rest)
    requires t in rest && t in tasks
    ensures t in tasks' && tasks'[t] == tasks[t]
  {
  }

  lemma FiledPending(tasks: Tasks, subs: Submissions, tasks': Tasks, subs': Submissions, windowFor: int -> string,
                     pending: set<string>)
    requires Filed(tasks, subs, tasks', subs', windowFor, pending) && pending <= tasks.Keys
    ensures tasks'.Keys == tasks.Keys && forall t :: t in pending ==> tasks'[t] == tasks[t]
  {
  }

  lemma FiledAll(tasks: Tasks, subs: Submissions, tasks': Tasks, subs': Submissions, windowFor: int -> string)
    requires Filed(tasks, subs, tasks', subs', windowFor, {})
    ensures AllWindowed(tasks')
  {
  }

  lemma WindowTasks(tasks: Tasks, subs: Submissions, windows: RewardWindows, w: string)
    requires WindowsSound(tasks, subs, windows)
    ensures forall t :: w in windows && t in windows[w].tasks ==> t in tasks && tasks[t].windowId == Some(w)
  {
    if w in windows {
      assert WindowSound(w, windows[w], tasks, subs);
    }
  }

  lemma SameTotals(before: Submissions, after: Submissions, ids: set<string>, w: string)
    requires MarkedWith(before, after, ids, w, {})
    ensures Sum(after, RewardIn(ids)) == Sum(before, RewardIn(ids))
  {
    SumSame(before, after, RewardIn(ids));
  }

  lemma UnrevealedEarnsNothing(miners: Miners, tasks: Tasks, subs: Submissions, k: Key)
    requires SubsSound(miners, tasks, subs, {}) && k in subs
    ensures subs[k].task == k.0 && (subs[k].pYes.None? ==> subs[k].reward == 0)
  {
    assert SubSound(k, subs[k], miners, tasks, {});
  }

  lemma Fewer<T>(a: set<T>, b: set<T>)
    requires b <= a && b != {}
    ensures |a - b| < |a|
  {
    assert a == (a - b) + b;
    var x :| x in b;
    assert |b| >= 1;
    assert |a| == |a - b| + |b|;
  }

  lemma LaterHolds(subs: Submissions, holds: Holds, clock: int, now: int)
    requires HoldsSound(subs, holds, clock) && clock <= now
    ensures HoldsSound(subs, holds, now)
  {
    forall k | k in holds ensures HoldSound(k, holds[k], subs, now) {
      assert HoldSound(k, holds[k], subs, clock);
    }
  }

  lemma MovableSound(miners: Miners, tasks: Tasks, subs: Submissions, holds: Holds, clock: int, requests: Requests,
                     k: Key, w: string)
    requires SubsSound(miners, tasks, subs, {}) && HoldsSound(subs, holds, clock) && RequestsSound(subs, requests)
    requires k in subs
    ensures SubSound(k, subs[k].(windowId := Some(w)), miners, tasks, {}) && subs[k].task == k.0
    ensures k in holds ==> subs[k].state == Resolved
    ensures !Taken(requests, k, subs[k].commitRequest) && !Taken(requests, k, subs[k].revealRequest)
  {
    assert SubSound(k, subs[k], miners, tasks, {});
    HeldResolved(subs, holds, clock, k);
  }

  lemma WindowBuilt(miners: Miners, tasks: Tasks, subs: Submissions, windows: RewardWindows, w: string,
                    group: set<string>, total: int)
    requires SubsSound(miners, tasks, subs, {}) && TasksSound(tasks, windows) && WindowsSound(tasks, subs, windows)
    requires forall t :: t in group ==> t in tasks && tasks[t].resolved && tasks[t].windowId.None?
    requires total == Sum(subs, RewardIn((if w in windows then windows[w].tasks else {}) + group))
    ensures
      var ids := (if w in windows then windows[w].tasks else {}) + group;
      var tasks', windows' := Windowed(tasks, group, w), windows[w := RewardWindow(ids, total)];
      SubsSound(miners, tasks', subs, {}) && TasksSound(tasks', windows') && WindowsSound(tasks', subs, windows')
  {
    var ids := (if w in windows then windows[w].tasks else {}) + group;
    var tasks', windows' := Windowed(tasks, group, w), windows[w := RewardWindow(ids, total)];
    forall k | k in subs ensures SubSound(k, subs[k], miners, tasks', {}) {
      assert SubSound(k, subs[k], miners, tasks, {});
    }
    forall t | t in tasks' ensures TaskSound(t, tasks'[t], windows') {
      assert TaskSound(t, tasks[t], windows);
    }
    forall x | x in windows' ensures WindowSound(x, windows'[x], tasks', subs) {
      if x in windows {
        assert WindowSound(x, windows[x], tasks, subs);
      }
    }
  }

  /** A mature miner's account once `due` of its held rewards came due. */
  function AfterRelease(m: Miner, due: int): Miner {
    if due > 0 then m.(total := m.total + due, held := if m.held > due then m.held - due else 0, mature := true)
    else if m.held > 0 then m.(total := m.total + m.held, held := 0, mature := true)
    else m.(mature := true)
  }

  /** Releasing neither makes nor loses rewards. An account that equals its open holds still does afterwards
      exactly if some hold of the miner is due or none is open. */
  lemma ReleaseExact(m: string, account: Miner, subs: Submissions, holds: Holds, clock: int)
    requires HoldsShaped(subs, holds) && account.held == Sum(holds, OpenOf(m))
    ensures
      var after := AfterRelease(account, Sum(holds, DueOf(m, clock)));
      && after.total + after.held == account.total + account.held
      && (after.held == Sum(ClosedDue(holds, m, clock), OpenOf(m))
          <==> (exists k :: k in holds && IsDue(holds[k], m, clock))
               || (forall k :: k in holds && holds[k].miner == m ==> !holds[k].open))
  {
    hide HoldShaped, Sum, ClosedDue;
    ClosedSums(subs, holds, m, clock, m);
    DueWithin(subs, holds, m, clock);
    OpenAmount(subs, holds, m);
  }

  /** What is due is part of what is open, and is nothing only if no hold is due. */
  lemma DueWithin(subs: Submissions, holds: Holds, m: string, clock: int)
    requires HoldsShaped(subs, holds)
    ensures 0 <= Sum(holds, DueOf(m, clock)) <= Sum(holds, OpenOf(m))
    ensures Sum(holds, DueOf(m, clock)) > 0 <==> exists k :: k in holds && IsDue(holds[k], m, clock)
  {
    hide Sum;
    ClosedSums(subs, holds, m, clock, m);
    forall k | k in holds
      ensures DueOf(m, clock)(holds[k]) >= 0 && (IsDue(holds[k], m, clock) ==> DueOf(m, clock)(holds[k]) > 0)
      ensures OpenOf(m)(ClosedDue(holds, m, clock)[k]) >= 0
    {
      assert HoldShaped(k, holds[k], subs);
    }
    SumAtLeast(holds, DueOf(m, clock));
    SumAtLeast(ClosedDue(holds, m, clock), OpenOf(m));
    if forall k :: k in holds ==> !IsDue(holds[k], m, clock) {
      SumZero(holds, DueOf(m, clock));
    }
  }

  lemma OpenAmount(subs: Submissions, holds: Holds, m: string)
    requires HoldsShaped(subs, holds)
    ensures Sum(holds, OpenOf(m)) >= 0
    ensures Sum(holds, OpenOf(m)) == 0 <==> forall k :: k in holds && holds[k].miner == m ==> !holds[k].open
  {
    hide Sum;
    forall k | k in holds
      ensures OpenOf(m)(holds[k]) >= 0 && (holds[k].miner == m && holds[k].open ==> OpenOf(m)(holds[k]) > 0)
    {
      assert HoldShaped(k, holds[k], subs);
    }
    SumAtLeast(holds, OpenOf(m));
    if forall k :: k in holds && holds[k].miner == m ==> !holds[k].open {
      SumZero(holds, OpenOf(m));
    }
  }

  /** Closing the due holds takes exactly the due amounts off the miner's open ones. */
  lemma ClosedSums(subs: Submissions, holds: Holds, m: string, clock: int, x: string)
    requires HoldsShaped(subs, holds)
    ensures Sum(ClosedDue(holds, m, clock), OpenOf(x))
              == Sum(holds, OpenOf(x)) - if x == m then Sum(holds, DueOf(m, clock)) else 0
  {
    hide Sum;
    var closed := ClosedDue(holds, m, clock);
    assert closed.Keys == holds.Keys;
    if x == m {
      SumApart(holds, closed, OpenOf(m), DueOf(m, clock));
    } else {
      SumSame(closed, holds, OpenOf(x));
    }
  }

  /** The due holds of the miner are closed, except the rest. */
  ghost predicate ClosedBut(before: Holds, now: Holds, m: string, clock: int, rest: set<Key>) {
    && now.Keys == before.Keys
    && (forall k :: k in rest ==> k in before && before[k].open && before[k].releaseAfter <= clock)
    && (forall k :: k in before && before[k].open && before[k].releaseAfter <= clock && k !in rest ==>
          now[k] == if before[k].miner == m then Closed(before[k]) else before[k])
    && (forall k :: k in before && (k in rest || !before[k].open || before[k].releaseAfter > clock) ==>
          now[k] == before[k])
  }

  lemma NoneClosed(holds: Holds, m: string, clock: int, rest: set<Key>)
    requires rest == set k | k in holds && holds[k].open && holds[k].releaseAfter <= clock
    ensures ClosedBut(holds, holds, m, clock, rest)
  {
  }

  lemma StillShaped(subs: Submissions, before: Holds, now: Holds, m: string, clock: int, rest: set<Key>, k: Key)
    requires HoldsShaped(subs, before) && ClosedBut(before, now, m, clock, rest) && k in rest
    ensures k in before && k in now && now[k] == before[k] && now[k].open && now[k].amount - now[k].released > 0
  {
    assert HoldShaped(k, before[k], subs);
  }

  lemma ClosedNext(before: Holds, mid: Holds, now: Holds, m: string, clock: int, rest: set<Key>, k: Key)
    requires ClosedBut(before, mid, m, clock, rest) && k in rest && k in mid && mid[k] == before[k]
    requires now == if mid[k].miner == m then mid[k := Closed(mid[k])] else mid
    ensures ClosedBut(before, now, m, clock, rest - {k})
    ensures Sum(now, DueOf(m, clock))
              == Sum(mid, DueOf(m, clock)) - if mid[k].miner == m then mid[k].amount - mid[k].released else 0
  {
    hide Sum;
    if mid[k].miner == m {
      SumPut(mid, DueOf(m, clock), k, Closed(mid[k]));
    }
  }

  lemma AllClosed(before: Holds, now: Holds, m: string, clock: int)
    requires ClosedBut(before, now, m, clock, {})
    ensures now == ClosedDue(before, m, clock) && Sum(now, DueOf(m, clock)) == 0
  {
    SumZero(now, DueOf(m, clock));
  }

  lemma EarnedThen(m: Miner, mature: bool)
    ensures Earned(AccountThen(m, mature)) == Earned(m)
  {
  }

  lemma HeldIsDue(m: string, miners: Miners, subs: Submissions, holds: Holds, clock: int)
    requires MinersSound(miners, subs, holds) && HoldsSound(subs, holds, clock) && m in miners
    ensures miners[m].held == Sum(holds, DueOf(m, clock)) >= 0 && HoldsShaped(subs, holds)
  {
    hide DueOf, OpenOf, Sum;
    assert MinerSound(m, miners[m], subs, holds);
    AllDue(subs, holds, clock, m);
    DueWithin(subs, holds, m, clock);
  }

  /** While the clock does not run backwards all that is held is due. */
  lemma AllDue(subs: Submissions, holds: Holds, clock: int, m: string)
    requires HoldsSound(subs, holds, clock)
    ensures Sum(holds, DueOf(m, clock)) == Sum(holds, OpenOf(m)) && HoldsShaped(subs, holds)
  {
    forall k | k in holds ensures DueOf(m, clock)(holds[k]) == OpenOf(m)(holds[k]) && HoldShaped(k, holds[k], subs) {
      assert HoldSound(k, holds[k], subs, clock);
    }
    SumAgrees(holds, DueOf(m, clock), OpenOf(m));
  }

  lemma ClosedSound(subs: Submissions, holds: Holds, clock: int, m: string)
    requires HoldsSound(subs, holds, clock)
    ensures HoldsSound(subs, ClosedDue(holds, m, clock), clock)
  {
    var closed := ClosedDue(holds, m, clock);
    forall k | k in closed ensures HoldSound(k, closed[k], subs, clock) {
      assert HoldSound(k, holds[k], subs, clock);
    }
  }

  lemma ClosedShaped(subs: Submissions, holds: Holds, clock: int, m: string)
    requires HoldsShaped(subs, holds)
    ensures HoldsShaped(subs, ClosedDue(holds, m, clock))
  {
    var closed := ClosedDue(holds, m, clock);
    forall k | k in closed ensures HoldShaped(k, closed[k], subs) {
      assert HoldShaped(k, holds[k], subs);
    }
  }

  lemma ReleasedSound(miners: Miners, tasks: Tasks, subs: Submissions, holds: Holds, clock: int, m: string)
    requires MinersSound(miners, subs, holds) && HoldsSound(subs, holds, clock) && m in miners
    ensures HoldsSound(subs, ClosedDue(holds, m, clock), clock)
    ensures
      var account := AfterRelease(miners[m], Sum(holds, DueOf(m, clock)));
      && MinersSound(miners[m := account], subs, ClosedDue(holds, m, clock))
      && (SubsSound(miners, tasks, subs, {}) ==> SubsSound(miners[m := account], tasks, subs, {}))
  {
    hide OpenOf, DueOf, ClosedDue, Sum, HoldShaped, AfterRelease, SubSound;
    AllDue(subs, holds, clock, m);
    ClosedSound(subs, holds, clock, m);
    assert MinerSound(m, miners[m], subs, holds);
    DueWithin(subs, holds, m, clock);
    var account := AfterRelease(miners[m], Sum(holds, DueOf(m, clock)));
    PaidOut(miners[m], Sum(holds, DueOf(m, clock)));
    forall x | x in miners
      ensures MinerSound(x, miners[m := account][x], subs, ClosedDue(holds, m, clock))
    {
      assert MinerSound(x, miners[x], subs, holds);
      ClosedSums(subs, holds, m, clock, x);
    }
    NewAccount(miners, tasks, subs, m, account);
  }

  lemma PaidOut(m: Miner, due: int)
    requires due == m.held >= 0
    ensures AfterRelease(m, due) == AccountThen(m, true) && m.(mature := false) == AccountThen(m, false)
    ensures AccountThen(m, true).held == 0 && AccountThen(m, true).total == m.total + m.held
  {
  }

  lemma NewAccount(miners: Miners, tasks: Tasks, subs: Submissions, m: string, account: Miner)
    requires m in miners
    ensures SubsSound(miners, tasks, subs, {}) ==> SubsSound(miners[m := account], tasks, subs, {})
  {
  }

  lemma NowBusy(miners: Miners, tasks: Tasks, subs: Submissions, t: string)
    requires SubsSound(miners, tasks, subs, {}) && t in tasks && !tasks[t].resolved
    ensures SubsSound(miners, tasks, subs, {t})
    ensures forall k :: k in subs && k.0 == t ==> subs[k].state != Resolved
  {
    forall k | k in subs ensures SubSound(k, subs[k], miners, tasks, {t}) && (k.0 == t ==> subs[k].state != Resolved) {
      assert SubSound(k, subs[k], miners, tasks, {});
    }
  }

  lemma TaskSettled(miners: Miners, tasks: Tasks, subs: Submissions, windows: RewardWindows, t: string, task: Task)
    requires t in tasks && !tasks[t].resolved && task.windowId == tasks[t].windowId
    ensures TasksSound(tasks, windows) ==> TasksSound(tasks[t := task], windows)
    ensures WindowsSound(tasks, subs, windows) ==> WindowsSound(tasks[t := task], subs, windows)
    ensures SubsSound(miners, tasks, subs, {t}) && task.resolved ==> SubsSound(miners, tasks[t := task], subs, {})
    ensures SubsSound(miners, tasks, subs, {}) ==> SubsSound(miners, tasks[t := task], subs, {})
  {
    if TasksSound(tasks, windows) {
      forall x | x in tasks ensures TaskSound(x, tasks[t := task][x], windows) {
        assert TaskSound(x, tasks[x], windows);
      }
    }
    if WindowsSound(tasks, subs, windows) {
      forall w | w in windows ensures WindowSound(w, windows[w], tasks[t := task], subs) {
        assert WindowSound(w, windows[w], tasks, subs);
      }
    }
  }

  lemma WaitingSound(miners: Miners, tasks: Tasks, subs: Submissions, holds: Holds, clock: int,
                     requests: Requests, k: Key)
    requires SubsSound(miners, tasks, subs, {}) && HoldsSound(subs, holds, clock) && RequestsSound(subs, requests)
    requires k in subs && subs[k].state != Resolved
    ensures SubSound(k, subs[k].(state := PendingResolution), miners, tasks, {}) && k !in holds
    ensures !Taken(requests, k, subs[k].commitRequest) && !Taken(requests, k, subs[k].revealRequest)
  {
    assert SubSound(k, subs[k], miners, tasks, {});
    HeldResolved(subs, holds, clock, k);
  }

  lemma SettlingFacts(miners: Miners, tasks: Tasks, subs: Submissions, holds: Holds, windows: RewardWindows,
                      clock: int, k: Key)
    requires k in subs && k.0 in tasks && SubsSound(miners, tasks, subs, {k.0}) && HoldsSound(subs, holds, clock)
    requires TasksSound(tasks, windows) && !tasks[k.0].resolved && subs[k].state != Resolved
    ensures subs[k].task == k.0 && subs[k].miner == k.1 && k.1 in miners && subs[k].reward == 0
    ensures k !in holds && tasks[k.0].windowId.None?
  {
    assert SubSound(k, subs[k], miners, tasks, {k.0}) && TaskSound(k.0, tasks[k.0], windows);
    HeldResolved(subs, holds, clock, k);
  }

  function Credited(m: Miner, paid: int, kept: int, mature: bool): Miner {
    m.(total := m.total + paid, held := m.held + kept, mature := mature)
  }

  lemma SettledRecords(miners: Miners, tasks: Tasks, subs: Submissions, holds: Holds, clock: int, k: Key,
                       s: Submission, m: Miner, kept: int)
    requires SubsSound(miners, tasks, subs, {k.0}) && HoldsSound(subs, holds, clock) && k in subs && k.1 in miners
    requires s == subs[k].(state := Resolved, reward := s.reward, released := s.released, held := s.held)
    requires s.reward >= 0 && s.pYes.Some?
    ensures SubsSound(miners[k.1 := m], tasks, subs[k := s], {k.0})
    ensures HoldsSound(subs[k := s], WithHold(holds, k, kept, clock), clock)
  {
    assert SubSound(k, subs[k], miners, tasks, {k.0});
    forall j | j in holds ensures HoldSound(j, holds[j], subs[k := s], clock) {
      assert HoldSound(j, holds[j], subs, clock);
    }
  }

  lemma SameRequests(subs: Submissions, requests: Requests, k: Key, s: Submission)
    requires RequestsSound(subs, requests) && k in subs
    requires s.commitRequest == subs[k].commitRequest && s.revealRequest == subs[k].revealRequest
    ensures RequestsSound(subs[k := s], requests)
    ensures !Taken(requests, k, s.commitRequest) && !Taken(requests, k, s.revealRequest)
  {
  }

  /** Why a reveal is refused. */
  function RevealRefused(miners: Miners, tasks: Tasks, subs: Submissions, task: string, miner: string, matches: bool,
                         now: int):
    Option<RewardError>
  {
    var k := (task, miner);
    if task !in tasks then Some(TaskNotFound)
    else if tasks[task].publishAt > now then Some(NotPublished)
    else if tasks[task].revealDeadline < now then Some(WindowClosed)
    else if miner !in miners then Some(NotRegistered)
    else if k !in subs || subs[k].commitHash == "" then Some(CommitRequired)
    else if subs[k].pYes.Some? then Some(AlreadyRevealed)
    else if !matches then Some(CommitMismatch)
    else None
  }

  function RevealedAs(s: Submission, request: string, pYes: int, duplicate: bool): Submission {
    s.(revealRequest := request, pYes := Some(pYes), eligible := !duplicate, state := Revealed)
  }

  /** A new commitment, on top of what an uncommitted submission already holds. */
  function CommittedAs(subs: Submissions, task: string, miner: string, request: string,
                       commitHash: string): Submission {
    if (task, miner) in subs then subs[(task, miner)].(commitHash := commitHash, commitRequest := request)
    else Submission(task, miner, commitHash, request, "", None, true, Committed, 0, 0, 0, None)
  }

  lemma CommitSound(miners: Miners, tasks: Tasks, subs: Submissions, holds: Holds, clock: int, task: string,
                    miner: string, request: string, commitHash: string)
    requires SubsSound(miners, tasks, subs, {}) && HoldsSound(subs, holds, clock) && task in tasks && miner in miners
    ensures
      var k := (task, miner);
      var s := CommittedAs(subs, task, miner, request, commitHash);
      && SubSound(k, s, miners, tasks, {}) && (if k in subs then subs[k].reward == s.reward else s.reward == 0)
      && (k in holds ==> s.state == Resolved)
  {
    var k := (task, miner);
    if k in subs {
      assert SubSound(k, subs[k], miners, tasks, {});
    }
    if k in holds {
      assert HoldSound(k, holds[k], subs, clock);
    }
  }

  lemma HeldResolved(subs: Submissions, holds: Holds, clock: int, k: Key)
    requires HoldsSound(subs, holds, clock)
    ensures k in holds ==> k in subs && subs[k].state == Resolved
  {
    if k in holds {
      assert HoldSound(k, holds[k], subs, clock);
    }
  }

  lemma RevealSound(miners: Miners, tasks: Tasks, subs: Submissions, holds: Holds, clock: int, k: Key, s: Submission)
    requires SubsSound(miners, tasks, subs, {}) && HoldsSound(subs, holds, clock) && k in subs && subs[k].pYes.None?
    requires s == subs[k].(revealRequest := s.revealRequest, pYes := s.pYes, eligible := s.eligible, state := Revealed)
    ensures SubSound(k, s, miners, tasks, {}) && s.reward == subs[k].reward && k !in holds
  {
    assert SubSound(k, subs[k], miners, tasks, {});
    HeldResolved(subs, holds, clock, k);
  }

  /** Counters other than the two amounts may change freely. */
  lemma Recounted(miners: Miners, tasks: Tasks, subs: Submissions, holds: Holds, name: string, m: Miner)
    requires name in miners && m.total == miners[name].total && m.held == miners[name].held
    ensures MinersSound(miners, subs, holds) ==> MinersSound(miners[name := m], subs, holds)
    ensures forall busy :: SubsSound(miners, tasks, subs, busy) ==> SubsSound(miners[name := m], tasks, subs, busy)
  {
    if MinersSound(miners, subs, holds) {
      var after := miners[name := m];
      forall x | x in miners ensures MinerSound(x, after[x], subs, holds) {
        assert MinerSound(x, miners[x], subs, holds);
      }
    }
  }

  /** clamp_bps */
  function Clamped(pYes: int, least: int, most: int): (p: int)
    ensures least <= pYes <= most ==> p == pYes
    ensures least <= most && pYes < least ==> p == least
    ensures least <= most < pYes ==> p == most
  {
    var capped := if pYes < most then pYes else most;
    if capped > least then capped else least
  }

  predicate Taken(requests: Requests, k: Key, id: string) {
    id != "" && id in requests && requests[id] != k
  }

  /** No request id of the submission was used for another. */
  predicate Storable(requests: Requests, k: Key, s: Submission) {
    !Taken(requests, k, s.commitRequest) && !Taken(requests, k, s.revealRequest)
  }

  function Noted(requests: Requests, k: Key, id: string): Requests {
    if id != "" then requests[id := k] else requests
  }

  lemma RequestsKept(subs: Submissions, requests: Requests, k: Key, s: Submission)
    requires RequestsSound(subs, requests)
    requires !Taken(requests, k, s.commitRequest) && !Taken(requests, k, s.revealRequest)
    ensures RequestsSound(subs[k := s], Noted(Noted(requests, k, s.commitRequest), k, s.revealRequest))
  {
  }

  lemma SavedSound(miners: Miners, tasks: Tasks, subs: Submissions, holds: Holds, clock: int, k: Key, s: Submission)
    requires SubsSound(miners, tasks, subs, {}) && HoldsSound(subs, holds, clock) && SubSound(k, s, miners, tasks, {})
    requires k in holds ==> s.state == Resolved
    ensures SubsSound(miners, tasks, subs[k := s], {}) && HoldsSound(subs[k := s], holds, clock)
  {
    forall j | j in holds ensures HoldSound(j, holds[j], subs[k := s], clock) {
      assert HoldSound(j, holds[j], subs, clock);
    }
  }

  lemma NothingYet(miners: Miners, tasks: Tasks, subs: Submissions, holds: Holds, clock: int, address: string, m: Miner)
    requires MinersSound(miners, subs, holds) && SubsSound(miners, tasks, subs, {}) && HoldsSound(subs, holds, clock)
    requires address !in miners
    requires m.total == m.held == 0
    ensures MinersSound(miners[address := m], subs, holds) && SubsSound(miners[address := m], tasks, subs, {})
  {
    forall k | k in subs ensures subs[k].miner != address {
      assert SubSound(k, subs[k], miners, tasks, {});
    }
    forall k | k in holds ensures holds[k].miner != address {
      assert HoldSound(k, holds[k], subs, clock) && SubSound(k, subs[k], miners, tasks, {});
    }
    SumZero(subs, RewardTo(address));
    SumZero(holds, OpenOf(address));
  }

  lemma NewTask(tasks: Tasks, subs: Submissions, windows: RewardWindows, id: string, task: Task)
    requires id !in tasks && !task.resolved && task.windowId.None?
    ensures TasksSound(tasks, windows) ==> TasksSound(tasks[id := task], windows)
    ensures WindowsSound(tasks, subs, windows) ==> WindowsSound(tasks[id := task], subs, windows)
    ensures forall miners :: SubsSound(miners, tasks, subs, {}) ==> SubsSound(miners, tasks[id := task], subs, {})
  {
    if WindowsSound(tasks, subs, windows) {
      forall w | w in windows ensures WindowSound(w, windows[w], tasks[id := task], subs) {
        assert WindowSound(w, windows[w], tasks, subs);
      }
    }
  }
}
