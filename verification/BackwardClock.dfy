/** A run of the reward service in which the clock is set back: a hold is paid out and stays open. */
module BackwardClock {
  import opened Options
  import opened MapSums
  import opened Rewards
  import opened RewardOutcomes
  import opened RewardService

  const NAME := "claw1a"
  const TASK := Task(0, 200, 200, 100, false, false, None, None)

  const ANY_HASH: (string, string, int, string) -> string := (task, miner, p, nonce) => "h"

  /** Commit to and reveal a prediction for a published task. */
  method Predict(book: RewardBook, task: string)
    requires book.Valid({}) && task in book.tasks && book.tasks[task] == TASK && NAME in book.miners
    requires (task, NAME) !in book.subs && book.commitHashOf(task, NAME, 5000, "n") == "h"
    requires book.minBps <= 5000 <= book.maxBps
    modifies book`subs, book`requests, book`miners
    ensures book.Valid({}) && (task, NAME) in book.subs
    ensures book.subs[(task, NAME)].pYes.Some? && book.subs[(task, NAME)].state == Revealed
    ensures book.subs.Keys == old(book.subs).Keys + {(task, NAME)}
    ensures var m := old(book.miners)[NAME];
            book.miners == old(book.miners)[NAME := m.(revealed := m.revealed + 1)]
  {
    hide MinersSound, SubsSound, HoldsSound, TasksSound, WindowsSound, RequestsSound;
    var _ := book.Commit(task, NAME, "", "h", 50);
    var _ := book.Reveal(task, NAME, "", 5000, "n", false, 50);
  }

  const KEY := ("t1", NAME)

  /** The one hold, made at time 100. */
  function OneHold(): Holds {
    WithHold(map[], KEY, 10, 100)
  }

  lemma OneHoldSums()
    ensures Sum(OneHold(), OpenOf(NAME)) == 10
    ensures Sum(OneHold(), DueOf(NAME, 50)) == 0 && ClosedDue(OneHold(), NAME, 50) == OneHold()
    ensures Sum(OneHold(), DueOf(NAME, 200)) == 10
  {
    SumTake(OneHold(), OpenOf(NAME), KEY);
    SumTake(OneHold(), DueOf(NAME, 200), KEY);
    assert OneHold() - {KEY} == map[];
    SumZero(OneHold(), DueOf(NAME, 50));
  }

  /** A book with a miner and two published tasks. */
  method Started() returns (book: RewardBook)
    ensures fresh(book) && book.Valid({}) && book.subs == map[] && book.holds == map[]
    ensures book.miners == map[NAME := Miner(0, 0, 100, 0, false)]
    ensures book.tasks == map["t1" := TASK, "t2" := TASK]
    ensures book.releaseBps == 0 && book.matureHours == 1 && book.matureReveals == 2 && book.clock == 100
    ensures book.commitHashOf == ANY_HASH && book.minBps == 1500 && book.maxBps == 8500
  {
    hide MinersSound, SubsSound, HoldsSound, TasksSound, WindowsSound, RequestsSound;
    book := new RewardBook(0, 1, 2, (at: int) => "rw", ANY_HASH, 1500, 8500, 100);
    var _ := book.Register(NAME, 100);
    book.Publish("t1", TASK);
    book.Publish("t2", TASK);
  }

  /** Settle the one submission of the first task, as a reconcile would. */
  method SettleFirst(book: RewardBook)
    requires book.Valid({}) && KEY in book.subs && "t1" in book.tasks && book.tasks["t1"] == TASK
    requires book.subs[KEY].pYes.Some? && book.subs[KEY].state == Revealed
    requires NAME in book.miners && book.miners[NAME] == Miner(0, 0, 100, 1, false) && book.holds == map[]
    requires book.releaseBps == 0 && book.matureHours == 1 && book.matureReveals == 2 && book.clock == 100
    modifies book`subs, book`holds, book`miners, book`tasks
    ensures book.Valid({}) && book.subs.Keys == old(book.subs).Keys && book.holds == OneHold()
    ensures book.tasks == old(book.tasks)["t1" := TASK.(resolved := true)]
    ensures book.miners == old(book.miners)[NAME := Miner(0, 10, 100, 1, false)]
  {
    hide MinersSound, SubsSound, HoldsSound, TasksSound, WindowsSound, RequestsSound;
    NowBusy(book.miners, book.tasks, book.subs, "t1");
    book.SettleSubmission(KEY, 10);
    TaskSettled(book.miners, book.tasks, book.subs, book.windows, "t1", TASK.(resolved := true));
    book.tasks := book.tasks["t1" := TASK.(resolved := true)];
  }

  /** The first reward is held back, and then the miner matures by a second prediction. */
  method Holding() returns (book: RewardBook)
    ensures fresh(book) && HoldsShaped(book.subs, book.holds) && book.holds == OneHold()
    ensures book.subs.Keys == {KEY, ("t2", NAME)} && book.miners == map[NAME := Miner(0, 10, 100, 2, false)]
    ensures book.matureHours == 1 && book.matureReveals == 2 && book.clock == 100
  {
    hide MinersSound, SubsSound, HoldsSound, TasksSound, WindowsSound, RequestsSound, HoldShaped, OneHold, HoldsShaped;
    book := Started();
    Predict(book, "t1");
    SettleFirst(book);
    Predict(book, "t2");
    AllDue(book.subs, book.holds, book.clock, NAME);
  }

  /** A mature miner is paid its held reward at a time before its hold is due; the hold stays open, and is
      paid once more when it is due: 20 are paid of a reward of 10. */
  method PaidTwice() returns (book: RewardBook, ghost parted: (Miner, Holds))
    ensures fresh(book) && HoldsShaped(book.subs, book.holds) && book.subs.Keys == {KEY, ("t2", NAME)}
    ensures parted.0.total == 10 && parted.0.held == 0 && Sum(parted.1, OpenOf(NAME)) == 10
    ensures NAME in book.miners && book.miners[NAME].total == 20 && book.miners[NAME].held == 0
  {
    hide HoldsShaped, ClosedDue, OneHold, DueOf, OpenOf, Sum;
    book := Holding();
    OneHoldSums();
    book.clock := 50;
    book.ReleaseMiner(NAME);
    parted := (book.miners[NAME], book.holds);
    book.clock := 200;
    ClosedShaped(book.subs, book.holds, 200, NAME);
    book.ReleaseMiner(NAME);
  }
}
