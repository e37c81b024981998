/** The emission budget of poker reward windows (forecast_engine._prepare_poker_mtt_budget_ledger and the
    ledgers it keeps), with enforcement on and fixed settings. */
module Budget {
  import opened Options
  import opened MapSums

  datatype LedgerState = Reserved | Forfeited | Paid | LedgerCancelled | Rejected

  datatype Ledger = Ledger(windowId: string, batchId: Option<string>, requested: int, approved: int, paid: int,
                           forfeited: int, rolled: int, state: LedgerState)

  datatype BudgetError = SourceRequired | EpochRequired | BudgetNotPositive | OverBudget

  /** What a build reserves: `usedBefore` and `remainingAfter` are None when nothing was rebuilt. */
  datatype Disposition = Untouched | Reservation(approved: int, forfeited: int, usedBefore: int, remainingAfter: int)

  function Counted(l: Ledger): int {
    if l.state == LedgerCancelled || l.state == Rejected then 0 else l.approved
  }

  function LedgerId(source: string, epoch: string, windowId: string): string {
    "poker_mtt_budget:" + source + ":" + epoch + ":" + windowId
  }

  lemma LedgerIdInjective(source: string, epoch: string, v: string, w: string)
    requires LedgerId(source, epoch, v) == LedgerId(source, epoch, w)
    ensures v == w
  {
    var prefix := "poker_mtt_budget:" + source + ":" + epoch + ":";
    assert LedgerId(source, epoch, v) == prefix + v && LedgerId(source, epoch, w) == prefix + w;
    assert (prefix + v)[|prefix|..] == v && (prefix + w)[|prefix|..] == w;
  }

  /** Requested is approved plus forfeited, and never more is paid than approved. */
  predicate LedgerSound(l: Ledger) {
    && l.requested == l.approved + l.forfeited && 0 <= l.paid <= l.approved && l.rolled == 0
    && l.state != LedgerCancelled && l.state != Rejected
    && (l.state == Paid ==> l.paid == l.approved)
  }

  ghost predicate LedgersSound(ledgers: map<string, Ledger>, source: string, epoch: string, settled: set<string>) {
    forall id :: id in ledgers ==>
      && id == LedgerId(source, epoch, ledgers[id].windowId) && LedgerSound(ledgers[id])
      && (ledgers[id].state == Paid ==> ledgers[id].windowId in settled)
  }

  /** What a window was last built from: a digest of its inputs, and its pool. */
  datatype Built = Built(inputs: string, pool: nat)

  /** The ledger of a built window requested the pool it was last built with. */
  ghost predicate LedgersBuilt(ledgers: map<string, Ledger>, source: string, epoch: string, built: map<string, Built>) {
    forall w :: w in built ==>
      LedgerId(source, epoch, w) in ledgers && ledgers[LedgerId(source, epoch, w)].requested == built[w].pool
  }

  /** A paid ledger keeps its amounts. */
  ghost predicate PaidKept(before: map<string, Ledger>, after: map<string, Ledger>) {
    forall id :: id in before && before[id].state == Paid ==>
      id in after && after[id].(batchId := None) == before[id].(batchId := None)
  }

  class BudgetBook {
    const source: string
    const epoch: string
    const budget: int
    var ledgers: map<string, Ledger>
    /** The windows linked to a batch that is no longer open. */
    var settled: set<string>
    var built: map<string, Built>

    constructor (source: string, epoch: string, budget: nat)
      ensures Valid() && ledgers == map[] && settled == {} && built == map[]
      ensures this.source == source && this.epoch == epoch && this.budget == budget
    {
      this.source, this.epoch, this.budget := source, epoch, budget;
      ledgers, settled, built := map[], {}, map[];
    }

    /** Every ledger is sound, and the epoch's approved amounts stay within its budget. */
    ghost predicate Valid()
      reads this
    {
      && LedgersSound(ledgers, source, epoch, settled) && Sum(ledgers, Counted) <= budget
      && LedgersBuilt(ledgers, source, epoch, built)
    }

    /** The sum of the other windows' approved amounts. */
    method PriorApproved(windowId: string) returns (prior: int)
      requires Valid()
      ensures prior == Sum(ledgers - {LedgerId(source, epoch, windowId)}, Counted)
    {
      ghost var own := LedgerId(source, epoch, windowId);
      OwnLedger(ledgers, source, epoch, settled, windowId);
      hide LedgerId, LedgersSound, LedgersBuilt, Sum;
      var rest := ledgers;
      prior := 0;
      while rest != map[]
        invariant forall id :: id in rest ==> id in ledgers && rest[id] == ledgers[id]
        invariant prior + Sum(rest - {own}, Counted) == Sum(ledgers - {own}, Counted)
        decreases |rest|
      {
        var id :| id in rest;
        TakeLedger(rest, own, id);
        if rest[id].windowId != windowId && rest[id].state != LedgerCancelled && rest[id].state != Rejected {
          prior := prior + rest[id].approved;
        }
        rest := rest - {id};
      }
      NoLedgers(own);
    }

    /** One window build: reserve the pool when some weight is positive, forfeit it otherwise. A window
        that is settled, or was last built from the same inputs and pool, is left as it is. */
    method BuildWindow(windowId: string, inputs: string, pool: nat, positive: bool)
      returns (r: Result<Disposition, BudgetError>)
      requires Valid()
      modifies this`ledgers, this`built
      ensures Valid() && PaidKept(old(ledgers), ledgers)
      ensures r.Err? || r.value.Untouched? ==> ledgers == old(ledgers) && built == old(built)
      ensures
        var same := windowId in old(built) && old(built)[windowId] == Built(inputs, pool);
        r == Ok(Untouched) <==> windowId in settled || same
      ensures r.Ok? && r.value.Reservation? ==>
                && ledgers == old(ledgers)[LedgerId(source, epoch, windowId) := NewLedger(windowId, pool, positive)]
                && built == old(built)[windowId := Built(inputs, pool)]
      ensures r.Err? || r.value.Reservation? ==>
                var approved := if positive then pool else 0;
                var prior := Sum(old(ledgers) - {LedgerId(source, epoch, windowId)}, Counted);
                r == if source == "" then Err(SourceRequired)
                     else if epoch == "" then Err(EpochRequired)
                     else if budget <= 0 then Err(BudgetNotPositive)
                     else if prior + approved > budget then Err(OverBudget)
                     else Ok(Reservation(approved, pool - approved, prior, budget - prior - approved))
    {
      hide LedgerId, Counted, LedgersSound, LedgersBuilt;
      if windowId in settled {
        return Ok(Untouched);
      }
      if windowId in built && built[windowId] == Built(inputs, pool) {
        return Ok(Untouched);
      }
      if source == "" {
        return Err(SourceRequired);
      }
      if epoch == "" {
        return Err(EpochRequired);
      }
      if budget <= 0 {
        return Err(BudgetNotPositive);
      }
      var approved := if positive then pool else 0;
      var prior := PriorApproved(windowId);
      if prior + approved > budget {
        return Err(OverBudget);
      }
      var id := LedgerId(source, epoch, windowId);
      SumReplaced(ledgers, id, NewLedger(windowId, pool, positive));
      LedgerReplaced(ledgers, source, epoch, settled, windowId, pool, positive);
      LedgerRebuilt(ledgers, source, epoch, built, windowId, Built(inputs, pool), positive);
      ledgers := ledgers[id := Ledger(windowId, None, pool, approved, 0, pool - approved, 0,
                                      if positive then Reserved else Forfeited)];
      built := built[windowId := Built(inputs, pool)];
      r := Ok(Reservation(approved, pool - approved, prior, budget - prior - approved));
    }

    /** The window's batch leaves the open state. */
    method Settle(windowId: string)
      requires Valid()
      modifies this`settled
      ensures Valid() && settled == old(settled) + {windowId}
    {
      settled := settled + {windowId};
    }

    /** The ledger of a window learns its batch. */
    method Link(windowId: string, batchId: string)
      requires Valid()
      modifies this`ledgers
      ensures Valid() && PaidKept(old(ledgers), ledgers)
      ensures
        var id := LedgerId(source, epoch, windowId);
        ledgers == if id !in old(ledgers) then old(ledgers)
                   else old(ledgers)[id := old(ledgers)[id].(batchId := Some(batchId))]
    {
      hide LedgerId, Sum;
      var id := LedgerId(source, epoch, windowId);
      if id in ledgers {
        SumPut(ledgers, Counted, id, ledgers[id].(batchId := Some(batchId)));
        ledgers := ledgers[id := ledgers[id].(batchId := Some(batchId))];
      }
    }

    /** Pay the ledgers of one window. */
    method PayWindow(windowId: string, batchId: string)
      requires Valid() && windowId in settled
      modifies this`ledgers
      ensures Valid() && PaidKept(old(ledgers), ledgers) && PaidFor(old(ledgers), ledgers, [windowId], batchId)
    {
      hide LedgersSound, LedgersBuilt, PaidOut, PaidKept, Counted, Sum;
      ghost var before := ledgers;
      var rest := ledgers.Keys;
      while rest != {}
        invariant rest <= before.Keys && Valid() && ledgers.Keys == before.Keys
        invariant forall id :: id in before ==>
          ledgers[id] == if id !in rest
            && before[id].windowId == windowId then PaidOut(before[id], batchId) else before[id]
        decreases |rest|
      {
        var id :| id in rest;
        rest := rest - {id};
        if ledgers[id].windowId == windowId {
          PayOne(id, batchId);
        }
      }
      PaidForKeeps(before, ledgers, source, epoch, settled, windowId, batchId);
    }

    method PayOne(id: string, batchId: string)
      requires Valid() && id in ledgers && ledgers[id].windowId in settled
      modifies this`ledgers
      ensures Valid() && ledgers == old(ledgers)[id := PaidOut(old(ledgers)[id], batchId)]
    {
      hide LedgerId, Sum;
      SumPut(ledgers, Counted, id, PaidOut(ledgers[id], batchId));
      var l := ledgers[id];
      ledgers := ledgers[id := l.(batchId := Some(batchId), paid := l.approved,
                                  state := if l.approved > 0 then Paid else l.state)];
    }

    /** An anchored batch pays the approved amounts of its windows. */
    method Pay(windowIds: seq<string>, batchId: string)
      requires Valid() && forall k :: 0 <= k < |windowIds| ==> windowIds[k] in settled
      modifies this`ledgers
      ensures Valid() && PaidKept(old(ledgers), ledgers) && PaidFor(old(ledgers), ledgers, windowIds, batchId)
    {
      hide LedgersSound;
      for k := 0 to |windowIds|
        invariant Valid() && PaidKept(old(ledgers), ledgers) && PaidFor(old(ledgers), ledgers, windowIds[..k], batchId)
      {
        PayWindow(windowIds[k], batchId);
        assert windowIds[..k + 1] == windowIds[..k] + [windowIds[k]];
      }
      assert windowIds[..|windowIds|] == windowIds;
    }
  }

  /** A window's ledger is the one under its id. */
  lemma OwnLedger(ledgers: map<string, Ledger>, source: string, epoch: string, settled: set<string>, windowId: string)
    requires LedgersSound(ledgers, source, epoch, settled)
    ensures forall id :: id in ledgers ==>
              (ledgers[id].windowId == windowId <==> id == LedgerId(source, epoch, windowId))
  {
    forall id | id in ledgers && id == LedgerId(source, epoch, windowId) ensures ledgers[id].windowId == windowId {
      LedgerIdInjective(source, epoch, windowId, ledgers[id].windowId);
    }
    hide LedgerId;
  }

  lemma TakeLedger(rest: map<string, Ledger>, own: string, id: string)
    requires id in rest
    ensures |rest - {id}| < |rest|
    ensures Sum(rest - {own}, Counted) == Sum(rest - {id} - {own}, Counted) + if id == own then 0 else Counted(rest[id])
  {
    hide Sum, Counted;
    Shrinks(rest, id);
    if id == own {
      assert rest - {id} - {own} == rest - {own};
    } else {
      SumTake(rest - {own}, Counted, id);
      Removals(rest, own, id);
    }
  }

  lemma Shrinks(rest: map<string, Ledger>, id: string)
    requires id in rest
    ensures |rest - {id}| < |rest|
  {
    assert (rest - {id}).Keys == rest.Keys - {id};
    assert |rest| == |rest.Keys| && |rest - {id}| == |(rest - {id}).Keys|;
  }

  lemma Removals(rest: map<string, Ledger>, own: string, id: string)
    ensures rest - {own} - {id} == rest - {id} - {own}
  {
  }

  lemma NoLedgers(own: string)
    ensures
      var none: map<string, Ledger> := map[];
      Sum(none - {own}, Counted) == 0
  {
    var none: map<string, Ledger> := map[];
    assert none - {own} == none;
  }

  lemma PaidForKeeps(before: map<string, Ledger>, after: map<string, Ledger>, source: string, epoch: string,
                     settled: set<string>, windowId: string, batchId: string)
    requires LedgersSound(before, source, epoch, settled) && PaidFor(before, after, [windowId], batchId)
    ensures PaidKept(before, after)
  {
    hide LedgerId;
  }

  /** Exactly the ledgers of the given windows were paid out. */
  ghost predicate PaidFor(before: map<string, Ledger>, after: map<string, Ledger>, windowIds: seq<string>,
                          batchId: string) {
    && after.Keys == before.Keys
    && forall id :: id in before ==>
         after[id] == if before[id].windowId in windowIds then PaidOut(before[id], batchId) else before[id]
  }

  /** The ledger once its window's batch is anchored. */
  function PaidOut(l: Ledger, batchId: string): Ledger {
    l.(batchId := Some(batchId), paid := l.approved, state := if l.approved > 0 then Paid else l.state)
  }

  lemma SumReplaced(ledgers: map<string, Ledger>, id: string, l: Ledger)
    ensures Sum(ledgers[id := l], Counted) == Sum(ledgers - {id}, Counted) + Counted(l)
    ensures l.state != LedgerCancelled && l.state != Rejected ==> Counted(l) == l.approved
  {
    SumTake(ledgers[id := l], Counted, id);
    assert ledgers[id := l] - {id} == ledgers - {id};
  }

  /** The ledger of a window that is built. */
  function NewLedger(windowId: string, pool: nat, positive: bool): Ledger {
    var approved := if positive then pool else 0;
    Ledger(windowId, None, pool, approved, 0, pool - approved, 0, if positive then Reserved else Forfeited)
  }

  lemma LedgerReplaced(ledgers: map<string, Ledger>, source: string, epoch: string, settled: set<string>,
                       windowId: string, pool: nat, positive: bool)
    requires LedgersSound(ledgers, source, epoch, settled) && windowId !in settled
    ensures
      var after := ledgers[LedgerId(source, epoch, windowId) := NewLedger(windowId, pool, positive)];
      LedgersSound(after, source, epoch, settled) && PaidKept(ledgers, after)
  {
    var id := LedgerId(source, epoch, windowId);
    if id in ledgers {
      LedgerIdInjective(source, epoch, windowId, ledgers[id].windowId);
    }
    hide LedgerId;
  }

  lemma LedgerRebuilt(ledgers: map<string, Ledger>, source: string, epoch: string, built: map<string, Built>,
                      windowId: string, b: Built, positive: bool)
    requires LedgersBuilt(ledgers, source, epoch, built)
    ensures LedgersBuilt(ledgers[LedgerId(source, epoch, windowId) := NewLedger(windowId, b.pool, positive)], source,
                         epoch, built[windowId := b])
  {
    forall w | w in built && w != windowId ensures LedgerId(source, epoch, w) != LedgerId(source, epoch, windowId) {
      if LedgerId(source, epoch, w) == LedgerId(source, epoch, windowId) {
        LedgerIdInjective(source, epoch, w, windowId);
      }
    }
    hide LedgerId;
  }

  // ---- Runs --------------------------------------------------------------------------------------------

  datatype Event =
    | Building(windowId: string, inputs: string, pool: nat, positive: bool)
    | Linking(windowId: string, batchId: string)
    | Settling(windowId: string)
    | Anchoring(windowIds: seq<string>, batchId: string)

  /** Over every run of builds, rebuilds, settlements and anchorings, in any order and whatever fails:
      the epoch's approved amounts stay within its budget, every ledger is sound, and what was paid
      stays paid. */
  method RunAll(book: BudgetBook, events: seq<Event>)
    requires book.Valid()
    modifies book
    ensures book.Valid() && PaidKept(old(book.ledgers), book.ledgers)
    ensures Sum(book.ledgers, Counted) <= book.budget
    ensures forall id :: id in book.ledgers ==> LedgerSound(book.ledgers[id])
  {
    hide LedgerId, Counted;
    for k := 0 to |events|
      invariant book.Valid() && PaidKept(old(book.ledgers), book.ledgers)
    {
      match events[k]
      case Building(windowId, inputs, pool, positive) => var _ := book.BuildWindow(windowId, inputs, pool, positive);
      case Linking(windowId, batchId) => book.Link(windowId, batchId);
      case Settling(windowId) => book.Settle(windowId);
      case Anchoring(windowIds, batchId) =>
        // Only a batch past the open state is ever anchored.
        if forall w :: w in windowIds ==> w in book.settled {
          book.Pay(windowIds, batchId);
        }
    }
  }
}
