/** What the whole script does, whatever the network answers: the
    transactions it sends follow a fixed plan computed from the records
    alone, that plan burns every funded eligible account and closes every
    eligible account and nothing else, and every burn is sent and settled
    before the close pass starts. */
module RunProperties {
  import opened Seqs
  import opened Classifier
  import opened Transactions
  import opened Submission
  import opened PassProperties

  /** The instruction lists of a pass's transactions, one per batch. */
  function Batched(phase: Phase, batches: seq<seq<Rec>>, operator: Pubkey): (lists: seq<seq<Instr>>)
  {
    seq(|batches|, b requires 0 <= b < |batches| => Instructions(phase, batches[b], operator))
  }

  /** The instruction lists of every transaction the script sets out to
      send, in send order: the burn batches, then the close batches. */
  function Plan(records: seq<Rec>, operator: Pubkey): (plan: seq<seq<Instr>>)
  {
    var accounts := Eligible(records);
    Batched(BurnPhase, Chunks(ToBurn(accounts), BURN_BATCH_SIZE), operator)
    + Batched(ClosePhase, Chunks(accounts, CLOSE_ACC_BATCH_SIZE), operator)
  }

  /** The run hands a prefix of the plan to `sendTransaction`, and all of
      it when no fetch or send throws: the t-th transaction handed over
      carries the operator as fee payer and the t-th planned instruction
      list. */
  lemma RunFollowsPlan(net: Network, hist: seq<Event>, operator: Pubkey, records: seq<Rec>)
    ensures var log := RunEvents(net, hist, operator, records);
      var txs := HandedTxs(log.events);
      var plan := Plan(records, operator);
      |txs| <= |plan|
      && (log.completed ==> |txs| == |plan|)
      && forall t :: 0 <= t < |txs| ==> txs[t].feePayer == operator && txs[t].instructions == plan[t]
  {
    var accounts := Eligible(records);
    var burnBatches := Chunks(ToBurn(accounts), BURN_BATCH_SIZE);
    var closeBatches := Chunks(accounts, CLOSE_ACC_BATCH_SIZE);
    var burns := PassEvents(net, hist, BurnPhase, operator, burnBatches);
    var plan := Plan(records, operator);
    var nb := |burnBatches|;
    assert |plan| == nb + |closeBatches|;
    PassSends(net, hist, BurnPhase, operator, burnBatches);
    var burnTxs := HandedTxs(burns.events);
    if !burns.completed {
      forall t | 0 <= t < |burnTxs|
        ensures burnTxs[t].instructions == plan[t]
      {
        assert plan[t] == Instructions(BurnPhase, burnBatches[t], operator);
      }
    } else {
      var closes := PassEvents(net, hist + burns.events, ClosePhase, operator, closeBatches);
      PassSends(net, hist + burns.events, ClosePhase, operator, closeBatches);
      HandedTxsAppend(burns.events, closes.events);
      var closeTxs := HandedTxs(closes.events);
      var txs := burnTxs + closeTxs;
      forall t | 0 <= t < |txs|
        ensures txs[t].feePayer == operator && txs[t].instructions == plan[t]
      {
        if t < nb {
          assert txs[t] == burnTxs[t];
          assert plan[t] == Instructions(BurnPhase, burnBatches[t], operator);
        } else {
          assert txs[t] == closeTxs[t - nb];
          assert plan[t] == Instructions(ClosePhase, closeBatches[t - nb], operator);
        }
      }
    }
  }

  /** The run, too, stops at its first uncaught failure and only there; a
      burn pass cut short means no close transaction at all. */
  lemma RunStopsAtFailure(net: Network, hist: seq<Event>, operator: Pubkey, records: seq<Rec>)
    ensures StopsAtFailure(RunEvents(net, hist, operator, records))
  {
    var accounts := Eligible(records);
    var burnBatches := Chunks(ToBurn(accounts), BURN_BATCH_SIZE);
    var burns := PassEvents(net, hist, BurnPhase, operator, burnBatches);
    PassStopsAtFailure(net, hist, BurnPhase, operator, burnBatches);
    if burns.completed {
      var closeBatches := Chunks(accounts, CLOSE_ACC_BATCH_SIZE);
      var closes := PassEvents(net, hist + burns.events, ClosePhase, operator, closeBatches);
      PassStopsAtFailure(net, hist + burns.events, ClosePhase, operator, closeBatches);
      StopsAtFailureAppend(burns, closes);
    }
  }

  /** The whole trace is a run of fetch-send-confirm batches. */
  lemma RunBracketed(net: Network, hist: seq<Event>, operator: Pubkey, records: seq<Rec>)
    ensures Bracketed(RunEvents(net, hist, operator, records).events)
  {
    var accounts := Eligible(records);
    var burnBatches := Chunks(ToBurn(accounts), BURN_BATCH_SIZE);
    var closeBatches := Chunks(accounts, CLOSE_ACC_BATCH_SIZE);
    var burns := PassEvents(net, hist, BurnPhase, operator, burnBatches);
    var closes := PassEvents(net, hist + burns.events, ClosePhase, operator, closeBatches);
    PassBracketed(net, hist, BurnPhase, operator, burnBatches);
    PassBracketed(net, hist + burns.events, ClosePhase, operator, closeBatches);
    PassEndsWithConfirm(net, hist, BurnPhase, operator, burnBatches);
    BracketedThen(burns, closes);
  }

  /** A pass that completed, followed by the next pass, is bracketed when both are. */
  lemma BracketedThen(first: PassLog, next: PassLog)
    requires Bracketed(first.events) && Bracketed(next.events)
    requires first.completed && |first.events| > 0 ==> first.events[|first.events| - 1].ConfirmDone?
    ensures Bracketed(if first.completed then first.events + next.events else first.events)
  {
    if first.completed {
      BracketedAppend(first.events, next.events);
    }
  }

  /** A completed, non-empty pass ends with a confirmation. */
  lemma {:induction false} PassEndsWithConfirm(net: Network, hist: seq<Event>, phase: Phase, operator: Pubkey, batches: seq<seq<Rec>>)
    ensures var log := PassEvents(net, hist, phase, operator, batches);
      log.completed && |log.events| > 0 ==> log.events[|log.events| - 1].ConfirmDone?
    decreases |batches|
  {
    if batches != [] {
      var first := BatchLog(net, hist, phase, operator, batches[0]);
      BatchShape(net, hist, phase, operator, batches[0]);
      if first.completed {
        var rest := PassEvents(net, hist + first.events, phase, operator, batches[1..]);
        PassEndsWithConfirm(net, hist + first.events, phase, operator, batches[1..]);
        var ev := first.events + rest.events;
        if rest.events == [] {
          assert ev == first.events;
        } else {
          assert ev[|ev| - 1] == rest.events[|rest.events| - 1];
        }
      }
    }
  }

  lemma SendsOfPhase(net: Network, hist: seq<Event>, phase: Phase, operator: Pubkey, items: seq<Rec>, size: nat, p: nat)
    requires size > 0
    requires p < |PassEvents(net, hist, phase, operator, Chunks(items, size)).events|
    requires PassEvents(net, hist, phase, operator, Chunks(items, size)).events[p].Sent?
          || PassEvents(net, hist, phase, operator, Chunks(items, size)).events[p].SendFailed?
    ensures IsPhaseBatch(PassEvents(net, hist, phase, operator, Chunks(items, size)).events[p].tx.instructions, phase)
  {
    var batches := Chunks(items, size);
    forall b | 0 <= b < |batches|
      ensures batches[b] != []
    {
      assert batches[b] in batches;
    }
    PassSendsOfPhase(net, hist, phase, operator, batches, p);
  }

  lemma PhasesExclusive(instrs: seq<Instr>)
    requires IsPhaseBatch(instrs, BurnPhase)
    ensures !IsPhaseBatch(instrs, ClosePhase)
  {
    assert instrs[0] in instrs;
  }

  /** Every burn transaction is sent, and its confirmation settled, before
      any close transaction is handed to `sendTransaction`, whether that
      call answers or throws: between a burn send at q and a close send at
      p lie at least the burn's confirmation (q + 1) and the fetch of the
      close transaction's own blockhash (p - 1). */
  lemma RunBurnsBeforeCloses(net: Network, hist: seq<Event>, operator: Pubkey, records: seq<Rec>, q: nat, p: nat)
    requires var ev := RunEvents(net, hist, operator, records).events;
      q < |ev| && p < |ev| && ev[q].Sent? && (ev[p].Sent? || ev[p].SendFailed?)
      && IsPhaseBatch(ev[q].tx.instructions, BurnPhase) && IsPhaseBatch(ev[p].tx.instructions, ClosePhase)
    ensures q + 2 < p
  {
    var accounts := Eligible(records);
    var burnBatches := Chunks(ToBurn(accounts), BURN_BATCH_SIZE);
    var burns := PassEvents(net, hist, BurnPhase, operator, burnBatches);
    var ev := RunEvents(net, hist, operator, records).events;
    if !burns.completed {
      SendsOfPhase(net, hist, BurnPhase, operator, ToBurn(accounts), BURN_BATCH_SIZE, p);
      PhasesExclusive(ev[p].tx.instructions);
      assert false;
    } else {
      var closeBatches := Chunks(accounts, CLOSE_ACC_BATCH_SIZE);
      var closes := PassEvents(net, hist + burns.events, ClosePhase, operator, closeBatches);
      var n := |burns.events|;
      assert ev == burns.events + closes.events;
      if q >= n {
        assert ev[q] == closes.events[q - n];
        SendsOfPhase(net, hist + burns.events, ClosePhase, operator, accounts, CLOSE_ACC_BATCH_SIZE, q - n);
        PhasesExclusive(ev[q].tx.instructions);
        assert false;
      }
      if p < n {
        assert ev[p] == burns.events[p];
        SendsOfPhase(net, hist, BurnPhase, operator, ToBurn(accounts), BURN_BATCH_SIZE, p);
        PhasesExclusive(ev[p].tx.instructions);
        assert false;
      }
      PassBracketed(net, hist, BurnPhase, operator, burnBatches);
      PassBracketed(net, hist + burns.events, ClosePhase, operator, closeBatches);
      assert BracketedAt(burns.events, q);
      assert BracketedAt(closes.events, p - n);
    }
  }

  /** The planned transactions: ceil(b / 13) burn transactions of 1 to 13
      instructions, where b is the number of funded eligible accounts, then
      ceil(a / 27) close transactions of 1 to 27 instructions, where a is
      the number of eligible accounts; none when the list is empty. */
  lemma PlanShape(records: seq<Rec>, operator: Pubkey)
    ensures var accounts := Eligible(records);
      var nb := (|ToBurn(accounts)| + BURN_BATCH_SIZE - 1) / BURN_BATCH_SIZE;
      var plan := Plan(records, operator);
      |plan| == nb + (|accounts| + CLOSE_ACC_BATCH_SIZE - 1) / CLOSE_ACC_BATCH_SIZE
      && (forall t :: 0 <= t < nb ==> IsPhaseBatch(plan[t], BurnPhase) && |plan[t]| <= BURN_BATCH_SIZE)
      && (forall t :: nb <= t < |plan| ==> IsPhaseBatch(plan[t], ClosePhase) && |plan[t]| <= CLOSE_ACC_BATCH_SIZE)
  {
    var accounts := Eligible(records);
    var burnBatches := Chunks(ToBurn(accounts), BURN_BATCH_SIZE);
    var closeBatches := Chunks(accounts, CLOSE_ACC_BATCH_SIZE);
    ChunksCount(ToBurn(accounts), BURN_BATCH_SIZE);
    ChunksCount(accounts, CLOSE_ACC_BATCH_SIZE);
    var plan := Plan(records, operator);
    var nb := |burnBatches|;
    forall t | 0 <= t < |plan|
      ensures t < nb ==> IsPhaseBatch(plan[t], BurnPhase) && |plan[t]| <= BURN_BATCH_SIZE
      ensures t >= nb ==> IsPhaseBatch(plan[t], ClosePhase) && |plan[t]| <= CLOSE_ACC_BATCH_SIZE
    {
      if t < nb {
        assert burnBatches[t] in burnBatches;
        InstructionsOfPhase(BurnPhase, burnBatches[t], operator);
      } else {
        assert closeBatches[t - nb] in closeBatches;
        InstructionsOfPhase(ClosePhase, closeBatches[t - nb], operator);
      }
    }
  }

  lemma {:induction false} FlattenBatched(phase: Phase, batches: seq<seq<Rec>>, operator: Pubkey)
    ensures Flatten(Batched(phase, batches, operator)) == Instructions(phase, Flatten(batches), operator)
  {
    if batches != [] {
      FlattenBatched(phase, batches[1..], operator);
      assert Batched(phase, batches, operator)[1..] == Batched(phase, batches[1..], operator);
      InstructionsAppend(phase, batches[0], Flatten(batches[1..]), operator);
    }
  }

  /** Joining the planned transactions in order gives one burn per funded
      eligible account and then one close per eligible account, each in
      input order: every such account is burned once and closed once. */
  lemma PlanCoverage(records: seq<Rec>, operator: Pubkey)
    ensures Flatten(Plan(records, operator))
      == Instructions(BurnPhase, ToBurn(Eligible(records)), operator) + Instructions(ClosePhase, Eligible(records), operator)
  {
    var accounts := Eligible(records);
    var burnBatches := Chunks(ToBurn(accounts), BURN_BATCH_SIZE);
    var closeBatches := Chunks(accounts, CLOSE_ACC_BATCH_SIZE);
    FlattenAppend(Batched(BurnPhase, burnBatches, operator), Batched(ClosePhase, closeBatches, operator));
    FlattenBatched(BurnPhase, burnBatches, operator);
    FlattenBatched(ClosePhase, closeBatches, operator);
    FlattenChunks(ToBurn(accounts), BURN_BATCH_SIZE);
    FlattenChunks(accounts, CLOSE_ACC_BATCH_SIZE);
  }

  lemma {:induction false} InFlatten<T>(ss: seq<seq<T>>, t: nat, x: T)
    requires t < |ss| && x in ss[t]
    ensures x in Flatten(ss)
  {
    if t > 0 {
      InFlatten(ss[1..], t - 1, x);
    }
  }

  /** Every planned instruction is authorised by the operator and targets
      the account of an eligible record: a burn destroys that record's whole
      positive balance of its own mint, a close sends the rent to the
      operator. Nothing is ever planned against a LIKE_TOKEN account. */
  lemma PlanSparesProtected(records: seq<Rec>, operator: Pubkey, t: nat, ix: Instr)
    requires t < |Plan(records, operator)| && ix in Plan(records, operator)[t]
    ensures ix.authority == operator
    ensures exists r :: r in records && r.mint != LIKE_TOKEN && ix.account == r.pubkey
              && (ix.Burn? ==> ix.mint == r.mint && ix.amount == r.amount && r.amount > 0)
              && (ix.Close? ==> ix.destination == operator)
    ensures ix.Burn? ==> ix.mint != LIKE_TOKEN
  {
    var accounts := Eligible(records);
    var burnList := Instructions(BurnPhase, ToBurn(accounts), operator);
    var closeList := Instructions(ClosePhase, accounts, operator);
    InFlatten(Plan(records, operator), t, ix);
    PlanCoverage(records, operator);
    var r;
    if ix in burnList {
      r := InstructionOf(BurnPhase, ToBurn(accounts), operator, ix);
    } else {
      assert ix in closeList;
      r := InstructionOf(ClosePhase, accounts, operator, ix);
    }
    assert r in records && r.mint != LIKE_TOKEN && ix.account == r.pubkey;
  }

  /** The record an instruction of a list was built from. */
  lemma InstructionOf(phase: Phase, recs: seq<Rec>, operator: Pubkey, ix: Instr) returns (r: Rec)
    requires ix in Instructions(phase, recs, operator)
    ensures r in recs && ix == Instruction(phase, r, operator)
  {
    var j :| 0 <= j < |recs| && Instructions(phase, recs, operator)[j] == ix;
    r := recs[j];
  }

  /** Account addresses are unique among the owner's token accounts. */
  ghost predicate DistinctKeys(records: seq<Rec>)
  {
    forall i, j :: 0 <= i < j < |records| ==> records[i].pubkey != records[j].pubkey
  }

  /** With unique account addresses, no planned instruction, burn or close,
      targets a record whose mint is LIKE_TOKEN. */
  lemma ProtectedNeverTargeted(records: seq<Rec>, operator: Pubkey, r: Rec, t: nat, ix: Instr)
    requires DistinctKeys(records) && r in records && r.mint == LIKE_TOKEN
    requires t < |Plan(records, operator)| && ix in Plan(records, operator)[t]
    ensures ix.account != r.pubkey
  {
    PlanSparesProtected(records, operator, t, ix);
    var r' :| r' in records && r'.mint != LIKE_TOKEN && ix.account == r'.pubkey;
    var i :| 0 <= i < |records| && records[i] == r;
    var j :| 0 <= j < |records| && records[j] == r';
    assert i != j;
    if i < j {
      assert records[i].pubkey != records[j].pubkey;
    } else {
      assert records[j].pubkey != records[i].pubkey;
    }
  }

  /** The two batch sizes on the boundary cases: 14 funded accounts are
      burned in transactions of 13 and 1, 30 accounts closed in 27 and 3. */
  lemma BatchScenarios<T>(burn: seq<T>, close: seq<T>)
    requires |burn| == 14 && |close| == 30
    ensures |Chunks(burn, BURN_BATCH_SIZE)| == 2
    ensures |Chunks(burn, BURN_BATCH_SIZE)[0]| == 13 && |Chunks(burn, BURN_BATCH_SIZE)[1]| == 1
    ensures |Chunks(close, CLOSE_ACC_BATCH_SIZE)| == 2
    ensures |Chunks(close, CLOSE_ACC_BATCH_SIZE)[0]| == 27 && |Chunks(close, CLOSE_ACC_BATCH_SIZE)[1]| == 3
  {
    ChunksCount(burn, BURN_BATCH_SIZE);
    LastChunk(burn, BURN_BATCH_SIZE);
    ChunksCount(close, CLOSE_ACC_BATCH_SIZE);
    LastChunk(close, CLOSE_ACC_BATCH_SIZE);
  }
}
