/** What one submission pass does, whatever the network answers: which
    transactions it sends and in what order, how each batch's calls follow
    one another, and where an uncaught failure leaves the pass. */
module PassProperties {
  import opened Seqs
  import opened Classifier
  import opened Transactions
  import opened Submission

  /** The calls of each batch come in the order fetch, send, confirm:
      every send is preceded by its blockhash fetch and followed by the
      confirmation of that very signature with the pair the transaction
      was signed with; a confirmation, whatever its outcome, is followed by
      the next batch's fetch or by nothing. */
  ghost predicate Bracketed(ev: seq<Event>)
  {
    (|ev| > 0 ==> ev[0].BlockhashFetched? || ev[0].FetchFailed?)
    && forall p :: 0 <= p < |ev| ==> BracketedAt(ev, p)
  }

  /** The neighbours of the event at `p` are the ones `Bracketed` demands. */
  ghost predicate BracketedAt(ev: seq<Event>, p: nat)
    requires p < |ev|
  {
    (ev[p].BlockhashFetched? ==> p + 1 < |ev| && (ev[p + 1].Sent? || ev[p + 1].SendFailed?))
    && (ev[p].Sent? || ev[p].SendFailed? ==> 0 < p && ev[p - 1] == BlockhashFetched(ev[p].tx.recentBlockhash))
    && (ev[p].Sent? ==>
          p + 1 < |ev| && ev[p + 1].ConfirmDone?
          && ev[p + 1].signature == ev[p].signature && ev[p + 1].blockhash == ev[p].signedWith)
    && (ev[p].ConfirmDone? ==>
          0 < p && ev[p - 1].Sent? && (p + 1 < |ev| ==> ev[p + 1].BlockhashFetched? || ev[p + 1].FetchFailed?))
  }

  /** The three shapes one batch can take: fetch, send, confirm; fetch and
      a send that threw; or a fetch that threw. */
  lemma BatchShape(net: Network, hist: seq<Event>, phase: Phase, operator: Pubkey, batch: seq<Rec>)
    ensures var log := BatchLog(net, hist, phase, operator, batch);
      var ev := log.events;
      var built := if ev[0].BlockhashFetched? then TxValue(operator, ev[0].latest, Instructions(phase, batch, operator)) else TxValue(operator, Blockhash("", 0), []);
      (log.completed ==> |ev| == 3 && ev[0].BlockhashFetched? && ev[1].Sent? && ev[1].tx == built && ev[2].ConfirmDone?)
      && (!log.completed ==> ev == [FetchFailed] || (|ev| == 2 && ev[0].BlockhashFetched? && ev[1] == SendFailed(built)))
  {
  }

  lemma BatchBracketed(net: Network, hist: seq<Event>, phase: Phase, operator: Pubkey, batch: seq<Rec>)
    ensures Bracketed(BatchLog(net, hist, phase, operator, batch).events)
  {
  }

  lemma BracketedAppend(a: seq<Event>, b: seq<Event>)
    requires Bracketed(a) && Bracketed(b)
    requires |a| > 0 && |b| > 0 ==> a[|a| - 1].ConfirmDone?
    ensures Bracketed(a + b)
  {
    var ev := a + b;
    forall p | 0 <= p < |ev|
      ensures BracketedAt(ev, p)
    {
      if p < |a| {
        assert BracketedAt(a, p);
        assert ev[p] == a[p];
        if p + 1 < |a| { assert ev[p + 1] == a[p + 1]; }
        if 0 < p { assert ev[p - 1] == a[p - 1]; }
        if p + 1 == |a| && p + 1 < |ev| { assert ev[p + 1] == b[0]; }
      } else {
        var q := p - |a|;
        assert BracketedAt(b, q);
        assert ev[p] == b[q];
        if q + 1 < |b| { assert ev[p + 1] == b[q + 1]; }
        if 0 < q { assert ev[p - 1] == b[q - 1]; }
      }
    }
  }

  /** Every pass, completed or cut short, is a run of fetch-send-confirm
      batches; in particular each batch fetches its own blockhash right
      before building its transaction. */
  lemma {:induction false} PassBracketed(net: Network, hist: seq<Event>, phase: Phase, operator: Pubkey, batches: seq<seq<Rec>>)
    ensures Bracketed(PassEvents(net, hist, phase, operator, batches).events)
    decreases |batches|
  {
    if batches != [] {
      var first := BatchLog(net, hist, phase, operator, batches[0]);
      BatchBracketed(net, hist, phase, operator, batches[0]);
      if first.completed {
        PassBracketed(net, hist + first.events, phase, operator, batches[1..]);
        BracketedAppend(first.events, PassEvents(net, hist + first.events, phase, operator, batches[1..]).events);
      }
    }
  }

  /** The client library keeps the blockhash it is given when signing. */
  ghost predicate KeepsBlockhash(net: Network)
  {
    forall h, tx :: net.sendTransaction(h, tx).Some? ==> net.sendTransaction(h, tx).value.stamped == tx.recentBlockhash
  }

  /** When the library does not replace the transaction's blockhash, each
      confirmation waits on the pair fetched for that same batch. */
  lemma {:induction false} PassConfirmsFetchedBlockhash(net: Network, hist: seq<Event>, phase: Phase, operator: Pubkey, batches: seq<seq<Rec>>)
    requires KeepsBlockhash(net)
    ensures var ev := PassEvents(net, hist, phase, operator, batches).events;
      forall p :: 0 <= p < |ev| && ev[p].ConfirmDone? ==> 1 < p && ev[p - 2] == BlockhashFetched(ev[p].blockhash)
    decreases |batches|
  {
    var ev := PassEvents(net, hist, phase, operator, batches).events;
    PassBracketed(net, hist, phase, operator, batches);
    forall p | 0 <= p < |ev| && ev[p].ConfirmDone?
      ensures 1 < p && ev[p - 2] == BlockhashFetched(ev[p].blockhash)
    {
      assert BracketedAt(ev, p);
      assert BracketedAt(ev, p - 1);
      SentKeepsBlockhash(net, hist, phase, operator, batches, p - 1);
    }
  }

  lemma {:induction false} SentKeepsBlockhash(net: Network, hist: seq<Event>, phase: Phase, operator: Pubkey, batches: seq<seq<Rec>>, p: int)
    requires KeepsBlockhash(net)
    requires var ev := PassEvents(net, hist, phase, operator, batches).events; 0 <= p < |ev| && ev[p].Sent?
    ensures var ev := PassEvents(net, hist, phase, operator, batches).events; ev[p].signedWith == ev[p].tx.recentBlockhash
    decreases |batches|
  {
    var first := BatchLog(net, hist, phase, operator, batches[0]);
    if p >= |first.events| {
      SentKeepsBlockhash(net, hist + first.events, phase, operator, batches[1..], p - |first.events|);
    }
  }

  /** A log stops at its first uncaught failure and only there: it is
      complete exactly when no fetch or send threw, and a failure, when
      there is one, is its last event. */
  ghost predicate StopsAtFailure(log: PassLog)
  {
    (log.completed <==> forall p :: 0 <= p < |log.events| ==> !Failure(log.events[p]))
    && (!log.completed ==> |log.events| > 0 && Failure(log.events[|log.events| - 1]))
    && forall p :: 0 <= p < |log.events| - 1 ==> !Failure(log.events[p])
  }

  /** A complete log followed by one that stops at its failure stops at that failure. */
  lemma StopsAtFailureAppend(a: PassLog, b: PassLog)
    requires a.completed && StopsAtFailure(a) && StopsAtFailure(b)
    ensures StopsAtFailure(PassLog(a.events + b.events, b.completed))
  {
    var ev := a.events + b.events;
    forall p | 0 <= p < |ev| && (b.completed || p < |ev| - 1)
      ensures !Failure(ev[p])
    {
      if p >= |a.events| {
        assert ev[p] == b.events[p - |a.events|];
      } else {
        assert ev[p] == a.events[p];
      }
    }
    if !b.completed {
      assert ev[|ev| - 1] == b.events[|b.events| - 1];
    }
  }

  /** One batch stops at its failure, if any. */
  lemma BatchFailure(net: Network, hist: seq<Event>, phase: Phase, operator: Pubkey, batch: seq<Rec>)
    ensures StopsAtFailure(BatchLog(net, hist, phase, operator, batch))
  {
    BatchShape(net, hist, phase, operator, batch);
  }

  /** A pass stops at its first uncaught failure and only there. A rejected
      confirmation is not a failure: the loop goes on with the next batch. */
  lemma {:induction false} PassStopsAtFailure(net: Network, hist: seq<Event>, phase: Phase, operator: Pubkey, batches: seq<seq<Rec>>)
    ensures StopsAtFailure(PassEvents(net, hist, phase, operator, batches))
    decreases |batches|
  {
    if batches != [] {
      var first := BatchLog(net, hist, phase, operator, batches[0]);
      BatchFailure(net, hist, phase, operator, batches[0]);
      if first.completed {
        var rest := PassEvents(net, hist + first.events, phase, operator, batches[1..]);
        PassStopsAtFailure(net, hist + first.events, phase, operator, batches[1..]);
        StopsAtFailureAppend(first, rest);
      }
    }
  }

  /** The transactions a pass hands to `sendTransaction`, in order, whether
      the call answered or threw: a send that threw may still have reached
      the cluster. */
  function HandedTxs(ev: seq<Event>): (txs: seq<TxValue>)
  {
    if ev == [] then []
    else if ev[0].Sent? || ev[0].SendFailed? then [ev[0].tx] + HandedTxs(ev[1..])
    else HandedTxs(ev[1..])
  }

  lemma {:induction false} HandedTxsAppend(a: seq<Event>, b: seq<Event>)
    ensures HandedTxs(a + b) == HandedTxs(a) + HandedTxs(b)
  {
    if a == [] {
      assert a + b == b;
    } else {
      var head := if a[0].Sent? || a[0].SendFailed? then [a[0].tx] else [];
      assert (a + b)[0] == a[0];
      assert (a + b)[1..] == a[1..] + b;
      assert HandedTxs(a + b) == head + HandedTxs(a[1..] + b);
      HandedTxsAppend(a[1..], b);
      AppendAssoc(head, HandedTxs(a[1..]), HandedTxs(b));
    }
  }

  /** A batch hands over exactly one transaction, carrying the fetched
      blockhash and the batch's instructions, once its fetch answered, and
      none when the fetch threw; a completed batch always got that far. */
  lemma BatchSends(net: Network, hist: seq<Event>, phase: Phase, operator: Pubkey, batch: seq<Rec>)
    ensures var log := BatchLog(net, hist, phase, operator, batch);
      (log.completed ==> log.events[0].BlockhashFetched?)
      && HandedTxs(log.events)
         == if log.events[0].BlockhashFetched?
            then [TxValue(operator, log.events[0].latest, Instructions(phase, batch, operator))]
            else []
  {
    var ev := BatchLog(net, hist, phase, operator, batch).events;
    if |ev| == 1 {
      assert ev[1..] == [];
    } else if |ev| == 2 {
      assert HandedTxs(ev[1..][1..]) == [];
      assert HandedTxs(ev[1..]) == [ev[1].tx];
    } else {
      assert HandedTxs(ev[1..][1..][1..]) == [];
      assert HandedTxs(ev[1..][1..]) == [];
      assert HandedTxs(ev[1..]) == [ev[1].tx];
    }
  }

  /** The transactions a pass hands to `sendTransaction`, in order: the
      b-th carries the operator as fee payer and exactly the instructions
      of the b-th batch. A completed pass hands over one transaction per
      batch, whatever the confirmations said. */
  lemma {:induction false} PassSends(net: Network, hist: seq<Event>, phase: Phase, operator: Pubkey, batches: seq<seq<Rec>>)
    ensures var log := PassEvents(net, hist, phase, operator, batches);
      var txs := HandedTxs(log.events);
      |txs| <= |batches|
      && (log.completed ==> |txs| == |batches|)
      && forall b :: 0 <= b < |txs| ==>
           txs[b].feePayer == operator && txs[b].instructions == Instructions(phase, batches[b], operator)
    decreases |batches|
  {
    if batches != [] {
      var first := BatchLog(net, hist, phase, operator, batches[0]);
      BatchSends(net, hist, phase, operator, batches[0]);
      if first.completed {
        var rest := PassEvents(net, hist + first.events, phase, operator, batches[1..]);
        PassSends(net, hist + first.events, phase, operator, batches[1..]);
        assert PassEvents(net, hist, phase, operator, batches) == PassLog(first.events + rest.events, rest.completed);
        HandedTxsAppend(first.events, rest.events);
        SendsCons(HandedTxs(first.events), HandedTxs(rest.events), phase, operator, batches);
      }
    }
  }

  lemma SendsCons(first: seq<TxValue>, rest: seq<TxValue>, phase: Phase, operator: Pubkey, batches: seq<seq<Rec>>)
    requires |first| == 1 && |first| + |rest| <= |batches|
    requires first[0].feePayer == operator && first[0].instructions == Instructions(phase, batches[0], operator)
    requires forall b :: 0 <= b < |rest| ==>
      rest[b].feePayer == operator && rest[b].instructions == Instructions(phase, batches[1..][b], operator)
    ensures forall b :: 0 <= b < |first + rest| ==>
      (first + rest)[b].feePayer == operator && (first + rest)[b].instructions == Instructions(phase, batches[b], operator)
  {
    forall b | 0 < b < |first + rest|
      ensures (first + rest)[b] == rest[b - 1] && batches[b] == batches[1..][b - 1]
    {
    }
  }

  /** Every transaction a pass hands to `sendTransaction`, whether the call
      answered or threw, belongs to the pass's phase, provided no batch is
      empty (the stride walk never yields an empty batch). */
  lemma {:induction false} PassSendsOfPhase(net: Network, hist: seq<Event>, phase: Phase, operator: Pubkey, batches: seq<seq<Rec>>, p: nat)
    requires forall b :: 0 <= b < |batches| ==> batches[b] != []
    requires p < |PassEvents(net, hist, phase, operator, batches).events|
    requires PassEvents(net, hist, phase, operator, batches).events[p].Sent?
          || PassEvents(net, hist, phase, operator, batches).events[p].SendFailed?
    ensures IsPhaseBatch(PassEvents(net, hist, phase, operator, batches).events[p].tx.instructions, phase)
    decreases |batches|
  {
    var first := BatchLog(net, hist, phase, operator, batches[0]);
    BatchShape(net, hist, phase, operator, batches[0]);
    if first.completed {
      var rest := PassEvents(net, hist + first.events, phase, operator, batches[1..]);
      var ev := first.events + rest.events;
      assert PassEvents(net, hist, phase, operator, batches).events == ev;
      if p < |first.events| {
        assert ev[p] == first.events[p];
        InstructionsOfPhase(phase, batches[0], operator);
      } else {
        assert ev[p] == rest.events[p - |first.events|];
        PassSendsOfPhase(net, hist + first.events, phase, operator, batches[1..], p - |first.events|);
      }
    } else if first.events[0].BlockhashFetched? {
      InstructionsOfPhase(phase, batches[0], operator);
    }
  }
}
