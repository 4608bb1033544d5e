/** The two batched submission passes of the cleanup script (index.js
    lines 50-71 and 75-99) and the run that chains them after the classifier.

    The network is an environment the script only calls: each call's answer
    is a function of everything the run has done so far (the trace), so a
    `Network` value stands for any deterministic behaviour of the cluster.
    A call that throws and is not caught (`getLatestBlockhash`,
    `sendTransaction`) ends the run; a rejected `confirmTransaction` is
    caught, logged and the loop goes on. */
module Submission {
  import opened Seqs
  import opened Classifier
  import opened Transactions

  const BURN_BATCH_SIZE: nat := 13
  const CLOSE_ACC_BATCH_SIZE: nat := 27

  datatype Option<T> = None | Some(value: T)

  /** What `sendTransaction` reports: the signature, and the blockhash pair
      the client library stamped on the transaction while signing it (the
      script reads the pair back from the transaction after the call). */
  datatype SendReply = SendReply(signature: Signature, stamped: Blockhash)

  /** One observable step of the run. */
  datatype Event =
    | BlockhashFetched(latest: Blockhash)        // getLatestBlockhash answered
    | FetchFailed                                // getLatestBlockhash threw
    | Sent(tx: TxValue, signature: Signature, signedWith: Blockhash)
                                                 // sendTransaction answered; tx as handed over
    | SendFailed(tx: TxValue)                    // sendTransaction threw
    | ConfirmDone(signature: Signature, blockhash: Blockhash, confirmed: bool)
                                                 // confirmTransaction settled; false: error logged

  /** An uncaught failure: the run stops right after it. */
  predicate Failure(e: Event)
  {
    e.FetchFailed? || e.SendFailed?
  }

  /** The cluster, as answers to the three calls given the trace so far. */
  datatype Network = Network(
    getLatestBlockhash: seq<Event> -> Option<Blockhash>,
    sendTransaction: (seq<Event>, TxValue) -> Option<SendReply>,
    confirmTransaction: (seq<Event>, Signature, Blockhash) -> bool)

  /** The events of a pass (or of one batch), and whether it ran to its end. */
  datatype PassLog = PassLog(events: seq<Event>, completed: bool)

  function Prepend(done: seq<Event>, log: PassLog): (longer: PassLog)
  {
    PassLog(done + log.events, log.completed)
  }

  /** One iteration of either pass's outer loop, after `hist`: fetch a
      blockhash, build the transaction from `batch`, send it, confirm it. */
  function BatchLog(net: Network, hist: seq<Event>, phase: Phase, operator: Pubkey, batch: seq<Rec>): (log: PassLog)
  {
    match net.getLatestBlockhash(hist)
    case None => PassLog([FetchFailed], false)
    case Some(latest) =>
      var built := TxValue(operator, latest, Instructions(phase, batch, operator));
      var h1 := hist + [BlockhashFetched(latest)];
      match net.sendTransaction(h1, built)
      case None => PassLog([BlockhashFetched(latest), SendFailed(built)], false)
      case Some(reply) =>
        var h2 := h1 + [Sent(built, reply.signature, reply.stamped)];
        var ok := net.confirmTransaction(h2, reply.signature, reply.stamped);
        PassLog([BlockhashFetched(latest), Sent(built, reply.signature, reply.stamped), ConfirmDone(reply.signature, reply.stamped, ok)], true)
  }

  /** A whole pass over `batches` after `hist`: batch after batch until the
      batches run out or a call throws. */
  function PassEvents(net: Network, hist: seq<Event>, phase: Phase, operator: Pubkey, batches: seq<seq<Rec>>): (log: PassLog)
    decreases |batches|
  {
    if batches == [] then PassLog([], true)
    else
      var first := BatchLog(net, hist, phase, operator, batches[0]);
      if !first.completed then first
      else
        var rest := PassEvents(net, hist + first.events, phase, operator, batches[1..]);
        PassLog(first.events + rest.events, rest.completed)
  }

  lemma PassEventsCons(net: Network, hist: seq<Event>, phase: Phase, operator: Pubkey, batch: seq<Rec>, batches: seq<seq<Rec>>)
    ensures var first := BatchLog(net, hist, phase, operator, batch);
      PassEvents(net, hist, phase, operator, [batch] + batches)
      == if first.completed then Prepend(first.events, PassEvents(net, hist + first.events, phase, operator, batches)) else first
  {
    assert ([batch] + batches)[0] == batch && ([batch] + batches)[1..] == batches;
  }

  /** The whole script after the account query: classify, burn in batches
      of 13, then (if the burn pass did not throw) close in batches of 27. */
  function RunEvents(net: Network, hist: seq<Event>, operator: Pubkey, records: seq<Rec>): (log: PassLog)
  {
    var accounts := Eligible(records);
    var burns := PassEvents(net, hist, BurnPhase, operator, Chunks(ToBurn(accounts), BURN_BATCH_SIZE));
    if !burns.completed then burns
    else
      var closes := PassEvents(net, hist + burns.events, ClosePhase, operator, Chunks(accounts, CLOSE_ACC_BATCH_SIZE));
      PassLog(burns.events + closes.events, closes.completed)
  }

  /** The script's connection and operator key, with the trace of its calls. */
  class Session {
    const net: Network
    const operator: Pubkey
    var trace: seq<Event>

    constructor (net: Network, operator: Pubkey)
      ensures this.net == net && this.operator == operator && trace == []
    {
      this.net := net;
      this.operator := operator;
      trace := [];
    }

    /** `conn.getLatestBlockhash()`; `None` is a thrown error. */
    method GetLatestBlockhash() returns (latest: Option<Blockhash>)
      modifies this`trace
      ensures latest == net.getLatestBlockhash(old(trace))
      ensures trace == old(trace) + [if latest.Some? then BlockhashFetched(latest.value) else FetchFailed]
    {
      latest := net.getLatestBlockhash(trace);
      trace := trace + [if latest.Some? then BlockhashFetched(latest.value) else FetchFailed];
    }

    /** `conn.sendTransaction(tx, [keypair])`: on success the library has
        stamped `tx` with the blockhash pair it signed with. */
    method SendTransaction(tx: Transaction) returns (signature: Option<Signature>)
      modifies this`trace, tx`recentBlockhash
      ensures var reply := net.sendTransaction(old(trace), old(tx.Value()));
        match reply
        case None =>
          signature == None && tx.recentBlockhash == old(tx.recentBlockhash)
          && trace == old(trace) + [SendFailed(old(tx.Value()))]
        case Some(r) =>
          signature == Some(r.signature) && tx.recentBlockhash == r.stamped
          && trace == old(trace) + [Sent(old(tx.Value()), r.signature, r.stamped)]
    {
      var reply := net.sendTransaction(trace, tx.Value());
      match reply
      case None =>
        signature := None;
        trace := trace + [SendFailed(tx.Value())];
      case Some(r) =>
        trace := trace + [Sent(tx.Value(), r.signature, r.stamped)];
        tx.recentBlockhash := r.stamped;
        signature := Some(r.signature);
    }

    /** `conn.confirmTransaction(...).catch(console.error)`: the outcome is
        recorded and returned, never thrown. */
    method ConfirmTransaction(signature: Signature, blockhash: Blockhash) returns (confirmed: bool)
      modifies this`trace
      ensures confirmed == net.confirmTransaction(old(trace), signature, blockhash)
      ensures trace == old(trace) + [ConfirmDone(signature, blockhash, confirmed)]
    {
      confirmed := net.confirmTransaction(trace, signature, blockhash);
      trace := trace + [ConfirmDone(signature, blockhash, confirmed)];
    }

    /** One iteration of either pass's outer loop over `items[i..k]`: fetch a
        blockhash, add one instruction per item (the inner loop), send, and
        confirm with the pair read back from the transaction. */
    method SubmitBatch(items: seq<Rec>, i: nat, k: nat, phase: Phase) returns (completed: bool)
      requires i <= k <= |items|
      modifies this`trace
      ensures var log := BatchLog(net, old(trace), phase, operator, items[i..k]);
        trace == old(trace) + log.events && completed == log.completed
    {
      var lastBlockhash := GetLatestBlockhash();
      if lastBlockhash.None? {
        return false;
      }
      var tx: Transaction := new Transaction(operator, lastBlockhash.value);
      var j := i;
      while j < k
        modifies tx`instructions
        invariant i <= j <= k
        invariant tx.instructions == Instructions(phase, items[i..j], operator)
      {
        tx.Add(Instruction(phase, items[j], operator));
        assert items[i..j + 1] == items[i..j] + [items[j]];
        j := j + 1;
      }
      var signature := SendTransaction(tx);
      if signature.None? {
        return false;
      }
      var blockhash := tx.recentBlockhash;
      var _ := ConfirmTransaction(signature.value, blockhash);
      completed := true;
    }

    /** Either pass: the outer loop strides `i` by `size` and submits
        `items[i .. Min(i + size, |items|)]` as one transaction. */
    method SubmitBatches(items: seq<Rec>, size: nat, phase: Phase) returns (completed: bool)
      requires size > 0
      modifies this`trace
      ensures var log := PassEvents(net, old(trace), phase, operator, Chunks(items, size));
        trace == old(trace) + log.events && completed == log.completed
    {
      ghost var log := PassEvents(net, trace, phase, operator, Chunks(items, size));
      ghost var done: seq<Event> := [];
      var i := 0;
      while i < |items|
        invariant trace == old(trace) + done
        invariant log == Prepend(done, PassEvents(net, trace, phase, operator, Chunks(items[Min(i, |items|)..], size)))
        decreases |items| - i
      {
        ghost var start := trace;
        var k := Min(i + size, |items|);
        ChunksFrom(items, i, size);
        PassEventsCons(net, start, phase, operator, items[i..k], Chunks(items[k..], size));
        ghost var first := BatchLog(net, start, phase, operator, items[i..k]);
        ghost var rest := PassEvents(net, start + first.events, phase, operator, Chunks(items[k..], size));
        var ok := SubmitBatch(items, i, k, phase);
        AppendAssoc(old(trace), done, first.events);
        AppendAssoc(done, first.events, rest.events);
        done := done + first.events;
        if !ok {
          return false;
        }
        i := i + size;
        assert Min(i, |items|) == k;
      }
      assert items[Min(i, |items|)..] == [];
      completed := true;
    }

    /** The script from line 36 on, over the decoded account records. */
    method Run(records: seq<Rec>) returns (completed: bool)
      modifies this`trace
      ensures var log := RunEvents(net, old(trace), operator, records);
        trace == old(trace) + log.events && completed == log.completed
    {
      var accounts := Eligible(records);
      var tokensToBurn := ToBurn(accounts);
      ghost var t0 := trace;
      ghost var burns := PassEvents(net, t0, BurnPhase, operator, Chunks(tokensToBurn, BURN_BATCH_SIZE));
      completed := SubmitBatches(tokensToBurn, BURN_BATCH_SIZE, BurnPhase);
      if !completed {
        return;
      }
      ghost var closes := PassEvents(net, trace, ClosePhase, operator, Chunks(accounts, CLOSE_ACC_BATCH_SIZE));
      completed := SubmitBatches(accounts, CLOSE_ACC_BATCH_SIZE, ClosePhase);
      AppendAssoc(t0, burns.events, closes.events);
    }
  }
}
