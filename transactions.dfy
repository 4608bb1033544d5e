/** Instructions and transactions as the cleanup script builds them
    (index.js lines 53-61 and 77-89). */
module Transactions {
  import opened Classifier

  /** The pair `getLatestBlockhash` returns and a transaction carries. */
  datatype Blockhash = Blockhash(blockhash: string, lastValidBlockHeight: nat)

  type Signature = string

  /** The two SPL token instructions the script emits. */
  datatype Instr =
    | Burn(account: Pubkey, mint: Pubkey, authority: Pubkey, amount: u64)
    | Close(account: Pubkey, destination: Pubkey, authority: Pubkey)

  /** Which of the two passes is running. */
  datatype Phase = BurnPhase | ClosePhase

  /** `createBurnInstruction(pubkey, mint, operator, amount)` in the burn pass,
      `createCloseAccountInstruction(pubkey, operator, operator)` in the close pass. */
  function Instruction(phase: Phase, r: Rec, operator: Pubkey): (ix: Instr)
    ensures ix.account == r.pubkey && ix.authority == operator
    ensures phase == BurnPhase <==> ix.Burn?
    ensures ix.Burn? ==> ix.mint == r.mint && ix.amount == r.amount
    ensures ix.Close? ==> ix.destination == operator
  {
    match phase
    case BurnPhase => Burn(r.pubkey, r.mint, operator, r.amount)
    case ClosePhase => Close(r.pubkey, operator, operator)
  }

  /** One instruction per record, in record order. */
  function Instructions(phase: Phase, recs: seq<Rec>, operator: Pubkey): (ixs: seq<Instr>)
  {
    seq(|recs|, j requires 0 <= j < |recs| => Instruction(phase, recs[j], operator))
  }

  /** The instructions built for a non-empty batch form a transaction of its phase. */
  lemma InstructionsOfPhase(phase: Phase, recs: seq<Rec>, operator: Pubkey)
    requires recs != []
    ensures IsPhaseBatch(Instructions(phase, recs, operator), phase)
  {
    forall ix | ix in Instructions(phase, recs, operator)
      ensures OfPhase(ix, phase)
    {
      var j :| 0 <= j < |recs| && Instructions(phase, recs, operator)[j] == ix;
    }
  }

  lemma InstructionsAppend(phase: Phase, a: seq<Rec>, b: seq<Rec>, operator: Pubkey)
    ensures Instructions(phase, a + b, operator) == Instructions(phase, a, operator) + Instructions(phase, b, operator)
  {
  }

  /** An instruction belongs to `phase`. */
  predicate OfPhase(ix: Instr, phase: Phase)
  {
    ix.Burn? <==> phase == BurnPhase
  }

  /** A transaction as a value: the state a `Transaction` object is in when it
      is handed to the network. */
  datatype TxValue = TxValue(feePayer: Pubkey, recentBlockhash: Blockhash, instructions: seq<Instr>)

  /** The instruction list of a transaction of `phase`: non-empty, and
      every instruction of that phase. */
  predicate IsPhaseBatch(instrs: seq<Instr>, phase: Phase)
  {
    |instrs| > 0 && forall ix :: ix in instrs ==> OfPhase(ix, phase)
  }

  /** `new Transaction({ feePayer, ...lastBlockhash })` and its `add` method. */
  class Transaction {
    const feePayer: Pubkey
    var recentBlockhash: Blockhash
    var instructions: seq<Instr>

    constructor (feePayer: Pubkey, latest: Blockhash)
      ensures this.feePayer == feePayer && recentBlockhash == latest && instructions == []
    {
      this.feePayer := feePayer;
      recentBlockhash := latest;
      instructions := [];
    }

    method Add(ix: Instr)
      modifies this`instructions
      ensures instructions == old(instructions) + [ix]
    {
      instructions := instructions + [ix];
    }

    function Value(): TxValue
      reads this
    {
      TxValue(feePayer, recentBlockhash, instructions)
    }
  }
}
