# cleanup-wallet: a verified model of the burn-and-close script

`index.js` empties a Solana wallet of unwanted SPL token accounts. It reads
every token account the operator's key owns and keeps each one whose mint is
not the protected LIKE token. It then works in two passes:

- the **burn pass** burns the whole balance of every kept account that holds
  tokens, 13 accounts per transaction;
- the **close pass** closes every kept account, sending its rent deposit to
  the operator, 27 accounts per transaction.

Each batch does three things in order. It fetches a fresh blockhash, sends
a transaction that carries that blockhash and the batch's instructions, and
waits for the transaction to be confirmed.

The model has six modules:

- `Seqs`: order-keeping filtering, the stride walk as `Chunks`, and
  flattening.
- `Classifier`: token account records, `LIKE_TOKEN`, and the two filters
  `Eligible` (`accounts`) and `ToBurn` (`tokensToBurn`).
- `Transactions`: the burn and close instructions, and the `Transaction`
  class that the loops fill with `Add`.
- `Submission`: the script itself.
  - The `Session` class holds the connection and the operator key, and its
    `trace` field records every network call and its answer.
  - `SubmitBatch`, `SubmitBatches` and `Run` are the source's loops written
    as imperative methods. Each is proved against a specification function:
    `BatchLog`, `PassEvents` or `RunEvents`.
  - The cluster is a `Network` value: three functions from the trace so far
    to the answer of each call. It therefore stands for any deterministic
    behaviour of the RPC node.
- `PassProperties` and `RunProperties`: what holds for every network and
  every input.
  - The transactions handed to `sendTransaction`, whether the call answers
    or throws, follow a plan computed from the records alone.
  - The plan burns each funded eligible account once, closes each eligible
    account once, and never touches a LIKE account.
  - Calls run fetch, send, confirm, batch after batch.
  - Every burn transaction is sent and its confirmation settled before any
    close transaction is handed to `sendTransaction`, and before the fetch
    of that close transaction's blockhash.
  - The run stops at the first call that throws and only there.

Two choices about the network calls follow the code exactly:

- **Failures that end the run.** Only `confirmTransaction` has a `.catch`
  (lines 65-70 and 93-98). A `getLatestBlockhash` or `sendTransaction` that
  throws escapes the top-level `await` and ends the script. The model
  therefore ends the run at `FetchFailed` and `SendFailed`, and lets it
  continue after a rejected confirmation.
- **The blockhash used for confirmation.** The code reads
  `recentBlockhash` and `lastValidBlockHeight` back from the transaction
  after `sendTransaction` (lines 64 and 92), and the client library may
  re-stamp the transaction while signing. `Sent` therefore records the pair
  the transaction was signed with, and confirmation uses that pair.
  `PassProperties.PassConfirmsFetchedBlockhash` shows that it is the
  freshly fetched pair whenever the library keeps the blockhash it is
  given.

## Model

| member | source | states |
|---|---|---|
| Classifier.Eligible | index.js:36-45 | a record is kept exactly when its mint is not LIKE_TOKEN |
| Classifier.ToBurn | index.js:48 | an account is kept exactly when its amount is positive |
| Classifier.ClassifyCounts | index.js:36-48 | each record survives each filter as often as it occurs in the input when it passes, and never otherwise |
| Classifier.ClassifyAppend | index.js:36-48 | both filters keep input order: classifying a concatenation concatenates the classifications |
| Classifier.ClassifyOne | index.js:45-48 | a single record survives each filter exactly when it passes it |
| Classifier.ClassifyRecord | index.js:36-48 | every record is in one of three classes: protected (in neither list), eligible and empty (closed only), eligible and funded (burned and closed) |
| Transactions.Instruction | index.js:59-88 | a burn instruction targets the record's account and mint, burns its whole amount and is authorised by the operator; a close instruction targets the record's account and sends the rent to the operator |
| Transactions.InstructionsOfPhase | index.js:58-61 | the instructions built for a non-empty batch all belong to one phase |
| Transactions.Transaction.Add | index.js:60 | `tx.add` appends one instruction and leaves everything else unchanged |
| Transactions.Transaction.constructor | index.js:53-56 | a new transaction has the operator as fee payer, the fetched blockhash pair and no instructions |
| Seqs.FilterSpec | index.js:45 | a filter keeps exactly the elements satisfying its predicate, with their multiplicities, and never lengthens the list |
| Seqs.Chunks | index.js:51-58 | the stride walk cuts the list into batches of 1 to n elements, all of exactly n except the last |
| Seqs.FlattenChunks | index.js:51-61 | joining the batches gives back the list: every element is in exactly one batch, in order |
| Seqs.ChunksCount | index.js:51 | the outer loop runs ceil(len / n) times, and not at all on an empty list |
| Seqs.LastChunk | index.js:57 | `Math.min(i + n, len)` makes the last batch len mod n long, or n when n divides len |
| Submission.Session.GetLatestBlockhash | index.js:52 | the call's answer, or its failure, is appended to the trace |
| Submission.Session.SendTransaction | index.js:62 | the transaction is handed over as built; on success the signature and the signing blockhash are recorded and stamped on the transaction |
| Submission.Session.ConfirmTransaction | index.js:65-70 | a confirmation is recorded whatever its outcome and never throws |
| Submission.Session.SubmitBatch | index.js:52-70 | one outer iteration appends exactly the events of BatchLog: fetch, then send of the built transaction, then confirm; or stops at the call that threw |
| Submission.Session.SubmitBatches | index.js:51-71 | the outer loop, for either pass, appends exactly the events of PassEvents over the stride batches, and completes exactly when the pass does |
| Submission.Session.Run | index.js:36-99 | the script classifies, runs the burn pass over tokensToBurn in 13s, and then, unless it stopped, the close pass over accounts in 27s |
| PassProperties.BatchShape | index.js:52-70 | a batch is fetch-send-confirm, or fetch then a failed send, or a failed fetch; the sent transaction carries the operator, the fetched blockhash and the batch's instructions |
| PassProperties.PassBracketed | index.js:51-71 | every pass is a sequence of batches: each send comes right after the fetch of its own blockhash, each confirm right after its send with the same signature and the signing pair, and each confirm, accepted or rejected, is followed by the next fetch or by the end |
| PassProperties.PassConfirmsFetchedBlockhash | index.js:52-67 | when the library keeps the blockhash it is given, every confirmation waits on the pair fetched two calls earlier for the same batch |
| PassProperties.BatchFailure | index.js:52-70 | one batch completes exactly when neither its fetch nor its send threw, and a failure is its last event |
| PassProperties.PassStopsAtFailure | index.js:51-71 | a pass completes exactly when no fetch or send threw; a failure is always the last event; a rejected confirmation is not a failure |
| PassProperties.BatchSends | index.js:52-62 | a batch hands one transaction, with the fetched blockhash and the batch's instructions, to `sendTransaction` once its fetch answered, and none when the fetch threw; a completed batch always got that far |
| PassProperties.PassSends | index.js:51-71 | the b-th transaction a pass hands to `sendTransaction`, whether the call answered or threw, carries the operator as fee payer and exactly the b-th batch's instructions; no more transactions than batches, and one per batch when the pass completes |
| PassProperties.PassSendsOfPhase | index.js:58-62 | every transaction a pass hands to `sendTransaction`, whether the call answered or threw, is non-empty and holds only that pass's kind of instruction |
| RunProperties.RunFollowsPlan | index.js:36-99 | the transactions the run hands to `sendTransaction`, whether the call answered or threw, are a prefix of the plan (burn batches, then close batches), all of it when nothing threw |
| RunProperties.RunStopsAtFailure | index.js:51-99 | the run completes exactly when no fetch or send threw, and a failure is always its last event; a failed burn pass sends no close transaction |
| RunProperties.RunBracketed | index.js:51-99 | the whole run, across both passes, is a sequence of fetch-send-confirm batches |
| RunProperties.PassEndsWithConfirm | index.js:65-71 | a completed, non-empty pass ends with a confirmation |
| RunProperties.RunBurnsBeforeCloses | index.js:51-99 | each burn transaction's send and confirmation come before the fetch of the blockhash of any close transaction handed to `sendTransaction`, whether that send answered or threw |
| RunProperties.PlanShape | index.js:50-79 | the plan is ceil(b / 13) burn transactions of 1 to 13 burns, then ceil(a / 27) close transactions of 1 to 27 closes |
| RunProperties.PlanCoverage | index.js:51-89 | the planned transactions, joined, are one burn per funded eligible account and then one close per eligible account, in input order |
| RunProperties.PlanSparesProtected | index.js:45-88 | every planned instruction is authorised by the operator and targets an eligible record's account; a burn takes that record's whole positive balance of its own mint; a close pays the operator |
| RunProperties.ProtectedNeverTargeted | index.js:45 | with distinct account addresses, no planned instruction targets an account whose mint is LIKE_TOKEN |
| RunProperties.BatchScenarios | index.js:50-79 | 14 funded accounts are burned in transactions of 13 and 1; 30 accounts are closed in transactions of 27 and 3 |

## Left out

- Reading the keypair from `./id.json` (lines 20-22) is file I/O. The operator is the public key passed to `Session`, and signing is not modelled.
- The `Connection` set-up (lines 24-30) is left out. Its RPC URL, commitment level and five-minute confirmation timeout live inside the `Network` functions.
- The `getTokenAccountsByOwner` query and the `AccountLayout.decode` of each account's data (lines 32-38) are I/O and binary decoding. The model starts from the decoded records passed to `Run`.
- The progress lines written with `console.log` and `console.error` (lines 49, 63, 70, 74, 91 and 98) are left out.
- The network is a model: its answers are any deterministic function of the calls made so far. Timing, concurrency inside the client library, and the on-chain execution of the instructions are not modelled, so the model says nothing about whether a burn or close succeeds on chain.
- Idempotence across two runs, where a second run finds no eligible accounts, needs the ledger's behaviour and is not modelled.
- Token amounts are u64, a subset type of int. The decoder's bigint is not modelled, since the script only compares it with 0 and passes it on.
- RunProperties.ProtectedNeverTargeted: assumes the account addresses returned by the query are distinct. Without that, only PlanSparesProtected holds: every target is the address of some non-LIKE record.
- PassProperties.PassConfirmsFetchedBlockhash: holds only when the client library keeps the blockhash it is given (`KeepsBlockhash`). Otherwise the model shows only that confirmation uses the pair the transaction was signed with, which is what lines 64 and 92 read back.
