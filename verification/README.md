# A verified model of a UTXO chain with BFT voting

This project models the consensus-critical core of a small blockchain node and proves
properties of it over whole runs. The node keeps an unspent-output ledger in a key-value store,
assembles blocks from a mempool, validates and applies them, agrees on them with prevotes and
precommits, exchanges them with peers in any order, and limits what peers may send.

`dafny verify dfyconfig.toml` checks everything.

## How the model is built

Code that computes values is a function or a predicate. Code that updates state is a method or a
class whose methods are proved equal to such a function (`Blockchain.BlockChain`,
`Pool.Mempool`, `ValidatorSets.StakerSet`, `ValidatorSets.ValidatorSet`, `Quorum.VoteSet`,
`EngineObject.ConsensusEngine`, `BlockSync.BlockHandler`, `RateLimit.RateLimiter`,
`Connections.Node`, `TxHashing.Tx`). The theorems are about the functions, and so hold of the
methods.

| file | what it covers |
|---|---|
| Basics, Types | 64-bit arithmetic, sequences without repetition, sums over maps; blocks, transactions, hashes |
| Ledger, Replay | the store, one block's update, and whole runs against a replay of the transactions |
| Validation, Assembly, Conservation, Overflow | validation, block assembly, value over assembled runs, and where wrapping breaks it |
| Spending, Payments, Settlement, Records | who may spend, whose value moves, and what records carry, over whole runs |
| Links | every block points to its predecessor, and the tip hash pins the history |
| SecondGenesis | a further genesis block on a chain of height 0 |
| Pool, Blockchain | the mempool and the chain object, method by method |
| Transfer, TxHashing | building transfers, reservations, and in-place hashing |
| Merkle | the Merkle root |
| ValidatorSets, Elections | power accounting, and who is a validator, told from the history of stakes |
| Quorum, Selection | vote counts and certificates, proposer choice |
| BlockSync | blocks arriving in any order |
| Engine, EngineObject | the consensus engine as a state machine and as an object |
| Commits, Rounds, Agreement, Timeouts | when a node commits and votes, rounds that succeed, agreement, and rounds that time out |
| RateLimit, Connections | peer limits and duplicate connections |

Choices that shape the claims:

- Hashes are terms of a free algebra: different contents have different hashes, and transaction
  ids, block hashes and Merkle nodes are different kinds of term. Signature verification is an
  arbitrary predicate, and every call that signs may return a different signature. That a node's
  own signatures verify is stated where it is used (`OrderFits`, `OwnSigned`).
- Amounts, heights, rounds and powers wrap as uint64 or uint32 do. Where wrapping matters the
  results say what holds modulo 2^64 and exactly when they hold without wrapping.
- Addresses and node ids are numbers, so that `<` is the order of the fixed-width hex strings.
- Iteration over a Go map visits the keys in an arbitrary order (`Basics.Pick`, or an
  arbitrary enumeration). Every result holds for all orders.
- An error return is `false` or `None`; the texts are not modelled.
- Each handler of the engine is one atomic step, and the environment may deliver any proposal,
  vote, block, timer or delayed vote at any time, with any clock. The clock is a parameter.
- Agreement assumes that the validator set has an active member. Without one a node adds its own
  blocks without a certificate, which the state machine also does.
- A genesis transaction's id need not be the hash that validation would compute: the source hashes
  it with a nil data field and validates with an empty one. It only has to be the id of no other
  content (`Replay.WellHashed`).

Where the code and its documentation differ, the model follows the code: the transition table in
docs/consensus/state-machine.md lists transitions that consensus/engine.go does not make. Three
consequences of the code that the model keeps: votes are counted without comparing the block
hash they name, so that a tally with two thirds need not give an accepted certificate
(`Quorum.CertificateAccepted` says exactly when it does); a proposal message's height and
hash are not compared with those of the block it carries; and a staker that withdrew everything stays
inactive when it stakes again (`Elections.NeverElectedAgain`).

## Model

| member | source | states |
|---|---|---|
| `Ledger.AppliedAgrees` | core/utxo.go:23-135 | applying a block whose outputs are new keeps the store in agreement with the replay: every record is an output made so far, marked spent exactly if consumed, and every address list holds all unspent keys of its address and only keys of its address, although spent keys may stay or come back |
| `Ledger.ListingIsReplay` | core/utxo.go:138-177 | in an agreeing store, reading the list of an address gives each unconsumed output paid to it exactly once and nothing else |
| `Ledger.ReadableWhenPaid` | core/utxo.go:138-157 | in an agreeing store the read of an address succeeds exactly if it was ever paid |
| `Replay.SpendersAreNew` | core/validate.go:259-333 | an accepted transaction that spends something cannot carry the id of an earlier transaction |
| `Replay.ValidationSuffices` | core/validate.go:212-227 | where the address of every record has a list, an accepted block never makes the UTXO update fail |
| `Ledger.AppliedAddressed` | core/utxo.go:78-135 | every update leaves a list for the address of every record, also one whose outputs are put over stored ones |
| `Replay.RunsAgree` | core/block.go:185-228 | after any run of accepted blocks from genesis, with new ids for input-less transactions, the store agrees with the replay, nothing is spent twice and no transaction occurs twice |
| `Replay.IndexAgreesWithReplay` | core/utxo.go:23-177 | after any such run the listing of an address is exactly the outputs paid to it that no input consumed, each once |
| `Replay.ReadableIffPaid` | core/utxo.go:138-157 | after any such run the read of an address succeeds exactly if some transaction of the run paid it |
| `Replay.NothingTwice` | core/validate.go:290-309 | over any such run no output is consumed by two inputs and no transaction is included twice |
| `Replay.AcceptedIsAdded` | core/utxo.go:24-76 | a block accepted after any such run is always added |
| `Blockchain.BlockChain.UpdateUtxo` | core/utxo.go:23-135 | fails exactly if some input is missing, spent or without a list; otherwise the batch, executed last write wins and with the lists saved in any order, yields exactly the specified records and lists and touches nothing else |
| `Blockchain.BlockChain.GetUtxoList` | core/utxo.go:138-177 | succeeds exactly if the list exists and all its keys are stored; then it returns each unspent and, if asked, unreserved record once, in some order |
| `Blockchain.CalBalanceUtxo` | core/utxo.go:179-187 | the sum of the unspent amounts modulo 2^64 |
| `Blockchain.BalanceIsReplay` | core/utxo.go:138-187 | after any run the listed value of an address is the value of the outputs that the replay leaves it |
| `Blockchain.BlockChain.IsOnMempool` | core/mempool.go:145-158 | true exactly if some waiting transaction claims the output |
| `Blockchain.BlockChain.ValidateTransaction` | core/validate.go:259-333 | accepts exactly the transactions with a correct id, network and sizes whose inputs are stored, unspent, owned and signed and whose wrapped sums leave the minimum fee, or payouts with a positive wrapped sum |
| `Blockchain.BlockChain.ValidateAllTxSignatures` | core/validate.go:468-494 | true exactly if every input's key derives the owner's address and its signature verifies on the transaction id |
| `Blockchain.BlockChain.CalculateTxFee` | core/validate.go:361-386 | the wrapped input sum less the wrapped output sum; an error if an input is missing or the difference negative |
| `Blockchain.BlockChain.ValidateBlock` | core/validate.go:150-256 | the verdict on header, link, times, proposer, certificate and transactions, and the separate one on a genesis block |
| `Blockchain.BlockChain.AddBlock` | core/block.go:185-245 | writes block, height and ledger in one batch or nothing at all, moves the tip only forward or to a genesis block, and drops the block's transactions from the mempool |
| `Blockchain.BlockChain.SetBlock` | core/block.go:41-138 | the block assembled from candidates in fee order; what did not survive selection leaves the mempool and nothing else does |
| `Blockchain.BlockChain.SelectTxs` | core/block.go:55-103 | the selection loop, and the removal of what it dropped |
| `Blockchain.CalculateMerkleRoot` | core/transaction.go:305-319 | the root of the ids; the zero hash for no transactions |
| `Validation.ValidateDuplicateTx` | core/validate.go:92-101 | true exactly if no two transactions share an id |
| `Validation.ValidateDuplicateUtxo` | core/validate.go:104-116 | true exactly if no output is consumed twice, across transactions or inside one |
| `Assembly.MemoNamesHeight` | core/block.go:157 | the height can be read back from the coinbase memo, so coinbases of different heights differ |
| `Assembly.PickAllOk` | core/block.go:52-96 | the selection loop's used set is exactly what the survivors consume, its fees are their fees modulo 2^64, and they spend nothing twice unless one of them repeats an input |
| `Assembly.PickAllIds` | core/block.go:55-96 | survivors are candidates, without repetition |
| `Assembly.PickAllInOrder` | core/block.go:55-96 | survivors keep the order of the candidates |
| `Assembly.SurvivesExactly` | core/block.go:55-96 | a candidate survives exactly if it is valid and shares no input with an earlier survivor |
| `Assembly.DroppedExactly` | core/block.go:55-103 | what leaves the mempool is exactly the ids of the candidates that do not survive, in their order |
| `Assembly.AssembledTxs` | core/block.go:41-165 | the transactions of an assembled block pass validation exactly if at most 99 survived, none repeats an input, none has the coinbase's id, reward plus fees is not zero modulo 2^64, and the memo fits |
| `Assembly.AssembledBlockAccepted` | core/validate.go:150-230 | a signed block assembled on the tip is accepted without certificate exactly if it fits in that sense, its time is in range and its proposer is an active validator whose signature verifies |
| `Assembly.SpendersAreNotCoinbase` | core/block.go:105-111 | candidates that all have inputs never collide with the coinbase |
| `Conservation.AppliedTotal` | core/utxo.go:23-135 | a block moves the total unspent value by what it places less what it spends |
| `Conservation.FeesBalance` | core/block.go:79-94 | the collected fees are the value that the transfers leave over, modulo 2^64 |
| `Conservation.AddsReward` | core/block.go:141-165 | modulo 2^64 an assembled block adds exactly the reward, whatever wraps inside it |
| `Conservation.AddsExactly` | core/validate.go:287-325 | while the total fits in 64 bits it never grows by less than the reward, and by exactly the reward if and only if no transfer's output sum wraps |
| `Conservation.AssembledRunInv` | core/block.go:141-165 | along assembled and accepted runs ids of payouts are new without being assumed so, and the tip rises by one per block |
| `Conservation.ValueConserved` | core/block.go:41-165 | along any run of assembled and accepted blocks the total unspent value is the genesis supply plus height times reward, modulo 2^64 always, and exactly when no output sum and not that total exceeds 64 bits |
| `Overflow.TransferAccepted` | core/validate.go:287-325 | at one input: a transfer of 2 coins to outputs of 2^63, 2^63 and 1 is accepted with a fee of 1 |
| `Overflow.WrappingCreatesValue` | core/block.go:41-165 | after a valid genesis block, the block assembled from that transfer and signed by an active validator is valid and added, and the total grows by more than the reward |
| `Spending.AcceptedIsLawful` | core/validate.go:259-333 | in a store that agrees with the replay, an accepted transaction has the hash of its content, network and sizes in range, inputs that consume outputs made before and not consumed, each under a key of the owner with a signature on the id, and wrapped sums that leave the minimum fee, or is a payout with a positive wrapped sum |
| `Spending.RunsAreLawful` | core/validate.go:259-333 | over any run of accepted blocks all this holds of every transaction after genesis, with respect to the transactions before its block |
| `Spending.LeavesUnderOwnersKey` | core/validate.go:431-465 | an output leaves the live outputs of an address only through an input of the last block, with a key that derives the address and a signature that verifies under it |
| `Spending.BadSignatureRefused` | core/validate.go:457-494 | a block with one input whose signature does not verify is in no run |
| `Payments.AddressMoves` | core/utxo.go:23-135 | transactions that consume live outputs, each once, and place new ones move the live value of every address by what they pay it less what they consume of it |
| `Payments.BlockMoves` | core/utxo.go:23-135 | so does every block of every run of accepted blocks |
| `Payments.RewardFirst` | core/block.go:141-165 | the first transaction of an assembled block has no inputs and one output, of type 3, to the proposer: the reward and what the transfers leave over, modulo 2^64; its memo names the height |
| `Payments.ProposerEarns` | core/block.go:105-165 | over any assembled and accepted run the last block moves the live value of its proposer by that amount, and otherwise the value of every address only by what transfers pay it less what they consume of it |
| `Payments.BalancesMove` | core/utxo.go:138-187 | the same for the balances that the index gives before and after the block |
| `Settlement.BuiltNet` | core/transaction.go:342-451 | without overflow a built transfer takes amount and fee from the sender, brings the amount to the recipient, and moves no other address |
| `Settlement.TransferSettles` | core/transaction.go:392-408 | whenever a later block of a run includes it, the live values move by exactly that, besides what the other transactions of the block do |
| `Records.HeightsRecorded` | core/utxo.go:23-135 | after any run every record carries the height of the block that placed it and, once spent, of the block that spent it |
| `Links.AcceptedFollows` | core/validate.go:150-230 | an accepted block names the hash of the block below it, has the next height, a time not before that one's and at most two hours ahead, its own hash and root, at most 100 distinct well-hashed transactions, and an active proposer whose signature verifies |
| `Links.TipKeepsLinked` | core/block.go:185-228 | adding an accepted block at the height after the tip keeps all heights up to the tip filled with blocks that each follow the one below |
| `Links.OlderKeepsLinkedExactly` | core/block.go:185-228 | adding one at an older height keeps that exactly if it has the hash that is stored there |
| `Links.TipRunsLinked` | core/block.go:185-228 | so along every run that adds at the height after the tip the chain is linked |
| `Links.AssembledAtTip` | core/block.go:41-138 | runs of assembled blocks are such runs |
| `Links.HandlerKeepsLinked` | app/app.go:236-340 | the block handler keeps the chain linked whatever blocks arrive, never shortens it, and sends consensus past the tip when it grows |
| `Links.HashPinsHistory` | core/validate.go:165-180 | linked chains with the same hash at one height have the same headers and transaction ids at every height below |
| `SecondGenesis.HandlerImports` | app/app.go:241-254 | while the chain has height 0 the handler adds every further genesis block whose header is in order |
| `SecondGenesis.HarmlessExactly` | core/utxo.go:23-135 | such a block leaves the records as they are exactly if all its outputs are stored already, as when the same genesis block comes again |
| `SecondGenesis.HarmlessLists` | core/utxo.go:23-135 | then the lists stay as they are too |
| `SecondGenesis.AgreesExactly` | core/utxo.go:23-135 | it keeps the store in agreement with the replay exactly if its transactions have no inputs and none of its outputs takes a stored key to another address |
| `SecondGenesis.InputBreaksAgreement` | app/app.go:241-254 | at one input: after any genesis block the handler imports one whose only transaction has an input, and the store then does not agree with the replay |
| `SecondGenesis.ImportedValue` | core/utxo.go:23-135 | the unspent value afterwards is that of the outputs of both, the later ones winning |
| `SecondGenesis.AfterGenesis` | core/genesis.go:11-54 | after any genesis block the hypotheses of these results hold, and all its own outputs are there |
| `SecondGenesis.NewGenesisAdds` | core/utxo.go:23-135 | with new ids its whole payout is added to the supply |
| `Pool.Mempool.NewTransaction` | core/mempool.go:31-48 | inserts with fee 0 unless the id is waiting already |
| `Pool.Mempool.NewTransactionWithFee` | core/mempool.go:51-66 | inserts unless the id is waiting already |
| `Pool.Mempool.DelTx` | core/mempool.go:117-124 | removes exactly that id |
| `Pool.Mempool.GetTxs` | core/mempool.go:81-108 | distinct waiting transactions by falling fee, at most 100, and none left behind that pays more |
| `Pool.AllHandedOut` | core/mempool.go:81-108 | up to 100 waiting transactions are all handed out |
| `Transfer.CreateSignedTx` | core/transaction.go:342-451 | builds from the unreserved listing of the sender, or fails if that cannot be read |
| `Transfer.BuildTx` | core/transaction.go:356-451 | the inputs, payment, change and id built from a listing, each input signed by a call of its own, and the cases in which nothing is built |
| `Transfer.SignInputs` | core/transaction.go:433-448 | every input carries the signature that its own call returned; fails if any call does |
| `Transfer.CollectInputs` | core/transaction.go:373-390 | takes outputs from the front until their wrapped sum covers the required amount |
| `Transfer.ShortestPrefix` | core/transaction.go:374-390 | without overflow the prefix taken suffices if anything does, and no shorter one does |
| `Transfer.BuiltIsAccepted` | core/transaction.go:342-451 | without overflow a transaction is built exactly if the unreserved funds suffice; it spends the shortest sufficient prefix, each output once and none of them reserved, its outputs are the payment to the recipient and the rest back to the sender if there is any, it leaves exactly the fee, carries memo, data and time of the order, and is accepted in the same state |
| `Transfer.ReservationsHold` | core/utxo.go:167-171 | in every state reached by creating and inserting transfers, applying blocks and assembling blocks, no two waiting transactions share an input |
| `Transfer.NothingDroppedAsDoubleSpend` | core/block.go:63-77 | in every such state block assembly keeps all valid candidates: none is dropped as a double spend |
| `TxHashing.ValidateTxHash` | core/validate.go:390-428 | the verdict compares the id with the hash of the transaction without id and signatures; id, data and inputs are put back, nil slices included, and every signature too unless its input object is listed twice |
| `TxHashing.RestoredUnlessShared` | core/validate.go:404-415 | all signatures come back exactly if every input object that is listed twice had none; in particular when the objects are distinct |
| `TxHashing.SignaturesIgnored` | core/validate.go:388-389 | two transactions are hashed alike exactly if they agree in everything but ids and signatures |
| `Merkle.BuildMerkleTree` | core/transaction.go:321-339 | the level loop and the recursion compute the root of the paired levels |
| `Merkle.RootBinds` | core/validate.go:27-35 | two lists without repeated ids and with the same root have the same ids, whatever their lengths, if no id is zero or an inner node |
| `Merkle.RootListsIds` | core/transaction.go:305-339 | the root is a perfect tree whose leaves from left to right begin with the ids in their order |
| `Merkle.OddListCollides` | core/transaction.go:326-329 | an odd list of at least three and the same list with its last id repeated have the same root |
| `ValidatorSets.StakerSet.Add` | consensus/staking.go:37-63 | the new stake, key and total, wrapping as uint64 |
| `ValidatorSets.StakerSet.Remove` | consensus/staking.go:66-87 | refused exactly for unknown stakers and too small stakes; deactivates a staker with nothing left |
| `ValidatorSets.ValidatorSet.Add` | consensus/validator.go:95-99 | sets the member and adds its power, also when it replaces one |
| `ValidatorSets.ValidatorSet.Remove` | consensus/validator.go:102-108 | removes a known member and its power |
| `ValidatorSets.ValidatorSet.UpdateFromStakers` | consensus/validator.go:128-145 | the members are exactly the active stakers with the minimum stake, and the total is their sum |
| `ValidatorSets.ValidatorSet.LoadFromConfig` | consensus/consensus.go:141-174 | loads the entries up to the first that does not parse, all active |
| `ValidatorSets.TotalStakedIsSum` | consensus/staking.go:37-87 | over any operations the staked total is the sum of the stakes modulo 2^64, and equal to it exactly if that sum fits |
| `ValidatorSets.RebuiltTotal` | consensus/validator.go:128-145 | a rebuilt set's total is the sum of its powers and at most what is staked |
| `ValidatorSets.TotalPowerCoversSum` | consensus/validator.go:95-145 | over any operations that fit in 64 bits the validator total is at least the sum of the powers, with equality while no address is added twice |
| `ValidatorSets.RemovalNeverUnderflows` | consensus/validator.go:102-108 | after any such operations removal subtracts without wrapping |
| `Elections.StakersRemember` | consensus/staking.go:37-87 | after any operations the set knows exactly the addresses that staked, each with the balance of its stakes and withdrawals, its first key, and active unless it once withdrew everything |
| `Elections.ElectedExactly` | consensus/validator.go:128-145 | after a change of stakes the validators are exactly the addresses with at least 1000 staked that never withdrew everything, with their stake as power and their first key |
| `Elections.NeverElectedAgain` | consensus/staking.go:40-49 | an address that once withdrew everything is in no later such set, whatever it stakes |
| `Elections.LoadedExactly` | consensus/consensus.go:141-174 | a configuration that parses gives exactly its addresses, each with the last entry for it, activated |
| `Quorum.VoteSet.Add` | consensus/type.go:55-68 | counts a vote for this height, round and kind once per voter, whatever hash it names |
| `Quorum.ValidateCommitSignatures` | consensus/consensus.go:366-407 | the verdict of the scan: the first signature of each active validator counts, an invalid one refuses the whole list |
| `Quorum.TwoThirdsExact` | consensus/type.go:71-73 | without overflow the multiplied test is the two-thirds test |
| `Quorum.CertificateHasQuorum` | consensus/consensus.go:366-407 | an accepted certificate carries valid signatures by more than two thirds of the power |
| `Quorum.CertificatesIntersect` | consensus/consensus.go:366-407 | two accepted certificates share valid signers with more than a third of the power |
| `Quorum.AddVoteKeepsTally` | consensus/type.go:55-68 | the voted power stays the power of the voters modulo 2^64 |
| `Quorum.CertificateAccepted` | consensus/engine.go:811-830 | for any tally and any set, whatever wraps, a certificate built from the votes in any order is accepted exactly if the set is empty, or the active voters have two thirds and each of them has a signature that is valid for the block's hash |
| `Quorum.CertificateCountsActive` | consensus/consensus.go:384-387 | if all votes name the block, it is accepted exactly if the active voters have two thirds, although the tally counts inactive members' votes too |
| `Quorum.CountsAgree` | consensus/consensus.go:366-407 | if moreover all members are active, the running count has two thirds exactly if the certificate is accepted, whatever wraps and also when the local voter is not in the set |
| `Quorum.OtherHashRefused` | consensus/type.go:55-68 | at one input: the only validator votes for a hash, the tally has two thirds, and the certificate is accepted for that hash and refused for another |
| `Selection.GetActiveValidators` | consensus/validator.go:117-125 | each active member once, in any order |
| `Selection.SortByAddress` | consensus/selection.go:32-35 | the one ascending listing of the addresses, whatever order they came in |
| `Selection.SelectProposer` | consensus/selection.go:26-40 | the roster entry at height plus round, wrapped, modulo the number of active validators; none without any |
| `Selection.SelectProposerVrf` | consensus/selection.go:94-135 | the weighted choice by running sums of power, with its two fallbacks |
| `Selection.SelectProposerHybrid` | consensus/selection.go:140-167 | the weighted choice in round 0, the rotation from the seed afterwards |
| `Selection.AscendingUnique` | consensus/selection.go:101-103 | sorting makes the choice independent of map iteration order |
| `Selection.FallbackUnreachable` | consensus/selection.go:133-134 | if the total is the positive sum of the active powers, some running sum exceeds every target |
| `Selection.WeightedIsExact` | consensus/selection.go:94-135 | then exactly as many residues select a validator as it has power |
| `Selection.ConsecutiveHashesExact` | consensus/selection.go:94-167 | then of any total consecutive hashes, wherever they start, exactly as many select a validator as it has power, in the weighted mode and in round 0 of the hybrid mode |
| `Selection.UniformWithoutPower` | consensus/selection.go:114-118 | with a total of 0, of as many consecutive hashes as there are active validators exactly one selects each |
| `BlockSync.BlockHandler.HandleBlock` | app/app.go:236-340 | imports a genesis block on an empty chain, skips known heights, stores blocks ahead of the next, and otherwise grows the chain and drains |
| `BlockSync.BlockHandler.DrainPending` | app/app.go:308-339 | adds pending blocks while the next one is there and accepted; terminates because every turn removes an entry |
| `BlockSync.AcceptIsRegular` | core/validate.go:65-80 | a later clock accepts no less, and an accepted block above the tip becomes the tip |
| `BlockSync.DeliveriesSync` | app/app.go:236-340 | after any deliveries of the blocks of a valid extension the chain holds exactly those before the first one missing, and exactly the delivered ones after it are pending |
| `BlockSync.SameBlocksSameState` | app/app.go:236-340 | deliveries of the same blocks, in any order and with any repeats, lead to the same chain, ledger and pending blocks |
| `BlockSync.OrderIrrelevant` | app/app.go:236-340 | once all blocks have come the chain and ledger are those of in-order delivery and nothing is pending |
| `EngineObject.ConsensusEngine.OnProposal` | consensus/engine.go:431-516 | handles a proposal as the state machine says |
| `EngineObject.ConsensusEngine.OnVote` | consensus/engine.go:519-598 | counts a relevant vote, and commits or votes on when it completes two thirds |
| `EngineObject.ConsensusEngine.OnCast` | consensus/engine.go:601-755 | a delayed vote is cast unless height or round have changed |
| `EngineObject.ConsensusEngine.CommitProposed` | consensus/engine.go:792-858 | puts the precommits on the proposed block, validates it with them and adds it, or goes to the next round |
| `EngineObject.ConsensusEngine.OnTimeout` | consensus/engine.go:892-993 | a live timeout leaves the round, drops votes and proposal, and proposes if it is this node's turn; after three in a row it goes to the height after the tip instead if the chain has grown during the call; a block it proposes was assembled on the tip and signed |
| `EngineObject.ConsensusEngine.OnTick` | consensus/engine.go:174-263 | does nothing before the block interval is over; adds an own block if no validator is active; otherwise follows the chain height, then proposes or waits for a proposal; the block added or proposed was assembled on the tip and signed |
| `EngineObject.ConsensusEngine.ProduceSolo` | consensus/engine.go:266-324 | adds a block assembled on the tip and signed, without validating it, and goes to the next height |
| `EngineObject.ConsensusEngine.Draft` | consensus/engine.go:327-381 | a block assembled on the tip from candidates of the mempool, by the local validator if there is one, and signed |
| `EngineObject.ConsensusEngine.BuildBlock` | consensus/engine.go:327-381 | the block assembled on the given parent, signed if signing works |
| `EngineObject.ConsensusEngine.OnBlock` | app/app.go:236-340 | runs the block handler and moves consensus to the height after the last block added |
| `Engine.RunKeeps` | consensus/engine.go:519-993 | a property of the chain that accepted blocks keep holds in every reachable state, whatever the environment does |
| `Engine.RunTallies` | consensus/engine.go:519-755 | in every reachable state both vote sets exist or neither does, they are for one height and round, and each counts exactly the power of its voters, whose signatures are valid |
| `Engine.ReachableCertificate` | consensus/engine.go:811-830 | in every reachable state, if all precommits name one hash, the certificate from them passes, in any order, exactly if the active voters have two thirds |
| `Engine.ReachableCountsAgree` | consensus/engine.go:811-830 | with all members active the running count then has two thirds exactly if that certificate passes |
| `Commits.ReachableSteady` | consensus/engine.go:519-993 | in every reachable state the tallies count their voters and every block that is accepted can be added |
| `Commits.HeardPrecommit` | consensus/engine.go:519-598 | what a precommit does, case by case, in terms of the votes counted: nothing decided, refused and on to the next round, or committed |
| `Commits.UnheardIgnored` | consensus/engine.go:519-554 | a vote for another height or round, by a stranger or with a bad signature changes nothing |
| `Commits.DecidingVoteCommits` | consensus/engine.go:585-597 | the precommit that completes two thirds, all for a proposed block that is valid on the tip, adds that block with these precommits as its certificate; the tip rises by one, and the node is at the next height in round 0 with nothing proposed |
| `Commits.OwnDecidingVoteCommits` | consensus/engine.go:601-755 | the same when it is the node's own |
| `Commits.ChainChangesOnlyOnDecision` | consensus/engine.go:519-598 | a vote changes the chain only if it is such a precommit, and then to what accepting the proposed block with the precommits gives |
| `Commits.ChangeIsCertified` | consensus/engine.go:792-858 | and then the active voters have two thirds and each signed the hash of the block |
| `Commits.QuorumCommits` | consensus/engine.go:519-598 | precommits for the proposed block by validators with more than two thirds of the power commit it, in whatever order they arrive |
| `Commits.ReachableQuorumCommits` | consensus/engine.go:519-598 | so in every reachable state |
| `Commits.PrevotesQueuePrecommit` | consensus/engine.go:560-583 | a prevote queues a precommit for its hash exactly if two thirds are reached with it, and touches nothing but votes, queue and phase |
| `Commits.QueuedVote` | consensus/engine.go:601-755 | a queued vote is counted like any other if height and round are still those it was decided on, and dropped otherwise; nothing else is cast |
| `Commits.ProposalTakenUp` | consensus/engine.go:431-516 | a proposal is voted on exactly if it is for the height after the tip, by the expected proposer and valid; an invalid one moves the round and any other changes nothing |
| `Commits.TickProposes` | consensus/engine.go:174-263 | on its turn a node that can send proposes, opens the voting and queues its prevote |
| `Commits.TickProposesUnsent` | consensus/engine.go:384-428 | without peers or when sending fails it proposes and does not vote |
| `Commits.TickDoesNothing` | consensus/engine.go:174-263 | nothing happens within a second of the last block, nor when this height's proposal is there |
| `Commits.TickCatchesUp` | consensus/engine.go:174-263 | a node at another height acts as in round 0 of the height after the tip |
| `Commits.TickAwaits` | consensus/engine.go:174-263 | on another's turn it opens empty vote sets unless it has some for the height |
| `Commits.TimeoutPassesTurn` | consensus/engine.go:892-970 | a live timeout opens the voting on an own proposal if the next round is the node's turn, and clears it otherwise |
| `Commits.SoloProduces` | consensus/engine.go:266-324 | without active validators a node adds its own block and goes to the next height |
| `Commits.SeedIsTip` | consensus/engine.go:205-223 | the proposer choice is seeded with the hash of the block at the tip |
| `Commits.SyncMovesOn` | app/app.go:236-340 | when blocks from peers make the chain grow, consensus goes to round 0 of the height after the tip |
| `Rounds.OwnBlockValid` | consensus/engine.go:327-381 | the block that a validator builds on a linked chain is valid on the tip exactly if it fits, the validator is active and its signature verifies |
| `Rounds.RoundCommits` | consensus/engine.go:431-598 | a valid proposal by the expected proposer and then precommits by more than two thirds, in any order, commit the block |
| `Rounds.HonestRoundCommits` | consensus/engine.go:327-598 | so in every reachable state with a linked chain for the block that the expected proposer builds, if it fits |
| `Agreement.AcceptKeepsCertified` | core/validate.go:200-205 | adding a validated block keeps a certificate behind every height from 1 on, because the hash pins the height |
| `Agreement.ReachableCertified` | consensus/engine.go:811-838 | in every reachable state of a node that started from a certified chain, every block of height 1 or more is hashed, stands at its height and carries an accepted certificate |
| `Agreement.AccountableAgreement` | consensus/consensus.go:366-407 | for any two nodes with the same validator set, of which some member is active, in any reachable states, different hashes at one height of 1 or more mean that validators with more than a third of the power have valid signatures on both |
| `Timeouts.TimeoutMoves` | consensus/engine.go:892-970 | a live timeout during which no block arrives advances the round by exactly one, a stale one not at all, and neither touches height or chain |
| `Timeouts.GrowthNoticed` | consensus/engine.go:924-936 | the third timeout in a row goes to the height after the tip, round 0, if the chain has grown during it |
| `Timeouts.RoundCounts` | consensus/engine.go:892-970 | while only timeouts move the round, it is the number of live timeouts further on |
| `Timeouts.RoundRobinRotates` | consensus/selection.go:26-40 | round-robin choice goes around the roster as long as no counter wraps |
| `Timeouts.HybridRotates` | consensus/selection.go:140-167 | hybrid choice does so from round 1 on |
| `Timeouts.TimeoutsReachEveryone` | consensus/engine.go:892-970 | over as many consecutive rounds as there are active validators, each of them is the expected proposer in exactly one round, and that round is reached, if the choice goes around the roster |
| `Timeouts.RoundRobinReachesEveryone` | consensus/selection.go:26-40 | so in round-robin mode, from any round, as long as no counter wraps |
| `Timeouts.HybridReachesEveryone` | consensus/selection.go:140-167 | and in hybrid mode from round 1 on |
| `RateLimit.RateLimiter.AllowMessage` | p2p/ratelimit.go:148-184 | the verdict and the peer's new tokens, refill time, ban and windows; other peers are untouched |
| `RateLimit.RateLimiter.CheckMessageType` | p2p/ratelimit.go:187-217 | the window counter of a message type |
| `RateLimit.RateLimiter.CleanupStale` | p2p/ratelimit.go:110-124 | removes exactly the peers not refilled for more than ten minutes |
| `RateLimit.AllowMatches` | p2p/ratelimit.go:148-217 | a message's verdict and effect depend only on available tokens, unexpired windows and a ban still in force |
| `RateLimit.StaleLooksNew` | p2p/ratelimit.go:110-145 | a peer old enough to be removed behaves like one never seen |
| `RateLimit.CleanupUnobservable` | p2p/ratelimit.go:110-217 | with a non-decreasing clock, burst at most 600 seconds of rate and bans of at most 600 seconds, every interleaving of cleaning with messages gives the allow/deny sequence of the run without cleaning |
| `RateLimit.UnobservableExactly` | p2p/ratelimit.go:110-217 | for whole-numbered burst and rate, cleaning is unobservable in all runs exactly if the burst is 0, or at most 600 times the rate with bans of at most 600 seconds |
| `RateLimit.BurstObserved` | p2p/ratelimit.go:110-145 | if a burst is not regained in 600 seconds, a burst, cleaning and a second burst show it |
| `RateLimit.BanObserved` | p2p/ratelimit.go:155-173 | if a ban is longer, a burst, a refused message, cleaning and a further message show it |
| `RateLimit.RateBound` | p2p/ratelimit.go:148-184 | in any interval of length d one peer has at most burst plus rate times d messages allowed: in every run without cleaning, and in every run with it if the burst is at most 600 seconds of rate, whatever the ban |
| `RateLimit.RateBoundExactly` | p2p/ratelimit.go:110-184 | for whole-numbered burst and rate this holds in all runs exactly if the burst is at most 600 times the rate |
| `RateLimit.CleaningBreaksBound` | p2p/ratelimit.go:110-145 | otherwise a burst, cleaning when it is due and a second burst exceed it |
| `RateLimit.CleaningAllowsSecond` | p2p/ratelimit.go:110-145 | the smallest case: rate 0, burst 1, messages at 0 s and 601 s with cleaning at 601 s, two allowed against a bound of one |
| `RateLimit.KindBound` | p2p/ratelimit.go:187-217 | in any interval shorter than a second at most twice the limit of a type is allowed, however often peers are cleaned and whatever the other settings |
| `RateLimit.KindBounds` | p2p/ratelimit.go:219-235 | the same for block requests, transactions, proposals and votes, each with its own setting |
| `RateLimit.AllowedExactly` | p2p/ratelimit.go:148-235 | a message is allowed exactly if the peer is not banned, has a token and is below the setting for the kind, 0 meaning none; it then costs one token and is counted in its window of a second; without a token the peer is banned; other peers stay as they are |
| `Connections.Node.Add` | p2p/node.go:495-525 | on a duplicate the connection dialled by the lower id wins and the replaced one is closed |
| `Connections.Node.HandleHandshake` | p2p/node.go:397-404 | a rejected connection is closed |
| `Connections.Node.Remove` | p2p/node.go:530-544 | removes the entry unless another connection has replaced it |
| `Connections.SurvivorStays` | p2p/node.go:365-413 | when two nodes dial each other, in whatever order handshakes and closes arrive, the connection dialled by the lower id is never closed and stays registered once it is |
| `Connections.Converges` | p2p/node.go:495-544 | once all events are handled both tables hold exactly that connection for each other, their other entries unchanged, and only the other connection is closed |
| `Connections.EventsRunOut` | p2p/node.go:495-544 | every event brings the two nodes closer to that state, so it is reached |

## Left out

- LevelDB, gob and JSON encoding and key strings: the store is a record of typed maps, and decoding errors do not occur.
- ECDSA, SHA-256, Keccak and wallet files: foreign calls, see the choices above. The seeds of the weighted choice are arbitrary numbers.
- Transaction records, account records and transaction lists: written and read back without further logic, so only easy members.
- `ComposeAndAddBlock` and `commitBlock`: they add blocks without a certificate, outside the runs considered here.
- `SelectProposerWeighted`: unused in the source, and its result follows map order.
- REST and WebSocket servers, logging, configuration files, TCP framing, read deadlines and peer exchange: I/O.
- Sleeps and interleavings inside a handler: a handler is one atomic step, except that blocks may arrive between the two height reads of a round timeout.
- Starting and stopping round timers: a timeout may arrive with any height and round at any time, which includes every timer.
- Liveness beyond one round: that proposals and votes arrive, and that no validator precommits something else, is assumed where a commit is claimed. Agreement under the assumption of an honest supermajority: the engine carries no lock between rounds.
- Connections.Converges: read timeouts and network failures that close a connection from outside are not events of the model.
- Replay.RunsAgree: runs have one genesis block; what a further one does is in SecondGenesis.
- RateLimit.RateLimiter.AllowMessage: peers are values in a map, floating-point rounding is not modelled, and the two clock reads of one call are one; for a new peer a later second read gives the same state, because its bucket is full.
- Transfer.ReservationsHold: transactions received from peers or through `SubmitTx` are not steps of these runs, only created and inserted transfers, applied blocks and assembled blocks.
- Blockchain.BlockChain.ValidateTransaction: transactions are values here; the in-place blanking of ids and signatures is in TxHashing. `ValidateBlockHash`, which works on a copy, is the comparison alone.
- Timeouts.TimeoutsReachEveryone: nothing is claimed for the weighted mode, which draws every round anew, nor for round 0 of the hybrid mode.
