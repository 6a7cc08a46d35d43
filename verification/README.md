# MOST: a model of the guardian bridge between Aleph Zero and Ethereum

MOST moves tokens between two chains. A contract on the source chain locks or burns tokens and emits a numbered
request; guardians watch finalized blocks and vote for the hash of that request on the destination chain; when the
votes of one committee reach its threshold, the destination contract mints, releases or unwraps the tokens. This
project models the bridge in Dafny and proves what it is for: a request is executed only if the other chain emitted it,
at most once, and everything wrapped is covered by something locked.

`dafny verify dfyconfig.toml` checks all of it.

## How the parts fit

| module | models |
|---|---|
| `Collector` | the abstract vote machine: hash to set of signers, executed set, emitted events, execution log |
| `InkMost`, `SolidityMost` | the two contracts with their own storage, as classes; each message is proved equal to a step of the abstract machine and of the token ledger |
| `Treasury` | what the four bridge contracts (two on L1, two on L2) take in and pay out |
| `Effects` | what sends, payouts and votes mean for balances, events and signatures: when exactly they go through |
| `Protocol` | two contracts, honest and faulty guardians, users, an owner; any interleaving |
| `Backing` | slack of every asset, its exact change in every move, backing in every run, size of the rounding dust |
| `Delivery` | where every event of a run comes from, and that enough votes execute and pay it |
| `Rewards`, `Fees` | native coins of the ink! contract: fees, shares, pocket money; the base fee under any oracle |
| `Committees` | the two committee checks and committee storage |
| `Preimage` | the hashed bytes, on the contracts and in the relayer |
| `Messages` | what a message to a contract object does to the run of the protocol |
| `Dormancy` | home tokens that are not marked as local yet |
| `Bridge`, `BridgeL2` | both contract objects of the L1 and of the L2 bridge, constructed, configured and driven by any sequence of messages: their storage follows the runs of `Protocol` |
| `Reentrancy` | calls that re-enter a contract at every external call, over stored nonces, votes and tokens |
| `Blocks`, `EthPipeline`, `AzeroPipeline`, `EventHandlers` | the relayer |
| `Guardian` | pipeline and event handler together: what the stored block number says about a guardian's votes |
| `L2`, `InkMostL2` | the two contracts of the L2 bridge, as classes: `MostL2.sol` with its swaps and coins, and the ink! contract |

The contract classes are tied to the protocol by their `View`: `InkMost.Most.ReceiveRequest` and
`SolidityMost.AbstractMost.ReceiveRequest` end in the state `Treasury.Submit` gives, the send methods in the state
`Treasury.Dispatch` gives. `Bridge.Launch` constructs the two L1 contracts, configures the native coins and calls
`Bridge.Drive`, which sends them any sequence of messages and shows that the pair of their views is a state of
`Protocol.Run`, so that the theorems about runs hold of the storage of the contracts. A relaying guardian there reads
the other contract's event log and votes for what it finds. Addresses of native tokens, pairs and local marks may be
set at any time along the way: a home token without a mark has no pair, so nothing of it is wrapped or in flight.
`BridgeL2.Launch` does the same for the two contracts of the L2 bridge, beside a pool that may pay anything above the
accepted minimum or fail.

Messages are atomic in `Protocol`. `Reentrancy` drops this: a send or an executing vote is a tree of calls, the nonce is
read from storage and bumped where the code does so, tokens come in, are burned and paid out in separate steps, and
other calls run in between. Trees without nested calls are the moves of `Protocol`.

## Hypotheses of the protocol theorems

They are all visible in `Protocol.WellDeployed`, `Protocol.Genesis` and `Protocol.Allowed`, and for the contract objects
in `Bridge.Lawful` and `BridgeL2.Lawful`.

- The hash of each chain does not collide on the requests that occur; `Preimage` derives this from the absence of Keccak
  collisions alone.
- In every committee there are fewer faulty members than the threshold. Faulty members may submit anything, honest ones
  vote only for events of the other chain.
- The pairs of the two contracts mirror each other, one side of a pair is local and the other is not, and AZERO is not
  among the supported pairs of Ethereum.
- Tokens move exactly the requested amount, and nobody holds more of a token than there is. Only the bridge mints and
  burns wrapped tokens. Anybody may donate to the bridge, and tokens that are at home on a chain may be minted and burned
  by others.
- Requests to Aleph Zero fit its types: committee, amount and nonce are below 2^128. (The relayer's `as_u128` gives up on
  larger ones.) With `Preimage.InkSchemeCollisionFree` as the source of the hypothesis on hashes, a send of 2^128 or more
  on Ethereum is no move of the model.
- Local marks are set only for tokens that are at home on the chain, and are not taken back.
- No `recover_*` message and no code upgrade.
- Committees and pairs may change at any moment, which is more than the contracts allow (they must be halted).

## What the code does not guarantee

- Ack without success. The Aleph Zero events handler acknowledges a batch after all its tasks have returned, even if one
  failed. `AzeroPipeline.FailedEventCanBePassed` is a run in which the checkpoint passes such an event;
  `AzeroPipeline.RunHandledIff` says exactly which acknowledgements do no harm over a whole run, and
  `AzeroPipeline.HandledBelowCheckpointIff` exactly when everything below the checkpoint was handled.
- Two views of the chain. `handle_event` reads committee membership at the latest block and `needs_signature` at the
  finalized one. `EventHandlers.UnfinalizedRotation` shows a guardian whose signature is needed and that is told it is
  not. `not_in_committee` in turn makes two reads; `EventHandlers.RotationBetweenReads` is a rotation that lands between
  them, after which the handler returns Ok although the signature is needed. `EventHandlers.HandleEvent` gives, for both
  kinds of Ok, the exact condition under which "not needed" is permanent, through `Collector.UnneededForeverIff`.
- Thresholds above 2^32. `threshold as usize` drops high bits on 32-bit wasm: `Committees.TruncationAccepts` and
  `Committees.ReachableThresholdIff`.
- Wrapped ids. `committee_id + 1` wraps in 128 bits. `Committees.WrappedIdMixes` shows an old member who counts as a
  member of the new committee; `Committees.StoreOverIff` says when reusing an id does no harm.
- Oracle limits that do not enclose the default price bind nothing: `Fees.PriceWithinLimitsIff`.
- The pseudo-code of docs/relayer_hldd.md queries the latest state before the finalized one; the handlers query the
  finalized one first, and the model follows the handlers.

## Model

| member | source | states |
|---|---|---|
| Protocol.Authenticity | docs/most_overview.md:7-12 | In every run of the two chains, every executed request is an event the other chain emitted, and no request is executed twice |
| Protocol.QuorumIsAuthentic | azero/contracts/most/lib.rs:494-594 | A quorum holds an honest signature, so its request was emitted by the other chain |
| Protocol.OutboundKeeps | azero/contracts/most/lib.rs:323-391 | Any send, accepted or refused, keeps the protocol invariant on both chains |
| Protocol.GuardKeeps | eth/contracts/AbstractMost.sol:295-341 | Any submission of any guardian, honest or faulty, keeps the protocol invariant on both chains |
| Protocol.GuardKeepsSide | azero/contracts/most/lib.rs:538-593 | An accepted vote keeps quorums, log, honesty of ballots and pairs of the side it is cast on |
| Protocol.CastKeepsHonesty | relayer/relayer/src/handlers/eth.rs:82-172 | After any vote, every honest signature is still for a request of the source chain |
| Protocol.RotateKeeps | azero/contracts/most/lib.rs:1155-1183 | A committee rotation keeps the protocol invariant, and the ballots of old committees with it |
| Protocol.ApplyKeeps | docs/most_overview.md:7-12 | Every kind of move on either chain keeps the protocol invariant |
| Protocol.RunKeeps | docs/most_overview.md:7-12 | The protocol invariant holds after every sequence of moves |
| Protocol.CountersBounded | azero/contracts/most/lib.rs:370-374 | Events and committees grow by at most one per move, so no run of fewer than 2^128 moves reaches a counter that wraps or overflows |
| Protocol.LogIsAuthentic | eth/contracts/AbstractMost.sol:320-340 | Under the invariant, the whole execution log consists of events of the other chain |
| Delivery.EventsAreSends | azero/contracts/most/lib.rs:370-388 | In every run each event was announced by an accepted send of its own chain, for the receiver and amount of that caller, under the committee current at that moment, with the next nonce |
| Delivery.SendAnnounces | eth/contracts/AbstractMost.sol:174-182 | An accepted send emits exactly one event: the counterpart of the token, the amount, the receiver of the caller, the current committee |
| Delivery.VotesDeliver | eth/contracts/AbstractMost.sol:295-341 | An event of the other chain that as many members vote for as the threshold asks is executed and paid out, provided the payout works |
| Collector.VotesExecute | azero/contracts/most/lib.rs:538-591 | The vote that makes the signatures as many as the threshold executes the request, and none before it does |
| Backing.BackedAlways | docs/most_overview.md:7-12 | In every reachable state the tokens held at home cover wrapped supply plus all amounts in flight in both directions, for ordinary tokens, WETH, AZERO across 12 and 18 decimals, and the L2 pair |
| Effects.TokenSend | eth/contracts/AbstractMost.sol:150-183 | A token send goes through exactly when the bridge is open, the receiver is not zero, the pair exists and the caller owns the positive amount; it locks or burns exactly that and emits exactly that request |
| Effects.CoinSend | azero/contracts/most/lib.rs:453-490 | Sending native coins wraps and locks exactly the amount; AZERO to Ethereum is promised at 10^6 times the amount, at most 2^128 - 1 |
| Effects.SwappedSend | eth/contracts/MostL2.sol:229-254 | Bridged AZERO bought from the pool is burned and promised in full |
| Effects.ForeignSend | eth/contracts/AbstractMost.sol:222-246 | Sending the representation of the coin of the other chain burns it and asks for the coin |
| Effects.InkPays | azero/contracts/most/lib.rs:557-578 | When unwrapping, releasing and minting work, and which token moves by how much |
| Effects.SolidityPays | eth/contracts/AbstractMost.sol:254-288 | The same on Ethereum, with payouts that are refused |
| Effects.InkL2Pays | azero/contracts/most-l2/lib.rs:437-446 | The same for the ink! contract of L2 |
| Effects.SolidityL2Pays | eth/contracts/MostL2.sol:110-183 | The same for the Solidity contract of L2, with swaps that are refused |
| Effects.VoteMeans | azero/contracts/most/lib.rs:494-594 | A vote goes through exactly when it is valid and, if it is the last one, payable; it adds one signature and, if last, executes and pays |
| Backing.SlackRun | docs/most_overview.md:7-12 | Over any run the slack of an asset changes by exactly the sum of the surpluses of its moves, which is never negative |
| Backing.SlackStep | azero/contracts/most/lib.rs:557-591 | Conservation: one move changes the slack of any asset by exactly its surplus, never below zero |
| Backing.ReleaseAlwaysFunded | eth/contracts/AbstractMost.sol:254-288 | In every reachable state the payment of any event still to be executed at home goes through unless the called contracts refuse it: neither holdings nor supply fall short |
| Backing.DustBound | azero/contracts/most/lib.rs:562-564 | Without saturation, donations and refused releases the slack grows by less than 10^6 units per released request for AZERO, however many other tokens are released, and not at all for equal decimals |
| Backing.MirroredTransfer | azero/contracts/most/lib.rs:398-490 | Every send of every contract takes in at least what it promises (exactly that, if it burns), and its request pays out the counterpart on the other chain |
| Backing.OutboundSlack | azero/contracts/most/lib.rs:453-490 | A send raises the slack of an asset at home by exactly the scaled deposit minus the promised amount, zero unless the multiplication saturates, and not at all abroad |
| Backing.TakeInChange | eth/contracts/AbstractMost.sol:166-174 | Locking tokens adds their scaled value to the slack at home and nothing abroad |
| Backing.BurnChange | eth/contracts/AbstractMost.sol:222-246 | Burning adds exactly the promised amount abroad; nothing local is burned |
| Backing.EmitChange | eth/contracts/AbstractMost.sol:166-182 | Emitting the request takes exactly the promised amount out of the slack of its asset and of no other |
| Backing.GuardSlack | eth/contracts/AbstractMost.sol:260-288 | Executing a request raises the slack at home by the division remainder, or by the whole amount if the release was refused or went to the bridge itself; abroad minting moves the amount from in-flight to supply |
| Backing.VoteChange | eth/contracts/AbstractMost.sol:320-340 | Marking a request as processed takes its worth out of flight before it is paid; other votes change nothing |
| Backing.PaymentChange | eth/contracts/AbstractMost.sol:254-288 | Paying takes the worth out of the slack again, up to the stated leftover |
| Backing.InFlightExecute | azero/contracts/most/lib.rs:581-591 | Executing one event takes exactly its amount out of flight and no other event's |
| Backing.ExecutedLeavesFlight | eth/contracts/AbstractMost.sol:320-340 | A vote that reaches the quorum is for an event of the other chain and takes its worth out of flight; any other vote executes nothing |
| Backing.FreshEventInFlight | eth/contracts/AbstractMost.sol:166-182 | A newly emitted request is not executed yet, so its whole worth is in flight |
| Backing.RunKeepsCovered | azero/contracts/most/lib.rs:557-578 | In every run the bridges hold no more of a token than its supply |
| Backing.HomePayment | azero/contracts/most/lib.rs:557-578 | A release or unwrap lowers the bridge's holding by the request's worth, up to the stated leftover |
| Backing.ExactTransfer | azero/contracts/most/lib.rs:459-489 | Without saturation a local send promises exactly the scaled value of what it takes in |
| Backing.CleanSurplus | azero/contracts/most/lib.rs:562-564 | A clean move leaves at most one remainder below the scale, and only when it pays out a request in this very token |
| Collector.CoreRunKeeps | azero/contracts/most/lib.rs:538-591 | Quorum invariant in every run: pending hashes have fewer signers than the threshold, executed ones exactly the threshold, all of them members of the hashed committee; the k-th event has nonce k - 1; nothing is executed twice |
| Collector.CastKeepsQuorum | azero/contracts/most/lib.rs:538-556 | One accepted vote keeps every ballot exact, including the one it completes |
| Collector.CastKeepsLog | azero/contracts/most/lib.rs:581-591 | The log lists every executed request and none twice, after any vote |
| Collector.EmitKeeps | azero/contracts/most/lib.rs:370-388 | Emitting a request keeps nonces equal to positions and every ballot exact |
| Collector.UnneededForeverIff | azero/contracts/most/lib.rs:966-987 | `needs_signature` stays false after every sequence of messages if and only if the hash is executed, or signed by the member, or the committee is installed without the member |
| Collector.SettledForever | eth/contracts/AbstractMost.sol:409-424 | No message, rotation included, can make a settled signature needed again |
| Collector.CommitteesForever | azero/contracts/most/lib.rs:1169-1174 | Installed committees never change |
| InkMost.Most.CommitteeIntegrity | azero/contracts/most/lib.rs:1155-1183 | In every valid state, every stored committee id has a size equal to the number of its members and a positive threshold, which is within the size if (and for fewer than 2^32 members only if) it fits in 32 bits |
| SolidityMost.AbstractMost.CommitteeIntegrity | eth/contracts/AbstractMost.sol:120-142 | In every valid state, every stored committee id has a size equal to the number of its members, none of them zero, and 1 <= threshold <= size |
| Committees.StoredCount | azero/contracts/most/lib.rs:1165-1180 | The recorded size of an installed committee is the number of marks stored under its id |
| InkMost.StoreVote | azero/contracts/most/lib.rs:538-591 | Count, signature and processed maps after a vote (entry removed at the quorum) describe exactly the abstract ballots after it, and the stored count is the number of distinct signers |
| InkMost.Most.constructor | azero/contracts/most/lib.rs:248-319 | A deployed contract represents the fresh abstract state, halted, with sound accounts, the given owner and configuration, and no pairs, marks or native tokens |
| InkMost.Most.ReceiveRequest | azero/contracts/most/lib.rs:494-594 | Succeeds exactly when not halted, the caller is a member, and a needed vote has the right hash and a payable quorum; a needed vote is exactly the abstract submission, anything else changes nothing; accounts stay sound |
| InkMost.Most.Screen | azero/contracts/most/lib.rs:503-536 | The checks in their order: which calls are refused, which return early without effect, which count as a vote |
| InkMost.Most.CountVote | azero/contracts/most/lib.rs:538-591 | A counted vote is one abstract vote, executing exactly at the threshold, and fails as a whole when the payout fails |
| InkMost.Most.Execute | azero/contracts/most/lib.rs:557-591 | The executing vote pays out, gives pocket money and marks the request, or changes nothing at all |
| InkMost.Most.PayOut | azero/contracts/most/lib.rs:557-578 | The three payout branches agree with the ledger function of the protocol |
| InkMost.Most.SendRequestInternal | azero/contracts/most/lib.rs:323-391 | Succeeds exactly when receiver, amount, funds and fee are right, and fails with the error of the source; then takes the tokens, credits exactly the base fee to the current committee and emits the request of the caller with the stored nonce |
| InkMost.Most.SendRequest | azero/contracts/most/lib.rs:398-426 | Exactly when it succeeds, in the terms of the caller; then the event log grows by the request for the receiver and amount of the caller, under the stored committee and nonce, and the tokens are locked or burned; it is the abstract send; never for wAZERO |
| InkMost.Most.SendRequestNativeEther | azero/contracts/most/lib.rs:433-451 | The same for wETH towards the native-coin marker |
| InkMost.Most.SendRequestNativeAzero | azero/contracts/most/lib.rs:453-491 | The same for native AZERO: deposits it and promises the saturated 10^6-fold amount; the rest of the value pays the fee |
| InkMost.Most.PayoutRewards | azero/contracts/most/lib.rs:657-683 | With sound accounts it succeeds for exactly the members of an unhalted contract and leaves the member with exactly floor(collected/size); the balance falls by exactly what the member gains, nobody else changes |
| InkMost.Most.FundPocketMoney | azero/contracts/most/lib.rs:687-696 | Adds to balance and pocket money alike, fails only on overflow, keeps accounts sound |
| InkMost.Most.PocketMoney | azero/contracts/most/lib.rs:596-626 | Pocket money after an executed request follows the value function, leaves rewards alone and keeps accounts sound |
| InkMost.Most.SetCommittee | azero/contracts/most/lib.rs:1155-1183 | Accepted exactly for a halted contract's owner and a valid list; installs it under the next 128-bit id, leaves old committees, and without wrap-around is the abstract rotation |
| InkMost.Most.AddPair | azero/contracts/most/lib.rs:1053-1076 | Adds one pair, marks it local only if asked, and refuses a wrapped token the bridge cannot mint |
| InkMost.Most.RequestStatusOf | azero/contracts/most/lib.rs:997-1010 | The answer is exact: processed, pending with the number of distinct signers modulo 2^32, or unknown |
| InkMost.Most.NeedsSignatureOf | azero/contracts/most/lib.rs:966-987 | The answer is the abstract "signature needed" |
| SolidityMost.StoreVote | eth/contracts/AbstractMost.sol:320-340 | Bumping the counter, or zeroing it while the signer map stays, describes exactly the abstract ballots after the vote |
| SolidityMost.AbstractMost.constructor | eth/contracts/AbstractMost.sol:102-113 | An initialized contract represents the fresh abstract state, paused, with the given owner and no pairs, marks or wrapped AZERO |
| SolidityMost.AbstractMost.ReceiveRequest | eth/contracts/AbstractMost.sol:295-341 | A needed vote with the right hash is exactly the abstract submission; every other call reverts or returns early exactly as stated, and changes nothing |
| SolidityMost.AbstractMost.Screen | eth/contracts/AbstractMost.sol:302-326 | Signed-already is checked on the computed hash before the hashes are compared, which still lets through exactly the needed votes |
| SolidityMost.AbstractMost.CountVote | eth/contracts/AbstractMost.sol:320-340 | A counted vote is one abstract vote and pays out exactly at the threshold |
| SolidityMost.AbstractMost.PayOut | eth/contracts/AbstractMost.sol:248-288 | Withdraw, mint and release branches agree with the protocol, including payouts that fail without reverting |
| SolidityMost.AbstractMost.SendRequest | eth/contracts/AbstractMost.sol:150-183 | Succeeds exactly when the abstract send does and limit, token and nonce allow it, with exactly its effect |
| SolidityMost.AbstractMost.SendRequestNative | eth/contracts/AbstractMost.sol:191-220 | The same for ether, deposited as WETH |
| SolidityMost.AbstractMost.SendRequestAzeroToNative | eth/contracts/AbstractMost.sol:222-246 | The same for wrapped AZERO, burned towards the native-coin marker |
| SolidityMost.AbstractMost.SetCommittee | eth/contracts/AbstractMost.sol:367-374 | Accepted exactly for a paused contract's owner and a valid list; then it is the abstract rotation |
| SolidityMost.AbstractMost.AddPair | eth/contracts/AbstractMost.sol:382-389 | Adds one pair and sets or clears its local mark |
| SolidityMost.AbstractMost.NeedsSignatureOf | eth/contracts/AbstractMost.sol:409-424 | The answer is the abstract "signature needed" |
| Reentrancy.BackedUnderReentrancy | eth/contracts/AbstractMost.sol:248-288 | In every run of transactions whose calls re-enter to any depth, every asset stays backed |
| Reentrancy.AuthenticUnderReentrancy | eth/contracts/MostL2.sol:110-183 | In every such run, on either side of any deployment, every executed request is an event of the other chain, and none executes twice |
| Reentrancy.NoncesUnderReentrancy | eth/contracts/AbstractMost.sol:166-182 | In every such run the stored nonce is the number of events, the k-th event has nonce k - 1, and no two events are equal |
| Reentrancy.ExecGains | eth/contracts/AbstractMost.sol:150-288 | A call with everything nested in it keeps the protocol invariant and the counters, and lowers the slack of no asset |
| Reentrancy.EmitStepKeeps | eth/contracts/AbstractMost.sol:175-182 | With counters in sync, the event stamped from the stored nonce and committee is the next event, and bumping keeps them in sync |
| Reentrancy.TakeStepGains | eth/contracts/AbstractMost.sol:166-170 | Taking tokens in gains at least what the pending request will promise, if they are locked |
| Reentrancy.PayoutGains | eth/contracts/AbstractMost.sol:254-288 | Paying out, whatever re-entered before, costs at most what the request is worth |
| Reentrancy.Linearizes | eth/contracts/AbstractMost.sol:166-182 | The votes and events of a call tree, with nonces read from storage and any part reverting, are those of some sequence of messages |
| Reentrancy.LinearizesAll | eth/contracts/MostL2.sol:192-254 | The same for a list of call trees |
| Reentrancy.TreeRuns | eth/contracts/MostL2.sol:192-254 | A tree in which every call succeeds emits exactly one event for each send in it, inner before outer, for its receiver and amount and with consecutive nonces, and executes exactly the requests of its votes |
| Reentrancy.EarlyCallsFirst | eth/contracts/AbstractMost.sol:150-183 | A send that succeeds does what its early calls do, followed by the send without them |
| Reentrancy.LateCallsLast | eth/contracts/AbstractMost.sol:254-288 | An executing vote that succeeds ends with what its late calls do |
| Reentrancy.RevertsUndo | eth/contracts/AbstractMost.sol:150-288 | A call that fails in the end has done nothing |
| Reentrancy.AtomicSend | eth/contracts/AbstractMost.sol:150-183 | A send with nothing nested in it is exactly the protocol's send |
| Reentrancy.AtomicVote | eth/contracts/AbstractMost.sol:295-341 | A vote with nothing nested in it is exactly the protocol's vote |
| Bridge.Launch | azero/contracts/most/lib.rs:248-319 | From the two constructors on, with the native coins configured, any sequence of messages leaves every asset backed, the accounts sound and the first committees in place |
| Bridge.Drive | azero/contracts/most/lib.rs:323-696 | Any sequence of sends, votes, relayed events, rotations, payouts, fundings, settings of pairs, marks and native tokens, and token movements takes both contract objects to a state that the protocol reaches, in which everything wrapped is backed; accounts stay sound and every committee stays |
| Bridge.Deliver | eth/contracts/AbstractMost.sol:150-341 | One message extends the run of the protocol by exactly the move that the message performs, if it performs one |
| Bridge.InkStep | azero/contracts/most/lib.rs:323-696 | Every message to the ink! contract performs exactly the action that its own conditions ask for, or none if they fail; payouts, funding and native tokens are settled as stated; the action is permitted, provided no executing vote is for an unmarked home token |
| Bridge.SolStep | eth/contracts/AbstractMost.sol:150-400 | The same for every message to the Solidity contract |
| Messages.DidExtends | docs/most_overview.md:7-12 | What a message did is a move that the hypotheses allow, and extends the run |
| BridgeL2.Launch | azero/contracts/most-l2/lib.rs:206-253 | From the two constructors of the L2 bridge on, any sequence of messages leaves every asset backed, for any pool, and the first committees in place |
| BridgeL2.Drive | eth/contracts/MostL2.sol:80-330 | Any sequence of sends, swaps, votes, relayed events, rotations, settings of pairs, marks, fees and native tokens, and token movements takes both contract objects to a state that the protocol reaches, with everything wrapped backed and every committee kept |
| BridgeL2.Deliver | eth/contracts/MostL2.sol:154-306 | One message extends the run of the protocol by exactly the move that the message performs, if it performs one |
| BridgeL2.InkStep | azero/contracts/most-l2/lib.rs:256-461 | Every message to the ink! contract of L2 performs exactly the permitted action that its own conditions ask for, or none |
| BridgeL2.SolStep | eth/contracts/MostL2.sol:154-330 | The same for every message to the Solidity contract of L2 |
| InkMostL2.MostL2.constructor | azero/contracts/most-l2/lib.rs:206-253 | A deployed contract represents the fresh abstract state, halted, with the default fee |
| InkMostL2.MostL2.ReceiveRequest | azero/contracts/most-l2/lib.rs:373-461 | Succeeds exactly when not halted, the caller is a member, and a needed vote has the right hash and a payable quorum; a needed vote is exactly the abstract submission, anything else changes nothing |
| InkMostL2.MostL2.PayOut | azero/contracts/most-l2/lib.rs:437-446 | Unwrapping and releasing agree with the payment function of the protocol |
| InkMostL2.MostL2.SendRequest | azero/contracts/most-l2/lib.rs:322-343 | Succeeds exactly when the abstract send does and the coins cover the fee, with exactly its effect |
| InkMostL2.MostL2.SendRequestNativeAzero | azero/contracts/most-l2/lib.rs:346-371 | The same for native AZERO, with the saturating sum of amount and fee |
| InkMostL2.MostL2.SetCommittee | azero/contracts/most-l2/lib.rs:621-650 | Accepted exactly for a halted contract of the owner and a valid list; installs it under the next 128-bit id and leaves old committees |
| Bridge.CallIsAligned | azero/contracts/most/lib.rs:557-578 | The proviso holds in every run: no vote for an unmarked home token ever executes |
| Bridge.SameDispatch | azero/contracts/most/lib.rs:398-490 | Sending depends neither on guardians and collisions nor on marks of tokens without a pair |
| Dormancy.ApplyKeepsDormant | azero/contracts/most/lib.rs:1053-1076 | As long as a home token has no pair, no move of anybody wraps it or puts it in flight |
| Dormancy.DormantIsUnvoted | azero/contracts/most/lib.rs:557-578 | No vote for a dormant asset reaches a quorum |
| Bridge.SameSubmit | azero/contracts/most/lib.rs:494-594 | Nor does receiving, except for an executing vote for an unmarked home token |
| Rewards.AlwaysSolvent | azero/contracts/most/lib.rs:340-380 | In every interleaving of fees, payouts, rotations, funding, pocket money and gifts the balance covers pocket money plus all unpaid fees, and nobody is paid more than a share |
| Rewards.PayoutExact | azero/contracts/most/lib.rs:657-683 | A payout never fails for lack of coins, leaves the member with exactly floor(collected/size), whatever was paid before, and lowers the balance by exactly what the member gains |
| Rewards.PayoutIs | azero/contracts/most/lib.rs:657-683 | Without any hypothesis: a payout goes through exactly when the balance covers what is outstanding, and moves exactly that |
| Rewards.ChargeIs | azero/contracts/most/lib.rs:340-368 | A fee raises the balance and the fees of the one committee by exactly its amount, and nothing else |
| Rewards.PocketMoneyIs | azero/contracts/most/lib.rs:629-652 | The value is three quarters of the price of the gas, rounded down, or the maximum or the pocket money if less; nothing without a price; less when the product wraps |
| Rewards.GivingIs | azero/contracts/most/lib.rs:596-626 | Pocket money is given exactly when there is some, it is covered and the transfer works, and then moves exactly the value |
| Rewards.StepIs | azero/contracts/most/lib.rs:340-380 | What each step of a run does to each account, exactly |
| Rewards.PaidWithinShare | azero/contracts/most/lib.rs:863-883 | The saturating subtraction never saturates |
| Rewards.CommitteePaidWithinFees | azero/contracts/most/lib.rs:863-883 | Payouts of a committee sum to at most its fees |
| Rewards.LeftoverBelowSize | azero/contracts/most/lib.rs:863-883 | Once everybody is paid, less than one coin per member is left over |
| Rewards.RewardIsOwed | azero/contracts/most/lib.rs:657-683 | The balance covers any member's outstanding reward on top of all pocket money |
| Rewards.PocketMoneyKeeps | azero/contracts/most/lib.rs:596-626 | Pocket money comes out of pocket money only and leaves rewards alone |
| Rewards.ChargeKeeps | azero/contracts/most/lib.rs:340-368 | Collecting a fee keeps solvency and everybody within a share |
| Rewards.RotateKeeps | azero/contracts/most/lib.rs:1155-1183 | A new committee starts with nothing collected and nothing paid |
| Rewards.PocketMoneyValue | azero/contracts/most/lib.rs:629-652 | Whatever the oracle says and however the product wraps, the value is at most the pocket money |
| Fees.PriceWithinLimitsIff | azero/contracts/most/lib.rs:906-923 | The limits bind the price for every oracle answer if and only if min <= default <= max |
| Fees.FeeWithinLimits | azero/contracts/most/lib.rs:927-938 | With ordered limits, and a fee at the maximum price that fits, the base fee is computed without error and lies between the fees at the limits |
| Fees.PriceIs | azero/contracts/most/lib.rs:906-923 | The price is that of the oracle, clamped to the limits, as long as it is fresh, and the default if it is stale or missing |
| Fees.FeeIs | azero/contracts/most/lib.rs:927-938 | The fee is price times gas times (100 + buffer) over 100, rounded down, and missing only when a product does not fit in 128 bits |
| Fees.FeeGrows | azero/contracts/most/lib.rs:927-938 | A lower price gives no error where a higher one gives none, and no higher fee |
| Committees.CheckCommittee | azero/contracts/most/lib.rs:1257-1270 | The nested loops accept exactly lists without duplicates whose truncated threshold fits |
| Committees.MarkCommittee | eth/contracts/AbstractMost.sol:120-142 | Marking as it goes accepts exactly duplicate-free lists without the zero address and 1 <= threshold <= size, and adds exactly their marks or none |
| Committees.SameLists | eth/contracts/AbstractMost.sol:120-142 | Both checks accept the same lists, up to the zero address and thresholds of 2^32 and more |
| Committees.ReachableThresholdIff | azero/contracts/most/lib.rs:1257-1260 | An accepted threshold is within the committee size if and only if it fits in 32 bits |
| Committees.TruncationAccepts | azero/contracts/most/lib.rs:1257-1260 | A threshold above 2^32 that nobody can reach is accepted |
| Committees.StoreNext | azero/contracts/most/lib.rs:1165-1180 | Writing under the next id installs the committee and keeps all earlier ones |
| Committees.StoreOverIff | azero/contracts/most/lib.rs:1165-1180 | Writing under a used id gives a single committee if and only if all old members are in the new list |
| Committees.WrappedIdMixes | azero/contracts/most/lib.rs:1165-1174 | After 2^128 committees the next id is 0, and an old member outside the new list counts as a member |
| Preimage.InkRoundTrip | azero/contracts/shared/src/hash.rs:12-28 | The 112 bytes determine committee, token, amount, receiver and nonce |
| Preimage.InkLayout | azero/contracts/shared/src/hash.rs:12-28 | Which of the 112 bytes hold which field, in which byte order |
| Preimage.LittleEndianDigit | azero/contracts/shared/src/hash.rs:12-28 | Byte i of a little-endian number is its i-th digit to the base 256 |
| Preimage.RelayerInkBytes | relayer/relayer/src/handlers/eth.rs:82-92 | The relayer builds the contract's 112 bytes |
| Preimage.ConcatU8Arrays | relayer/relayer/src/helpers.rs:1-7 | The loop returns the concatenation in order |
| Preimage.LittleEndianRoundTrip | azero/contracts/shared/src/hash.rs:12-28 | Fixed-width little-endian numbers decode to themselves |
| Preimage.BigEndianRoundTrip | eth/contracts/AbstractMost.sol:310-318 | Fixed-width big-endian words decode to themselves |
| Preimage.PackedIsStandardIff | relayer/relayer/src/handlers/azero.rs:100-113 | Standard and packed encoding of such tokens agree if and only if every byte string fills whole words |
| Preimage.RelayerAbiBytes | relayer/relayer/src/handlers/azero.rs:100-113 | The relayer's standard encoding gives the bytes the contract packs |
| Preimage.SolidityRoundTrip | eth/contracts/AbstractMost.sol:310-318 | The 160 bytes determine all five fields |
| Preimage.SolidityLayout | eth/contracts/AbstractMost.sol:310-318 | Which of the 160 bytes hold which field |
| Preimage.BigEndianDigit | eth/contracts/AbstractMost.sol:310-318 | Byte i of a big-endian word is its digit counted from the other end |
| Preimage.InkSchemeCollisionFree | azero/contracts/shared/src/hash.rs:12-28 | If Keccak does not collide on the preimages that occur, no two requests share a hash on Aleph Zero |
| Preimage.SoliditySchemeCollisionFree | eth/contracts/AbstractMost.sol:310-318 | The same on Ethereum |
| Blocks.FetchEventsInBlockRange | relayer/relayer/src/listeners/azero.rs:173-200 | Returns the events of the inclusive range in block order |
| Blocks.BatchEnd | relayer/relayer/src/listeners/eth.rs:98-102 | A batch is never empty, never passes the finalized block, and is as long as that and `sync_step` allow |
| Blocks.EventsSplit | relayer/relayer/src/listeners/azero.rs:173-200 | Events of adjacent ranges follow each other, and one block has exactly its own |
| Blocks.RangeDoneIff | relayer/relayer/src/listeners/eth.rs:98-158 | A block range is done if and only if every event of its batch is |
| EthPipeline.CheckpointSafe | relayer/relayer/src/listeners/eth.rs:69-158 | In any interleaving of tasks, failures, circuit breaks and reboots, with acknowledgements that outlive the handler or get lost with it, every event below the stored number has been handled successfully |
| EthPipeline.BatchesTile | relayer/relayer/src/listeners/eth.rs:69-158 | The batches of a boot tile the block line from the number it started at, without gap or overlap |
| EthPipeline.FirstBatchResumes | relayer/relayer/src/redis/mod.rs:73-80 | The first batch after a boot starts at the number stored at the boot, or at the configured start if there is none |
| EthPipeline.CheckpointGrows | relayer/relayer/src/redis/mod.rs:100-112 | In every run, through failures and reboots, the stored number never goes back |
| EthPipeline.RoundAdvances | relayer/relayer/src/listeners/eth.rs:69-158 | Progress: from rest, one good round handles every event of the next batch, stores the number after it and leaves the relayer at rest |
| EthPipeline.BootAdvances | relayer/relayer/src/main.rs:245-270 | After a boot, one good round moves the stored number past the batch that starts at it |
| EthPipeline.QueryKeeps | relayer/relayer/src/listeners/eth.rs:98-140 | Querying a batch, empty or not, keeps the checkpoint safe |
| EthPipeline.EventOkKeeps | relayer/relayer/src/handlers/eth.rs:238-271 | Handling events one by one keeps the checkpoint safe |
| EthPipeline.NextKeeps | relayer/relayer/src/redis/mod.rs:73-112 | Every arm of every task, and a reboot, keep the checkpoint safe |
| EthPipeline.NextKeepsTiled | relayer/relayer/src/listeners/eth.rs:69-158 | Every arm keeps consecutive batches and sent numbers joined |
| EthPipeline.Relayer.OnNextBlock | relayer/relayer/src/listeners/eth.rs:90-140 | The listener's arm updates its state as the transition system says |
| EthPipeline.Relayer.Drive | relayer/relayer/src/main.rs:245-270 | Any schedule of arms ends in the state of the transition system, with every event below the stored number handled |
| AzeroPipeline.SealedInOrder | relayer/relayer/src/listeners/azero.rs:98-168 | With batches finishing in any order, seals strictly increase and every block below the stored number was acknowledged; each event there was handled, or failed |
| AzeroPipeline.ReturnedKeeps | relayer/relayer/src/handlers/azero.rs:278-300 | A handler that returns, well or not, in a batch that may never be acknowledged, keeps all events accounted for |
| AzeroPipeline.AcknowledgeKeeps | relayer/relayer/src/handlers/azero.rs:263-305 | Acknowledging a batch whose handlers have all returned keeps the queue contiguous and all events accounted for |
| AzeroPipeline.SealKeeps | relayer/relayer/src/listeners/azero.rs:163-167 | Sealing the oldest batch moves the frontier to one past a block all of whose predecessors are acknowledged |
| AzeroPipeline.EnqueueKeeps | relayer/relayer/src/listeners/azero.rs:107-161 | A new batch continues the queue without gap or overlap |
| AzeroPipeline.CheckpointGrows | relayer/relayer/src/redis/mod.rs:114-124 | The stored number never goes back |
| AzeroPipeline.BootResumes | relayer/relayer/src/redis/mod.rs:82-90 | A boot resumes at the stored number, or at the configured start if there is none, with nothing in flight |
| AzeroPipeline.BatchIsCut | relayer/relayer/src/listeners/azero.rs:126-161 | A batch goes from the next number to the finalized block or for `sync_step` blocks, and the number after it is next |
| AzeroPipeline.OldestAdvances | relayer/relayer/src/handlers/azero.rs:278-305 | Progress: when the handlers of the oldest batch return Ok, it is acknowledged, sealed and stored, whatever else is in flight |
| AzeroPipeline.HandledBelowCheckpointIff | relayer/relayer/src/handlers/azero.rs:292-302 | In every run, every event below the stored number was handled if and only if each of them that ever failed was also handled at some time |
| AzeroPipeline.RunHandledIff | relayer/relayer/src/handlers/azero.rs:292-302 | All events of acknowledged blocks are handled at every moment of a run if and only if every batch of the run was acknowledged with all its events handled, then or earlier |
| AzeroPipeline.HarmlessRunSafe | relayer/relayer/src/handlers/azero.rs:292-302 | Such a run keeps every event below the stored number handled |
| AzeroPipeline.AcknowledgeHandledIff | relayer/relayer/src/handlers/azero.rs:292-302 | The same for one acknowledgement |
| AzeroPipeline.FailedEventCanBePassed | relayer/relayer/src/handlers/azero.rs:292-302 | A run in which the checkpoint passes an event whose handler failed |
| AzeroPipeline.Relayer.OnTaskDone | relayer/relayer/src/handlers/azero.rs:263-305 | Acknowledging a batch updates the queue in place as the transition system says |
| AzeroPipeline.Relayer.Drive | relayer/relayer/src/main.rs:245-270 | Any schedule of arms ends in the state of the transition system, with every block below the stored number acknowledged |
| EventHandlers.HandleEvent | relayer/relayer/src/handlers/eth.rs:56-201 | With membership and committee id read in two different states, and reads and votes that may fail: which outcome each case gives and in which turn, and that an Ok without blacklisting means that the signature is not needed in the state read, nor later if the committee was installed in it; it is beyond every future if and only if installed, executed or signed there |
| EventHandlers.OneEnd | relayer/relayer/src/handlers/eth.rs:121-172 | The loop ends in at most one turn, by failing exactly when a read fails or the signature is still needed |
| Guardian.Guard | relayer/relayer/src/handlers/eth.rs:238-271 | However the tasks interleave, fail and reboot, every event below the stored number is justified by the very attempt that handled it: no request, blacklisted, or the signature not needed in a state that this attempt read, with all that follows from that |
| Guardian.GuardAzero | relayer/relayer/src/handlers/azero.rs:263-305 | With batches in flight and handlers returning in any order, the handler of every event below the stored number failed at some time, or the event is justified by an attempt at that very event |
| Guardian.SettledAtTheEnd | relayer/relayer/src/handlers/eth.rs:121-201 | If every state that the attempt read had the committee installed, the request is blacklisted or settled for good in the last state |
| Guardian.Answer | relayer/relayer/src/handlers/eth.rs:56-172 | Ok only if this attempt justifies it, an error only if a read or vote of it fails or the committee is missing, and no answer only while the signature is needed in every state it has seen |
| EventHandlers.SettledLater | relayer/relayer/src/handlers/azero.rs:134-220 | A signature settled in one state is settled in all later ones |
| EventHandlers.UnfinalizedRotation | relayer/relayer/src/handlers/eth.rs:121-172 | After a rotation that is not final yet, the finalized view says "not needed" of a signature that is needed |
| EventHandlers.RotationBetweenReads | relayer/relayer/src/handlers/eth.rs:180-201 | A rotation between the two reads of the membership check makes the handler return Ok for a signature that is needed |
| L2.RoundTripBound | eth/contracts/MostL2.sol:69-108 | Native to bridged and back returns at least 98.01% less a constant below 10^8, whatever the pool pays above the minimum |
| L2.MinAmountIs | eth/contracts/MostL2.sol:69-78 | The accepted minimum is 99% of the input in the units of the output, but for the roundings, in both directions |
| L2.MinAmountGrows | eth/contracts/MostL2.sol:69-78 | A larger input never has a smaller accepted minimum |
| L2.MostL2.constructor | eth/contracts/MostL2.sol:43-65 | An initialized contract represents the fresh abstract state, paused, with a fee of half a coin |
| L2.MostL2.NativeTransfer | eth/contracts/MostL2.sol:110-142 | Swapped, not swapped or reverted, the ledger changes exactly as the protocol's payment of the request; coins stay behind only if they cannot be sent on |
| L2.MostL2.HandleFlatFee | eth/contracts/MostL2.sol:192-212 | Succeeds exactly when the value covers amount and fee; the contract keeps exactly the amount |
| L2.MostL2.SendRequestNative | eth/contracts/MostL2.sol:229-254 | Succeeds exactly when unpaused, paid for and swapped; then it is the abstract send of what the pool paid, with the stored nonce, and no native coin stays behind |
| L2.MostL2.SendTokenRequest | eth/contracts/MostL2.sol:270-306 | Succeeds exactly when the abstract token send does and the fee is paid, with exactly its effect |
| L2.MostL2.PayOut | eth/contracts/MostL2.sol:154-183 | The three ways of paying out, local tokens refused, agree with the payment function of the protocol |
| L2.MostL2.ReceiveRequest | eth/contracts/AbstractMost.sol:295-341 | A needed vote with the right hash is exactly the abstract submission with the outcome of mint, swap and transfer; every other call reverts or returns early as stated, and changes nothing |
| L2.MostL2.SetCommittee | eth/contracts/AbstractMost.sol:367-374 | Accepted exactly for a paused contract of the owner and a valid list; then it is the abstract rotation |
| L2.MostL2.AddPair | eth/contracts/MostL2.sol:318-326 | Adds a pair, never a local one, and clears the local mark |

## Left out

- Code upgrades (`set_code`, UUPS) and the `recover_*` messages, which break the accounting by design.
- RPC clients, the signer, gas escalation and event decoding of the relayer: thin wrappers around I/O.
- Token contracts: a ledger of supply and bridge holdings stands for them. A token with a transfer fee falls outside the backing theorem.
- Transfer limits, the price oracle and advisories: an arbitrary boolean or answer stands for each of them. Ownership is a fixed owner.
- Setters for payout accounts, gas configuration and pocket-money limit: single assignments.
- Keccak. The Solidity committee maps are keyed by a hash of committee id and address; the model keys them by the pair.
- Gas and weight limits, existential deposits, and reorganisations beyond a latest and a finalized state.
- Protocol.RunKeeps: committee ids and nonces are unbounded there, which makes no difference in fewer than 2^128 moves; the 128-bit wrap-around of ids is treated in `InkMost` and `Committees`.
- Reentrancy.BackedUnderReentrancy: token contracts, the pool, WETH and receivers may call back, but still move exactly the amounts asked for.
- Bridge.Drive: covers fewer than 2^128 messages, one after the other; reentrant calls are covered by `Reentrancy` on values.
- BridgeL2.Drive: the same; the coins that the flat fee brings the owner, and the balance of native coins of the ink! contract, are not tracked.
- EthPipeline.CheckpointSafe: needs `sync_step >= 1`, a readable Redis and no override flag; the 32-bit overflow of block numbers is not modelled, nor is the delay between reboots.
- AzeroPipeline.SealedInOrder: the same.
- EventHandlers.HandleEvent: a request with a blacklisted hash returns Ok without a signature; the handler is modelled as a finite number of turns of its loop, each with arbitrary finalized and latest states.
- L2.MostL2.NativeTransfer: the pool is an arbitrary answer that honours the minimum output or fails.
