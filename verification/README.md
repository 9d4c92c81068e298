# Multi-signature approval engine in Dafny

This project models `MultiSigContract`, a SmartPy contract for Tezos. The contract is
an approval gate for a fixed committee of addresses. Members deposit funds. A member
submits a proposal to pay an amount to a receiver. Other members vote on the active
proposal. When the number of voters becomes exactly `requiredVotes`, the contract
sends the amount to the receiver.

The storage is modelled as follows:

- the committee `members` and the threshold `requiredVotes` are fixed at origination;
- `proposals` is a map from integer id to a proposal record: amount, receiver,
  voter set and a `votingComplete` flag;
- `activeProposalId` points to the one proposal that can receive votes;
- `balance` is the amount the host holds for the contract.

The project has three files:

- `multisig.dfy` (module `MultiSig`): the storage as a value `State`. Each entrypoint
  is a step function. It returns either an `Error` or an `Effect`, which holds the new
  state and the payment emitted, if any. A rejected call changes nothing. The file
  also defines the invariant `WellFormed` and proves that every entrypoint preserves it:
  - the ids are exactly 1..`activeProposalId`;
  - every voter is a member, and every proposal has at least one voter;
  - `votingComplete` holds exactly when `2 <= requiredVotes <= |voters|`;
  - an active proposal that has not paid out is covered by the balance.

  Further lemmas about single votes are in this file too.
- `contract.dfy` (module `Contract`): the class `MultiSigContract`. Its fields are
  updated in place by `Deposit`, `SubmitProposal` and `VoteOnProposal`. Each method is
  proved to do what the matching step function says and to keep the invariant. The
  file also replays the recorded test scenario.
- `traces.dfy` (module `Traces`): runs of any sequence of calls. It proves that:
  - the invariant holds at every step;
  - the active id counts the accepted submissions;
  - funds are conserved;
  - a proposal that has been superseded never changes again;
  - no voter is ever removed, so the proposer stays among its proposal's voters;
  - there are never more payments than proposals.

The model keeps two behaviours exactly as the code has them:

- The threshold test is `==`, not `>=`.
- `vote_on_proposal` does not check `votingComplete`. A member who has not voted can
  still vote on a proposal that has already paid out. That vote pays nothing, because
  the count then passes the threshold.

Some properties one might expect of such a contract do not hold of the code, and the
model keeps the code's behaviour:

- **Voter count:** one might expect `|voters| <= requiredVotes` for every proposal.
  The code breaks this, as described above, and `VotersCanExceedThreshold` exhibits
  such a run.
- **Threshold:** nothing checks `requiredVotes` against the committee size. The lemmas
  show the consequence. With a threshold below 2, or above the committee size, no
  proposal ever pays (`LowThresholdNeverPays`, `HighThresholdNeverPays`).

The recorded scenario's committee is alice, bob, charlie and earl, with threshold 3.

## Model

| member | source | states |
|---|---|---|
| `MultiSig.Init` | multisig-2.py:16-21 | origination gives an empty proposal map, pointer 0, the given committee and threshold, the balance the host credited at origination, and a state satisfying the invariant |
| `MultiSig.DepositStep` | multisig-2.py:24-26 | a call succeeds exactly when the caller is a member; a non-member gets NotAMember; an accepted deposit only raises the balance by the attached amount |
| `MultiSig.SubmitStep` | multisig-2.py:28-42 | fails with NotAMember for a non-member, otherwise with InsufficientFunds when the amount exceeds the balance, and succeeds exactly otherwise; on success the pointer rises by one, the new id is added, its record is (amount, receiver, {caller}, not complete), and every earlier entry and the balance are unchanged |
| `MultiSig.VoteStep` | multisig-2.py:44-52 | NotAMember, then a missing active proposal, then AlreadyVoted, in that order; a member's first vote on an existing active proposal is accepted exactly when its payout, if due, is covered by the balance; on success exactly the caller is added to the active proposal's voters and no other proposal changes; if the new count equals the threshold, the amount is paid to the receiver, the balance drops by it and the flag is set, and otherwise balance and flag are unchanged |
| `MultiSig.DepositPreservesWellFormed` | multisig-2.py:24-26 | an accepted deposit keeps the state invariant |
| `MultiSig.SubmitPreservesWellFormed` | multisig-2.py:34-42 | an accepted submission keeps the state invariant: ids stay 1..pointer, and the new proposal's only voter, the proposer, is a member |
| `MultiSig.VotePreservesWellFormed` | multisig-2.py:46-52 | an accepted vote keeps the state invariant: voters stay members, and the flag holds exactly when the count reached a threshold of at least 2 |
| `MultiSig.NoSendFailure` | multisig-2.py:35-51 | in a well-formed state the payment is covered by the balance, because the amount was checked at submission and only the active proposal can pay |
| `MultiSig.CompletedProposalPaysOnce` | multisig-2.py:48-52 | a vote on an active proposal that has already paid out pays nothing, and leaves more voters than the threshold |
| `MultiSig.LowThresholdNeverPays` | multisig-2.py:21-50 | with a threshold below 2 no vote ever pays, since the proposer already counts as one voter |
| `MultiSig.HighThresholdNeverPays` | multisig-2.py:21-50 | with a threshold above the committee size no vote ever pays, since every voter is a member |
| `Contract.MultiSigContract.constructor` | multisig-2.py:16-21 | the new object's storage is the origination state and satisfies the invariant |
| `Contract.MultiSigContract.Deposit` | multisig-2.py:24-26 | updates the fields exactly as `DepositStep` says, leaves them unchanged on rejection, and keeps the invariant |
| `Contract.MultiSigContract.SubmitProposal` | multisig-2.py:28-42 | updates the pointer and the map exactly as `SubmitStep` says, leaves them unchanged on rejection, and keeps the invariant |
| `Contract.MultiSigContract.VoteOnProposal` | multisig-2.py:44-52 | updates the voters, the flag and the balance exactly as `VoteStep` says, returns the payment, leaves everything unchanged on rejection, and keeps the invariant |
| `Contract.FirstProposalScenario` | multisig-2.py:66-88 | committee of four with threshold 3: deposit 50, propose 30; dani's vote returns NotAMember and charlie's vote returns the payment of 30 to dani; afterwards the balance is 20 and proposal 1 is complete with voters alice, bob and charlie |
| `Contract.Scenario` | multisig-2.py:90-94 | a second proposal of 20 becomes proposal 2, the active id; one vote from charlie leaves it open with voters alice and charlie; proposal 1 is unchanged and the balance stays 20 |
| `Traces.Apply` | multisig-2.py:24-52 | every entrypoint rejects a non-member caller with NotAMember, and none changes the committee or threshold |
| `Traces.Run` | multisig-2.py:15-52 | a run never changes the committee or threshold, and accepts at most as many calls as it is given; each accepted call emits at most one payment |
| `Traces.RunPreservesWellFormed` | multisig-2.py:15-52 | every state reached by any sequence of calls from a well-formed state is well-formed |
| `Traces.RunCountsSubmissions` | multisig-2.py:36 | the pointer rises by exactly the number of accepted submissions |
| `Traces.RunConservesFunds` | multisig-2.py:24-51 | final balance plus all payments equals initial balance plus accepted deposits |
| `Traces.RunFreezesSuperseded` | multisig-2.py:36-52 | a proposal other than the active one is never changed by later calls |
| `Traces.ApplyKeepsVoters` | multisig-2.py:36-49 | from a well-formed state an accepted call keeps every proposal id and every voter: a submission uses a fresh id, and a vote only adds the caller |
| `Traces.RunKeepsVoters` | multisig-2.py:36-49 | a voter of a proposal is still a voter of it after any sequence of calls |
| `Traces.ProposerStaysVoter` | multisig-2.py:36-49 | after an accepted submission, whatever calls follow, the submitter is among the voters of the proposal it created |
| `Traces.SupersededProposalIsFrozen` | multisig-2.py:36 | after a submission, the proposal that was active before it keeps its record whatever calls follow |
| `Traces.ApplyCompletesAtMostOne` | multisig-2.py:50-52 | a call that pays completes exactly the active proposal, which was not complete before; a call that does not pay completes nothing |
| `Traces.RunCountsCompletions` | multisig-2.py:50-52 | over a run, the number of completed proposals grows by exactly the number of payments |
| `Traces.FromOrigination` | multisig-2.py:16-52 | after any calls from origination: the ids are exactly 1..n for n accepted submissions, every voter is a member, final balance plus payments equals the origination balance plus accepted deposits, and there are at most n payments |
| `Traces.NoVoteBeforeSubmission` | multisig-2.py:46-48 | before any submission every vote fails, and a member's vote fails because no proposal exists |
| `Traces.VotersCanExceedThreshold` | multisig-2.py:45-52 | with committee a, b, c and threshold 2, a third vote on the completed proposal is accepted, leaves 3 voters, and pays nothing more |

## Left out

- The SmartPy and Tezos machinery: the module and entrypoint decorators, type casts,
  and big_map storage semantics. The proposal map is a Dafny `map<int, Proposal>`.
- The amount credited when the contract is originated is host behaviour. `Init` and
  the constructor take it as the parameter `initialBalance`. The recorded scenario
  originates with 0.
- Authentication of the caller. The caller's address is a parameter of every
  operation.
- The `send` as a real ledger operation, and tez/mutez units. A payment is the record
  `Transfer(receiver, amount)`, and the balance is decremented by the amount. Amounts
  are `nat`.
- The host's rejection of a transfer larger than the balance is the error `SendFailed`.
  It rolls the call back. `NoSendFailure` proves it never happens in a reachable state.
- Amounts attached to `submit_proposal` or `vote_on_proposal` calls. Only `deposit`
  credits an amount to the balance.
- The test's literal `tz1` addresses. The scenario uses the names alice, bob, charlie,
  dani and earl as addresses.
- Validation of `requiredVotes` against the committee size. The code does none, so the
  model adds none.
