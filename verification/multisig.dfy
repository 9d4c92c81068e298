/**
 * The approval engine of the multi-signature contract, as a state machine on values.
 *
 * `State` is the contract's storage (committee, threshold, proposal map, active id)
 * together with the balance the host holds for it. Each entrypoint is a step function
 * from a state to either an error (the call is rejected and nothing changes) or an
 * `Effect`: the new state and the transfer, if any, that the call emits.
 */
module MultiSig {

  /** An account address. */
  type Address = string

  datatype Option<T> = None | Some(value: T)

  /** A proposal record, kept in the proposal map under its integer id. */
  datatype Proposal = Proposal(paymentAmt: nat, receiver: Address, voters: set<Address>, votingComplete: bool)

  /** Why an entrypoint call is rejected. */
  datatype Error =
    | NotAMember         // the caller is not on the committee
    | InsufficientFunds  // the proposed payment exceeds the current balance
    | AlreadyVoted       // the caller is already among the active proposal's voters
    | NoSuchProposal     // the active id has no entry in the proposal map
    | SendFailed         // the host refuses a transfer larger than the balance

  datatype Result<T> = Ok(value: T) | Err(error: Error)

  /** A payment emitted by the contract. */
  datatype Transfer = Transfer(receiver: Address, amount: nat)

  datatype State = State(
    members: set<Address>,
    requiredVotes: nat,
    proposals: map<int, Proposal>,
    activeProposalId: int,
    balance: nat)

  /** What a successful call leaves behind: the new state and the payment it emits. */
  datatype Effect = Effect(next: State, payout: Option<Transfer>)

  /** A proposal's invariant within a committee with the given threshold. */
  predicate ProposalValid(p: Proposal, members: set<Address>, requiredVotes: nat)
  {
    && p.voters != {}
    && p.voters <= members
    && (p.votingComplete <==> 2 <= requiredVotes <= |p.voters|)
  }

  /**
   * The invariant of every reachable state: the proposal ids are exactly 1..activeProposalId,
   * every proposal is valid, and an active proposal that has not paid out is covered by the balance.
   */
  ghost predicate WellFormed(s: State)
  {
    && s.activeProposalId >= 0
    && (forall k :: k in s.proposals <==> 1 <= k <= s.activeProposalId)
    && (forall k | k in s.proposals :: ProposalValid(s.proposals[k], s.members, s.requiredVotes))
    && (s.activeProposalId in s.proposals && !s.proposals[s.activeProposalId].votingComplete ==>
          s.proposals[s.activeProposalId].paymentAmt <= s.balance)
  }

  /**
   * The state right after origination: no proposals, the pointer at 0, and whatever
   * amount the host credited to the new contract.
   */
  function Init(members: set<Address>, requiredVotes: nat, initialBalance: nat): (s: State)
    ensures WellFormed(s)
    ensures s.members == members && s.requiredVotes == requiredVotes
    ensures s.proposals == map[] && s.activeProposalId == 0 && s.balance == initialBalance
  {
    State(members, requiredVotes, map[], 0, initialBalance)
  }

  /** `deposit`: a membership gate; the host credits the attached amount. */
  function DepositStep(s: State, sender: Address, amount: nat): (r: Result<Effect>)
    ensures r.Ok? <==> sender in s.members
    ensures r.Err? ==> r.error == NotAMember
    ensures r.Ok? ==> && r.value.payout == None
                      && r.value.next.balance == s.balance + amount
                      && r.value.next.proposals == s.proposals
                      && r.value.next.activeProposalId == s.activeProposalId
                      && r.value.next.members == s.members
                      && r.value.next.requiredVotes == s.requiredVotes
  {
    if sender !in s.members then Err(NotAMember)
    else Ok(Effect(s.(balance := s.balance + amount), None))
  }

  /** `submit_proposal`: advances the pointer and stores a fresh proposal under the new id. */
  function SubmitStep(s: State, sender: Address, paymentAmt: nat, receiver: Address): (r: Result<Effect>)
    ensures r.Ok? <==> sender in s.members && paymentAmt <= s.balance
    ensures sender !in s.members ==> r == Err(NotAMember)
    ensures sender in s.members && paymentAmt > s.balance ==> r == Err(InsufficientFunds)
    ensures r.Ok? ==>
      var t, id := r.value.next, s.activeProposalId + 1;
      && r.value.payout == None
      && t.activeProposalId == id
      && t.proposals.Keys == s.proposals.Keys + {id}
      && t.proposals[id] == Proposal(paymentAmt, receiver, {sender}, false)
      && (forall k | k in s.proposals && k != id :: t.proposals[k] == s.proposals[k])
      && t.balance == s.balance && t.members == s.members && t.requiredVotes == s.requiredVotes
  {
    if sender !in s.members then Err(NotAMember)
    else if paymentAmt > s.balance then Err(InsufficientFunds)
    else
      var id := s.activeProposalId + 1;
      var p := Proposal(paymentAmt, receiver, {sender}, false);
      Ok(Effect(s.(activeProposalId := id, proposals := s.proposals[id := p]), None))
  }

  /**
   * `vote_on_proposal`: adds the caller to the active proposal's voters and pays out
   * when the number of voters becomes exactly `requiredVotes`. A completed proposal is
   * not refused as such.
   */
  function VoteStep(s: State, sender: Address): (r: Result<Effect>)
    ensures sender !in s.members ==> r == Err(NotAMember)
    ensures sender in s.members && s.activeProposalId !in s.proposals ==> r == Err(NoSuchProposal)
    ensures (sender in s.members && s.activeProposalId in s.proposals
             && sender in s.proposals[s.activeProposalId].voters) ==> r == Err(AlreadyVoted)
    ensures r.Ok? <==>
              && sender in s.members && s.activeProposalId in s.proposals
              && sender !in s.proposals[s.activeProposalId].voters
              && !(|s.proposals[s.activeProposalId].voters| + 1 == s.requiredVotes
                   && s.proposals[s.activeProposalId].paymentAmt > s.balance)
    ensures r == Err(SendFailed) <==>
              && sender in s.members && s.activeProposalId in s.proposals
              && sender !in s.proposals[s.activeProposalId].voters
              && |s.proposals[s.activeProposalId].voters| + 1 == s.requiredVotes
              && s.proposals[s.activeProposalId].paymentAmt > s.balance
    ensures r.Ok? ==>
      var id := s.activeProposalId;
      var t := r.value.next;
      && sender in s.members && id in s.proposals && sender !in s.proposals[id].voters
      && t.members == s.members && t.requiredVotes == s.requiredVotes && t.activeProposalId == id
      && t.proposals.Keys == s.proposals.Keys
      && (forall k | k in s.proposals && k != id :: t.proposals[k] == s.proposals[k])
      && var p, q := s.proposals[id], t.proposals[id];
      && q.voters == p.voters + {sender}
      && q.paymentAmt == p.paymentAmt && q.receiver == p.receiver
      && if |q.voters| == s.requiredVotes then
           && q.votingComplete
           && r.value.payout == Some(Transfer(p.receiver, p.paymentAmt))
           && t.balance == s.balance - p.paymentAmt
         else
           && q.votingComplete == p.votingComplete
           && r.value.payout == None
           && t.balance == s.balance
  {
    if sender !in s.members then Err(NotAMember)
    else if s.activeProposalId !in s.proposals then Err(NoSuchProposal)
    else
      var id := s.activeProposalId;
      var p := s.proposals[id];
      if sender in p.voters then Err(AlreadyVoted)
      else
        var voters := p.voters + {sender};
        if |voters| == s.requiredVotes then
          if p.paymentAmt > s.balance then Err(SendFailed)
          else
            var q := p.(voters := voters, votingComplete := true);
            Ok(Effect(s.(proposals := s.proposals[id := q], balance := s.balance - p.paymentAmt),
                      Some(Transfer(p.receiver, p.paymentAmt))))
        else
          Ok(Effect(s.(proposals := s.proposals[id := p.(voters := voters)]), None))
  }

  lemma DepositPreservesWellFormed(s: State, sender: Address, amount: nat)
    requires WellFormed(s)
    ensures DepositStep(s, sender, amount).Ok? ==> WellFormed(DepositStep(s, sender, amount).value.next)
  {
  }

  lemma SubmitPreservesWellFormed(s: State, sender: Address, paymentAmt: nat, receiver: Address)
    requires WellFormed(s)
    ensures var r := SubmitStep(s, sender, paymentAmt, receiver);
            r.Ok? ==> WellFormed(r.value.next)
  {
  }

  lemma VotePreservesWellFormed(s: State, sender: Address)
    requires WellFormed(s)
    ensures VoteStep(s, sender).Ok? ==> WellFormed(VoteStep(s, sender).value.next)
  {
  }

  /** In a well-formed state the payout of a vote is always covered by the balance. */
  lemma NoSendFailure(s: State, sender: Address)
    requires WellFormed(s)
    ensures VoteStep(s, sender) != Err(SendFailed)
  {
  }

  /**
   * A vote on an active proposal that has already paid out is accepted (from a member
   * who has not voted yet) but pays nothing: the count is then past the threshold.
   */
  lemma CompletedProposalPaysOnce(s: State, sender: Address)
    requires WellFormed(s)
    requires s.activeProposalId in s.proposals && s.proposals[s.activeProposalId].votingComplete
    ensures VoteStep(s, sender).Ok? ==> VoteStep(s, sender).value.payout == None
    ensures VoteStep(s, sender).Ok? ==>
              |VoteStep(s, sender).value.next.proposals[s.activeProposalId].voters| > s.requiredVotes
  {
  }

  /** With a threshold below two no vote ever pays: the proposer already counts as one voter. */
  lemma LowThresholdNeverPays(s: State, sender: Address)
    requires WellFormed(s)
    requires s.requiredVotes < 2
    ensures VoteStep(s, sender).Ok? ==> VoteStep(s, sender).value.payout == None
  {
  }

  /** A subset of a finite set is no larger than it. */
  lemma {:induction false} SubsetCardinality<T>(a: set<T>, b: set<T>)
    requires a <= b
    ensures |a| <= |b|
  {
    if a != {} {
      var x :| x in a;
      SubsetCardinality(a - {x}, b - {x});
    }
  }

  /** With a threshold above the committee size no vote ever pays: voters are members. */
  lemma HighThresholdNeverPays(s: State, sender: Address)
    requires WellFormed(s)
    requires s.requiredVotes > |s.members|
    ensures VoteStep(s, sender).Ok? ==> VoteStep(s, sender).value.payout == None
  {
    var id := s.activeProposalId;
    if VoteStep(s, sender).Ok? {
      var p := s.proposals[id];
      assert ProposalValid(p, s.members, s.requiredVotes);
      SubsetCardinality(p.voters + {sender}, s.members);
    }
  }
}
