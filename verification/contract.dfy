/**
 * The contract as an object: its storage fields are updated in place by the three
 * entrypoints, each proved to do what the matching step function of `MultiSig` says.
 * The caller's address is a parameter; the host balance is a field.
 */
module Contract {
  import opened MultiSig

  class MultiSigContract {
    const members: set<Address>
    const requiredVotes: nat
    var proposals: map<int, Proposal>
    var activeProposalId: int
    var balance: nat

    /** The storage as a value. */
    function Snapshot(): State
      reads this
    {
      State(members, requiredVotes, proposals, activeProposalId, balance)
    }

    ghost predicate Valid()
      reads this
    {
      WellFormed(Snapshot())
    }

    constructor (members: set<Address>, requiredVotes: nat, initialBalance: nat)
      ensures Valid()
      ensures Snapshot() == Init(members, requiredVotes, initialBalance)
    {
      this.members := members;
      this.requiredVotes := requiredVotes;
      proposals := map[];
      activeProposalId := 0;
      balance := initialBalance;
    }

    method Deposit(sender: Address, amount: nat) returns (r: Result<Option<Transfer>>)
      requires Valid()
      modifies this
      ensures Valid()
      ensures DepositStep(old(Snapshot()), sender, amount)
                == if r.Ok? then Ok(Effect(Snapshot(), r.value)) else Err(r.error)
      ensures r.Err? ==> Snapshot() == old(Snapshot())
    {
      DepositPreservesWellFormed(Snapshot(), sender, amount);
      if sender !in members {
        return Err(NotAMember);
      }
      balance := balance + amount;
      r := Ok(None);
    }

    method SubmitProposal(sender: Address, paymentAmt: nat, receiver: Address) returns (r: Result<Option<Transfer>>)
      requires Valid()
      modifies this
      ensures Valid()
      ensures SubmitStep(old(Snapshot()), sender, paymentAmt, receiver)
                == if r.Ok? then Ok(Effect(Snapshot(), r.value)) else Err(r.error)
      ensures r.Err? ==> Snapshot() == old(Snapshot())
    {
      SubmitPreservesWellFormed(Snapshot(), sender, paymentAmt, receiver);
      if sender !in members {
        return Err(NotAMember);
      }
      if paymentAmt > balance {
        return Err(InsufficientFunds);
      }
      activeProposalId := activeProposalId + 1;
      proposals := proposals[activeProposalId := Proposal(paymentAmt, receiver, {sender}, false)];
      r := Ok(None);
    }

    method VoteOnProposal(sender: Address) returns (r: Result<Option<Transfer>>)
      requires Valid()
      modifies this
      ensures Valid()
      ensures VoteStep(old(Snapshot()), sender)
                == if r.Ok? then Ok(Effect(Snapshot(), r.value)) else Err(r.error)
      ensures r.Err? ==> Snapshot() == old(Snapshot())
    {
      VotePreservesWellFormed(Snapshot(), sender);
      NoSendFailure(Snapshot(), sender);
      if sender !in members {
        return Err(NotAMember);
      }
      if activeProposalId !in proposals {
        return Err(NoSuchProposal);
      }
      if sender in proposals[activeProposalId].voters {
        return Err(AlreadyVoted);
      }
      var p := proposals[activeProposalId];
      var voters := p.voters + {sender};
      if |voters| == requiredVotes {
        balance := balance - p.paymentAmt;
        proposals := proposals[activeProposalId := p.(voters := voters, votingComplete := true)];
        r := Ok(Some(Transfer(p.receiver, p.paymentAmt)));
      } else {
        proposals := proposals[activeProposalId := p.(voters := voters)];
        r := Ok(None);
      }
    }
  }

  const Alice: Address := "alice"
  const Bob: Address := "bob"
  const Charlie: Address := "charlie"
  const Dani: Address := "dani"
  const Earl: Address := "earl"

  const Committee: set<Address> := {Alice, Bob, Charlie, Earl}

  /**
   * The first half of the recorded scenario: a committee of four with threshold 3,
   * a deposit of 50, a proposal of 30 to a non-member, a refused vote by that
   * non-member, then two votes that complete the proposal and pay it out.
   */
  method FirstProposalScenario() returns (c: MultiSigContract, rDani: Result<Option<Transfer>>, rCharlie: Result<Option<Transfer>>)
    ensures rDani == Err(NotAMember) && rCharlie == Ok(Some(Transfer(Dani, 30)))
    ensures fresh(c) && c.Valid()
    ensures c.Snapshot() == State(Committee, 3, map[1 := Proposal(30, Dani, {Alice, Bob, Charlie}, true)], 1, 20)
  {
    assert Dani !in Committee;
    c := new MultiSigContract(Committee, 3, 0);
    var r := c.Deposit(Alice, 50);
    assert c.balance == 50;
    r := c.SubmitProposal(Alice, 30, Dani);
    assert c.proposals[1] == Proposal(30, Dani, {Alice}, false);
    rDani := c.VoteOnProposal(Dani);
    assert |{Alice} + {Bob}| == 2;
    r := c.VoteOnProposal(Bob);
    assert c.proposals[1] == Proposal(30, Dani, {Alice, Bob}, false) && c.balance == 50;
    assert |{Alice, Bob} + {Charlie}| == 3;
    rCharlie := c.VoteOnProposal(Charlie);
    assert c.proposals.Keys == {1} && c.proposals[1] == Proposal(30, Dani, {Alice, Bob, Charlie}, true);
  }

  /**
   * The whole recorded scenario: after the first proposal has paid out, a second
   * proposal of 20 supersedes it as proposal 2 and receives one vote, which does not reach the
   * threshold. The first proposal stays in the map unchanged.
   */
  method Scenario() returns (finalBalance: nat, activeId: int, first: Proposal, second: Proposal)
    ensures finalBalance == 20 && activeId == 2
    ensures first == Proposal(30, Dani, {Alice, Bob, Charlie}, true)
    ensures second == Proposal(20, Dani, {Alice, Charlie}, false)
  {
    var c, _, _ := FirstProposalScenario();
    var r := c.SubmitProposal(Alice, 20, Dani);
    assert c.activeProposalId == 2 && c.proposals[2] == Proposal(20, Dani, {Alice}, false);
    assert |{Alice} + {Charlie}| == 2;
    r := c.VoteOnProposal(Charlie);
    assert r == Ok(None);
    finalBalance, activeId := c.balance, c.activeProposalId;
    first, second := c.proposals[1], c.proposals[2];
  }
}
