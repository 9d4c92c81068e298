/**
 * Sequences of entrypoint calls. `Apply` dispatches one call to its step function;
 * `Run` applies a sequence of calls in order, a rejected call leaving the state as it
 * was, and records the accepted calls and the payments they emitted.
 */
module Traces {
  import opened MultiSig

  /** An entrypoint call with its caller (and, for a deposit, the attached amount). */
  datatype Call =
    | Deposit(sender: Address, amount: nat)
    | Submit(sender: Address, paymentAmt: nat, receiver: Address)
    | Vote(sender: Address)

  function Apply(s: State, c: Call): (r: Result<Effect>)
    ensures c.sender !in s.members ==> r == Err(NotAMember)
    ensures r.Ok? ==> r.value.next.members == s.members && r.value.next.requiredVotes == s.requiredVotes
  {
    match c
    case Deposit(sender, amount) => DepositStep(s, sender, amount)
    case Submit(sender, paymentAmt, receiver) => SubmitStep(s, sender, paymentAmt, receiver)
    case Vote(sender) => VoteStep(s, sender)
  }

  datatype Outcome = Outcome(final: State, accepted: seq<Call>, transfers: seq<Transfer>)

  function PayoutList(p: Option<Transfer>): seq<Transfer>
  {
    match p
    case None => []
    case Some(t) => [t]
  }

  function Run(s: State, calls: seq<Call>): (o: Outcome)
    ensures o.final.members == s.members && o.final.requiredVotes == s.requiredVotes
    ensures |o.accepted| <= |calls| && |o.transfers| <= |o.accepted|
    decreases |calls|
  {
    if calls == [] then Outcome(s, [], [])
    else match Apply(s, calls[0])
      case Err(_) => Run(s, calls[1..])
      case Ok(e) =>
        var o := Run(e.next, calls[1..]);
        Outcome(o.final, [calls[0]] + o.accepted, PayoutList(e.payout) + o.transfers)
  }

  /** The number of proposal submissions among the calls. */
  function Submissions(calls: seq<Call>): nat
  {
    if calls == [] then 0 else (if calls[0].Submit? then 1 else 0) + Submissions(calls[1..])
  }

  /** The total amount attached to the deposits among the calls. */
  function Deposited(calls: seq<Call>): nat
  {
    if calls == [] then 0 else (if calls[0].Deposit? then calls[0].amount else 0) + Deposited(calls[1..])
  }

  /** The total amount of the payments. */
  function Paid(ts: seq<Transfer>): nat
  {
    if ts == [] then 0 else ts[0].amount + Paid(ts[1..])
  }

  /** The ids of the proposals that have paid out. */
  ghost function CompletedIds(s: State): set<int>
  {
    set k | k in s.proposals && s.proposals[k].votingComplete
  }

  lemma ApplyPreservesWellFormed(s: State, c: Call)
    requires WellFormed(s)
    ensures Apply(s, c).Ok? ==> WellFormed(Apply(s, c).value.next)
  {
    match c
    case Deposit(sender, amount) => DepositPreservesWellFormed(s, sender, amount);
    case Submit(sender, paymentAmt, receiver) => SubmitPreservesWellFormed(s, sender, paymentAmt, receiver);
    case Vote(sender) => VotePreservesWellFormed(s, sender);
  }

  /** Every state reached from a well-formed state is well-formed. */
  lemma {:induction false} RunPreservesWellFormed(s: State, calls: seq<Call>)
    requires WellFormed(s)
    ensures WellFormed(Run(s, calls).final)
    decreases |calls|
  {
    if calls != [] {
      ApplyPreservesWellFormed(s, calls[0]);
      match Apply(s, calls[0])
      case Err(_) => RunPreservesWellFormed(s, calls[1..]);
      case Ok(e) => RunPreservesWellFormed(e.next, calls[1..]);
    }
  }

  /** The active id advances by exactly one per accepted submission and by nothing else. */
  lemma {:induction false} RunCountsSubmissions(s: State, calls: seq<Call>)
    ensures Run(s, calls).final.activeProposalId == s.activeProposalId + Submissions(Run(s, calls).accepted)
    decreases |calls|
  {
    if calls != [] {
      match Apply(s, calls[0])
      case Err(_) => RunCountsSubmissions(s, calls[1..]);
      case Ok(e) =>
        RunCountsSubmissions(e.next, calls[1..]);
        var o := Run(e.next, calls[1..]);
        assert ([calls[0]] + o.accepted)[1..] == o.accepted;
    }
  }

  /** Funds are conserved: what is held at the end plus what was paid out is what was held plus what was deposited. */
  lemma {:induction false} RunConservesFunds(s: State, calls: seq<Call>)
    ensures var o := Run(s, calls);
            o.final.balance + Paid(o.transfers) == s.balance + Deposited(o.accepted)
    decreases |calls|
  {
    if calls != [] {
      match Apply(s, calls[0])
      case Err(_) => RunConservesFunds(s, calls[1..]);
      case Ok(e) =>
        RunConservesFunds(e.next, calls[1..]);
        var o := Run(e.next, calls[1..]);
        assert ([calls[0]] + o.accepted)[1..] == o.accepted;
        match e.payout
        case None =>
          assert PayoutList(e.payout) + o.transfers == o.transfers;
        case Some(t) =>
          assert (PayoutList(e.payout) + o.transfers)[1..] == o.transfers;
    }
  }

  /**
   * Only the active proposal can change: every proposal other than the active one
   * keeps its record for the rest of the run.
   */
  lemma {:induction false} RunFreezesSuperseded(s: State, calls: seq<Call>, k: int)
    requires WellFormed(s)
    requires k in s.proposals && k != s.activeProposalId
    ensures k in Run(s, calls).final.proposals && Run(s, calls).final.proposals[k] == s.proposals[k]
    decreases |calls|
  {
    if calls != [] {
      ApplyPreservesWellFormed(s, calls[0]);
      match Apply(s, calls[0])
      case Err(_) => RunFreezesSuperseded(s, calls[1..], k);
      case Ok(e) => RunFreezesSuperseded(e.next, calls[1..], k);
    }
  }

  /** No call removes a proposal or a voter: an accepted call keeps every id and only adds voters. */
  lemma ApplyKeepsVoters(s: State, c: Call, k: int, a: Address)
    requires WellFormed(s)
    requires k in s.proposals && a in s.proposals[k].voters
    ensures Apply(s, c).Ok? ==>
              k in Apply(s, c).value.next.proposals && a in Apply(s, c).value.next.proposals[k].voters
  {
    if c.Submit? {
      assert s.activeProposalId + 1 !in s.proposals;
    }
  }

  /** A voter of a proposal stays a voter of it through any sequence of calls. */
  lemma {:induction false} RunKeepsVoters(s: State, calls: seq<Call>, k: int, a: Address)
    requires WellFormed(s)
    requires k in s.proposals && a in s.proposals[k].voters
    ensures k in Run(s, calls).final.proposals && a in Run(s, calls).final.proposals[k].voters
    decreases |calls|
  {
    if calls != [] {
      ApplyPreservesWellFormed(s, calls[0]);
      ApplyKeepsVoters(s, calls[0], k, a);
      match Apply(s, calls[0])
      case Err(_) => RunKeepsVoters(s, calls[1..], k, a);
      case Ok(e) => RunKeepsVoters(e.next, calls[1..], k, a);
    }
  }

  /**
   * The proposer counts as a voter for good: after an accepted submission, whatever
   * calls follow, the submitter is among the voters of the proposal it created.
   */
  lemma ProposerStaysVoter(s: State, sender: Address, paymentAmt: nat, receiver: Address, calls: seq<Call>)
    requires WellFormed(s)
    requires SubmitStep(s, sender, paymentAmt, receiver).Ok?
    ensures var t := SubmitStep(s, sender, paymentAmt, receiver).value.next;
            var id := s.activeProposalId + 1;
            && id in Run(t, calls).final.proposals
            && sender in Run(t, calls).final.proposals[id].voters
  {
    SubmitPreservesWellFormed(s, sender, paymentAmt, receiver);
    var t := SubmitStep(s, sender, paymentAmt, receiver).value.next;
    RunKeepsVoters(t, calls, s.activeProposalId + 1, sender);
  }

  /**
   * A submission supersedes the active proposal for good: whatever calls follow,
   * the proposal that was active before it is never changed again.
   */
  lemma SupersededProposalIsFrozen(s: State, sender: Address, paymentAmt: nat, receiver: Address, calls: seq<Call>)
    requires WellFormed(s)
    requires SubmitStep(s, sender, paymentAmt, receiver).Ok?
    requires s.activeProposalId in s.proposals
    ensures var t := SubmitStep(s, sender, paymentAmt, receiver).value.next;
            && s.activeProposalId in Run(t, calls).final.proposals
            && Run(t, calls).final.proposals[s.activeProposalId] == s.proposals[s.activeProposalId]
  {
    SubmitPreservesWellFormed(s, sender, paymentAmt, receiver);
    var t := SubmitStep(s, sender, paymentAmt, receiver).value.next;
    RunFreezesSuperseded(t, calls, s.activeProposalId);
  }

  /** A call pays out exactly when it completes a proposal that was not complete before. */
  lemma ApplyCompletesAtMostOne(s: State, c: Call)
    requires WellFormed(s)
    requires Apply(s, c).Ok?
    ensures var e := Apply(s, c).value;
            if e.payout.Some? then
              s.activeProposalId !in CompletedIds(s) && CompletedIds(e.next) == CompletedIds(s) + {s.activeProposalId}
            else CompletedIds(e.next) == CompletedIds(s)
  {
  }

  /** Each payment completes one more proposal, and none is completed without a payment. */
  lemma {:induction false} RunCountsCompletions(s: State, calls: seq<Call>)
    requires WellFormed(s)
    ensures var o := Run(s, calls);
            CompletedIds(s) <= CompletedIds(o.final)
            && |CompletedIds(o.final)| == |CompletedIds(s)| + |o.transfers|
    decreases |calls|
  {
    if calls != [] {
      ApplyPreservesWellFormed(s, calls[0]);
      match Apply(s, calls[0])
      case Err(_) => RunCountsCompletions(s, calls[1..]);
      case Ok(e) =>
        ApplyCompletesAtMostOne(s, calls[0]);
        RunCountsCompletions(e.next, calls[1..]);
    }
  }

  /** A set of integers that holds exactly 1..n has n elements. */
  lemma {:induction false} RangeCardinality(ids: set<int>, n: nat)
    requires forall k :: k in ids <==> 1 <= k <= n
    ensures |ids| == n
  {
    if n > 0 {
      assert n in ids;
      RangeCardinality(ids - {n}, n - 1);
    } else {
      assert forall k :: k !in ids;
      assert ids == {};
    }
  }

  /**
   * From origination, after any sequence of calls: the proposal ids are exactly
   * 1..n for n accepted submissions, every recorded voter is a committee member,
   * funds are conserved, and there are at most as many payments as proposals.
   */
  lemma FromOrigination(members: set<Address>, requiredVotes: nat, initialBalance: nat, calls: seq<Call>)
    ensures var o := Run(Init(members, requiredVotes, initialBalance), calls);
            var n := Submissions(o.accepted);
            && o.final.activeProposalId == n
            && (forall k :: k in o.final.proposals <==> 1 <= k <= n)
            && (forall k | k in o.final.proposals :: o.final.proposals[k].voters <= members)
            && o.final.balance + Paid(o.transfers) == initialBalance + Deposited(o.accepted)
            && |o.transfers| <= n
  {
    var s := Init(members, requiredVotes, initialBalance);
    var o := Run(s, calls);
    var n := Submissions(o.accepted);
    RunPreservesWellFormed(s, calls);
    RunCountsSubmissions(s, calls);
    RunConservesFunds(s, calls);
    RunCountsCompletions(s, calls);
    assert CompletedIds(s) == {};
    forall k | k in o.final.proposals
      ensures o.final.proposals[k].voters <= members
    {
      assert ProposalValid(o.final.proposals[k], o.final.members, o.final.requiredVotes);
    }
    SubsetCardinality(CompletedIds(o.final), o.final.proposals.Keys);
    RangeCardinality(o.final.proposals.Keys, n);
  }

  /** Votes on a missing active proposal fail; before any submission every vote fails. */
  lemma NoVoteBeforeSubmission(s: State, sender: Address)
    requires WellFormed(s)
    requires s.activeProposalId == 0
    ensures VoteStep(s, sender).Err?
    ensures sender in s.members ==> VoteStep(s, sender) == Err(NoSuchProposal)
  {
  }

  /**
   * The number of voters of a proposal can exceed the threshold: once a proposal has
   * paid out, a member who has not voted yet can still vote on it.
   */
  lemma VotersCanExceedThreshold()
    ensures var s0 := Init({"a", "b", "c"}, 2, 0);
            var o := Run(s0, [Deposit("a", 10), Submit("a", 5, "x"), Vote("b"), Vote("c")]);
            && |o.final.proposals[1].voters| == 3 > o.final.requiredVotes
            && o.final.proposals[1].votingComplete
            && o.transfers == [Transfer("x", 5)]
            && o.final.balance == 5
  {
    var calls := [Deposit("a", 10), Submit("a", 5, "x"), Vote("b"), Vote("c")];
    var s0 := Init({"a", "b", "c"}, 2, 0);
    var s1 := s0.(balance := 10);
    var s2 := s1.(activeProposalId := 1, proposals := map[1 := Proposal(5, "x", {"a"}, false)]);
    var s3 := s2.(proposals := map[1 := Proposal(5, "x", {"a", "b"}, true)], balance := 5);
    var s4 := s3.(proposals := map[1 := Proposal(5, "x", {"a", "b", "c"}, true)]);
    assert Apply(s3, calls[3]) == Ok(Effect(s4, None)) by {
      assert "c" !in {"a", "b"} && {"a", "b"} + {"c"} == {"a", "b", "c"} && |{"a", "b", "c"}| == 3;
      assert s3.proposals[1 := Proposal(5, "x", {"a", "b", "c"}, true)] == s4.proposals;
    }
    assert Run(s3, calls[3..]) == Outcome(s4, [calls[3]], []) by {
      assert calls[3..][1..] == [];
    }
    assert Apply(s2, calls[2]) == Ok(Effect(s3, Some(Transfer("x", 5)))) by {
      assert "b" !in {"a"} && {"a"} + {"b"} == {"a", "b"} && |{"a", "b"}| == 2;
      assert s2.proposals[1 := Proposal(5, "x", {"a", "b"}, true)] == s3.proposals;
    }
    assert Run(s2, calls[2..]) == Outcome(s4, [calls[2], calls[3]], [Transfer("x", 5)]) by {
      assert calls[2..][1..] == calls[3..];
    }
    assert Apply(s1, calls[1]) == Ok(Effect(s2, None));
    assert calls[1..][1..] == calls[2..];
    assert Apply(s0, calls[0]) == Ok(Effect(s1, None));
  }
}
