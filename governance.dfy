/** Poll voting (src/components/portal/GovernanceView.tsx): one guarded
    vote per poll, and the rules the poll card uses to offer voting, show
    results and draw percentages. */
module Governance {
  import opened Wrappers
  import opened Data
  import Seqs
  import Numbers

  /** JavaScript truthiness of `userVoted`: `null` and `""` are falsy. */
  predicate HasVoted(p: Poll)
  {
    p.userVoted.Some? && p.userVoted.value != ""
  }

  /** Sum of the option votes. */
  function VoteSum(options: seq<PollOption>): int
  {
    if |options| == 0 then 0 else options[0].votes + VoteSum(options[1..])
  }

  /** The number of options with id `optionId`. */
  function OptionCount(options: seq<PollOption>, optionId: string): nat
  {
    Seqs.Count(options, (o: PollOption) => o.id == optionId)
  }

  /** The tally invariant: the recorded total is the sum of the votes. */
  predicate Tallied(p: Poll)
  {
    p.totalVotes == VoteSum(p.options)
  }

  function CastOnOption(o: PollOption, optionId: string): PollOption
  {
    if o.id == optionId then o.(votes := o.votes + 1) else o
  }

  /** The options after a vote for `optionId`. */
  function Cast(options: seq<PollOption>, optionId: string): (r: seq<PollOption>)
    ensures |r| == |options|
    ensures forall i :: 0 <= i < |r| ==> r[i].id == options[i].id && r[i].text == options[i].text
    ensures forall i :: 0 <= i < |r| ==>
              r[i].votes == options[i].votes + (if options[i].id == optionId then 1 else 0)
  {
    seq(|options|, i requires 0 <= i < |options| => CastOnOption(options[i], optionId))
  }

  /** One poll after the user picks `optionId` on it. */
  function VoteOn(p: Poll, optionId: string): (r: Poll)
    ensures HasVoted(p) || p.status == Closed ==> r == p
    ensures !(HasVoted(p) || p.status == Closed) ==>
              r == p.(totalVotes := p.totalVotes + 1, userVoted := Some(optionId), options := Cast(p.options, optionId))
  {
    if HasVoted(p) || p.status == Closed then p
    else p.(totalVotes := p.totalVotes + 1, userVoted := Some(optionId), options := Cast(p.options, optionId))
  }

  /** The poll list after `handleVote(pollId, optionId)`. */
  function Voted(polls: seq<Poll>, pollId: int, optionId: string): (r: seq<Poll>)
    ensures |r| == |polls|
    ensures forall i :: 0 <= i < |r| && polls[i].id != pollId ==> r[i] == polls[i]
    ensures forall i :: 0 <= i < |r| && polls[i].id == pollId ==> r[i] == VoteOn(polls[i], optionId)
  {
    seq(|polls|, i requires 0 <= i < |polls| => if polls[i].id == pollId then VoteOn(polls[i], optionId) else polls[i])
  }

  /** The votes after a cast grow by the number of options carrying that id. */
  lemma {:induction false} CastSum(options: seq<PollOption>, optionId: string)
    ensures VoteSum(Cast(options, optionId)) == VoteSum(options) + OptionCount(options, optionId)
  {
    if |options| > 0 {
      var r := Cast(options, optionId);
      CastSum(options[1..], optionId);
      assert r[1..] == Cast(options[1..], optionId);
      Seqs.FilterStep(options, (o: PollOption) => o.id == optionId, (o: PollOption) => 0.0);
    }
  }

  /** A vote keeps the tally invariant exactly when the chosen id names
      one option of the poll (a blocked vote keeps it trivially). */
  lemma VoteKeepsTally(p: Poll, optionId: string)
    requires Tallied(p)
    ensures !(HasVoted(p) || p.status == Closed) ==>
              (Tallied(VoteOn(p, optionId)) <==> OptionCount(p.options, optionId) == 1)
    ensures HasVoted(p) || p.status == Closed ==> Tallied(VoteOn(p, optionId))
  {
    CastSum(p.options, optionId);
  }

  /** When option ids are distinct, a vote for an id of the poll keeps the
      tally invariant. */
  lemma VoteForListedOption(p: Poll, k: nat)
    requires Tallied(p) && k < |p.options|
    requires forall i, j :: 0 <= i < j < |p.options| ==> p.options[i].id != p.options[j].id
    ensures Tallied(VoteOn(p, p.options[k].id))
  {
    OnlyOneMatch(p.options, p.options[k].id, k);
    VoteKeepsTally(p, p.options[k].id);
  }

  /** With distinct ids, at most one option carries a given id. */
  lemma {:induction false} OnlyOneMatch(options: seq<PollOption>, optionId: string, k: nat)
    requires k < |options| && options[k].id == optionId
    requires forall i, j :: 0 <= i < j < |options| ==> options[i].id != options[j].id
    ensures OptionCount(options, optionId) == 1
  {
    Seqs.FilterStep(options, (o: PollOption) => o.id == optionId, (o: PollOption) => 0.0);
    var t := options[1..];
    if k == 0 {
      NoMatch(t, optionId);
    } else {
      assert t[k - 1] == options[k];
      OnlyOneMatch(t, optionId, k - 1);
    }
  }

  lemma {:induction false} NoMatch(options: seq<PollOption>, optionId: string)
    requires forall i :: 0 <= i < |options| ==> options[i].id != optionId
    ensures OptionCount(options, optionId) == 0
  {
    if |options| > 0 {
      Seqs.FilterStep(options, (o: PollOption) => o.id == optionId, (o: PollOption) => 0.0);
      NoMatch(options[1..], optionId);
    }
  }

  /** A second vote on a poll changes nothing. */
  lemma SecondVoteIsNoOp(polls: seq<Poll>, pollId: int, first: string, second: string)
    requires first != ""
    ensures Voted(Voted(polls, pollId, first), pollId, second) == Voted(polls, pollId, first)
  {
  }

  /** `canVote`. */
  predicate CanVote(p: Poll)
  {
    p.status == Active && !HasVoted(p)
  }

  /** `showResults`. */
  predicate ShowResults(p: Poll)
  {
    HasVoted(p) || p.status == Closed
  }

  /** A poll offers voting exactly when a vote would change it. */
  lemma CanVoteIffVoteCounts(p: Poll, optionId: string)
    ensures CanVote(p) <==> VoteOn(p, optionId) != p
    ensures CanVote(p) <==> !ShowResults(p)
  {
    if CanVote(p) {
      assert VoteOn(p, optionId).totalVotes == p.totalVotes + 1;
    }
  }

  /** The percentage bar of an option. */
  function Percentage(votes: int, total: int): (pct: int)
    ensures total <= 0 ==> pct == 0
    ensures 0 <= votes <= total ==> 0 <= pct <= 100
  {
    if total > 0 then
      var x := votes as real / total as real * 100.0;
      assert 0 <= votes <= total ==> 0.0 <= x <= 100.0 by {
        if 0 <= votes <= total {
          assert votes as real / total as real <= 1.0;
        }
      }
      Numbers.Round(x)
    else 0
  }

  /** The default polls keep the tally invariant (12 = 8 + 4, 25 = 20 + 5),
      and `userVoted` is absent or names one of the poll's options. */
  lemma DefaultPollsConsistent()
    ensures forall i :: 0 <= i < |DefaultPolls| ==> Tallied(DefaultPolls[i])
    ensures forall i :: 0 <= i < |DefaultPolls| ==>
              DefaultPolls[i].userVoted.None?
              || exists k :: 0 <= k < |DefaultPolls[i].options| && DefaultPolls[i].options[k].id == DefaultPolls[i].userVoted.value
  {
    assert VoteSum(DefaultPolls[0].options) == 12;
    assert VoteSum(DefaultPolls[1].options) == 25;
    assert DefaultPolls[1].options[0].id == "a";
  }

  /** The view's state: the poll list. */
  class GovernanceView {
    var polls: seq<Poll>

    constructor(saved: Option<seq<Poll>>)
      ensures polls == saved.GetOr(DefaultPolls)
    {
      polls := saved.GetOr(DefaultPolls);
    }

    method HandleVote(pollId: int, optionId: string)
      modifies this
      ensures polls == Voted(old(polls), pollId, optionId)
    {
      polls := Voted(polls, pollId, optionId);
    }

    function ActivePolls(): seq<Poll>
      reads this
    {
      Seqs.Filter(polls, (p: Poll) => p.status == Active)
    }

    function ClosedPolls(): seq<Poll>
      reads this
    {
      Seqs.Filter(polls, (p: Poll) => p.status == Closed)
    }
  }
}
