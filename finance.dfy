/** Expense claims (src/components/portal/FinanceView.tsx): submitting a
    claim, the admin's approve/reject decision, the status filter and the
    per-status totals. */
module Finance {
  import opened Wrappers
  import opened Data
  import opened Dates
  import Seqs

  /** The Approve and Reject buttons are shown for this claim. */
  predicate ShowsDecision(role: string, c: Claim)
  {
    IsAdmin(role) && c.status == ApprovalStatus.Pending
  }

  /** The claim `handleSubmit` builds from the form: `amount` is the
      `parseFloat` of the amount field, `today` the current UTC date. */
  function NewClaim(now: int, claimant: string, desc: string, amount: real, today: Date, category: string): Claim
    requires Valid(today) && today.year < 1000000
  {
    Claim(now, claimant, desc, amount, FormatIso(today), ApprovalStatus.Pending, "uploaded_file.jpg", Some(category))
  }

  /** A new claim is pending, carries the user's name and the entered
      amount, and is dated on the day it was filed. */
  lemma NewClaimIsPending(now: int, claimant: string, desc: string, amount: real, today: Date, category: string)
    requires Valid(today) && today.year <= 9999
    ensures var c := NewClaim(now, claimant, desc, amount, today, category);
            c.status == ApprovalStatus.Pending && c.claimant == claimant && c.amount == amount
            && ParseIso(c.date) == Some(today)
  {
    ParseFormatIso(today);
  }

  /** The list after `handleSubmit`: the new claim goes in front. */
  function Submitted(claims: seq<Claim>, c: Claim): (r: seq<Claim>)
    ensures |r| == |claims| + 1 && r[0] == c && r[1..] == claims
  {
    [c] + claims
  }

  function SetStatus(c: Claim, id: int, status: ApprovalStatus): Claim
  {
    if c.id == id then c.(status := status) else c
  }

  /** The list after `updateStatus(id, status)`. */
  function StatusUpdated(claims: seq<Claim>, id: int, status: ApprovalStatus): (r: seq<Claim>)
    ensures |r| == |claims|
    ensures forall i :: 0 <= i < |r| && claims[i].id != id ==> r[i] == claims[i]
    ensures forall i :: 0 <= i < |r| && claims[i].id == id ==> r[i] == claims[i].(status := status)
  {
    seq(|claims|, i requires 0 <= i < |claims| => SetStatus(claims[i], id, status))
  }

  /** A decision is final: after `updateStatus` approves or rejects a
      claim, every claim with that id shows nobody the Approve and Reject
      buttons, so no second decision can be taken on it. */
  lemma DecisionIsFinal(claims: seq<Claim>, id: int, status: ApprovalStatus, role: string)
    requires status != ApprovalStatus.Pending
    ensures var u := StatusUpdated(claims, id, status);
            forall i :: 0 <= i < |u| && claims[i].id == id ==> u[i].status == status && !ShowsDecision(role, u[i])
  {
  }

  datatype ClaimFilter = All | Only(status: ApprovalStatus)

  /** `filteredClaims`. */
  function Filtered(claims: seq<Claim>, f: ClaimFilter): (r: seq<Claim>)
    ensures f == All ==> r == claims
  {
    match f
    case All => claims
    case Only(s) => Seqs.Filter(claims, HasStatus(s))
  }

  /** A status filter shows exactly the claims of that status, in order. */
  lemma FilteredByStatus(claims: seq<Claim>, s: ApprovalStatus, c: Claim)
    ensures c in Filtered(claims, Only(s)) <==> c in claims && c.status == s
    ensures Seqs.IsSubsequence(Filtered(claims, Only(s)), claims)
  {
    Seqs.FilterMembership(claims, HasStatus(s), c);
    Seqs.FilterIsSubsequence(claims, HasStatus(s));
  }

  /** The test `c => c.status === s`. */
  function HasStatus(s: ApprovalStatus): Claim -> bool
  {
    (c: Claim) => c.status == s
  }

  function Amount(c: Claim): real
  {
    c.amount
  }

  /** The sum of the amounts of the claims in status `s`. */
  function TotalOf(claims: seq<Claim>, s: ApprovalStatus): real
  {
    Seqs.Sum(Seqs.Filter(claims, HasStatus(s)), Amount)
  }

  datatype Totals = Totals(pending: real, approved: real, rejected: real)

  /** `totals`. */
  function ClaimTotals(claims: seq<Claim>): (t: Totals)
    ensures t.pending + t.approved + t.rejected == Seqs.Sum(claims, Amount)
  {
    TotalsPartition(claims);
    Totals(TotalOf(claims, ApprovalStatus.Pending), TotalOf(claims, Approved), TotalOf(claims, Rejected))
  }

  /** Every claim has one status, so the three totals add up to the sum of
      all amounts. */
  lemma TotalsPartition(claims: seq<Claim>)
    ensures TotalOf(claims, ApprovalStatus.Pending) + TotalOf(claims, Approved) + TotalOf(claims, Rejected)
            == Seqs.Sum(claims, Amount)
  {
    Seqs.ThreeWaySum(claims, HasStatus(ApprovalStatus.Pending),
                     HasStatus(Approved), HasStatus(Rejected), Amount);
  }

  /** A claim in front adds its amount to the total of its status. */
  lemma TotalOfCons(c: Claim, claims: seq<Claim>, s: ApprovalStatus)
    ensures TotalOf([c] + claims, s) == (if c.status == s then c.amount else 0.0) + TotalOf(claims, s)
  {
    assert ([c] + claims)[1..] == claims;
    Seqs.FilterStep([c] + claims, HasStatus(s), Amount);
  }

  /** A submitted claim adds its amount to the pending total and leaves
      the others alone. */
  lemma SubmittedTotals(claims: seq<Claim>, c: Claim)
    requires c.status == ApprovalStatus.Pending
    ensures ClaimTotals(Submitted(claims, c)) ==
            ClaimTotals(claims).(pending := ClaimTotals(claims).pending + c.amount)
  {
    var r := Submitted(claims, c);
    assert r == [c] + claims;
    assert TotalOf(r, ApprovalStatus.Pending) == TotalOf(claims, ApprovalStatus.Pending) + c.amount by {
      TotalOfCons(c, claims, ApprovalStatus.Pending);
    }
    assert TotalOf(r, Approved) == TotalOf(claims, Approved) by {
      TotalOfCons(c, claims, Approved);
    }
    assert TotalOf(r, Rejected) == TotalOf(claims, Rejected) by {
      TotalOfCons(c, claims, Rejected);
    }
  }

  /** The default claims total 15000 pending, 4500 approved and 1200
      rejected. */
  lemma DefaultTotals()
    ensures ClaimTotals(DefaultClaims) == Totals(15000.0, 4500.0, 1200.0)
  {
    var c0, c1, c2 := DefaultClaims[0], DefaultClaims[1], DefaultClaims[2];
    assert DefaultClaims == [c0] + ([c1] + [c2]);
    assert c0.amount == 15000.0 && c0.status == ApprovalStatus.Pending;
    assert c1.amount == 4500.0 && c1.status == Approved;
    assert c2.amount == 1200.0 && c2.status == Rejected;
    OneOfEachTotals(c0, c1, c2);
  }

  /** Three claims, one per status, total their own amounts. */
  lemma OneOfEachTotals(c0: Claim, c1: Claim, c2: Claim)
    requires c0.status == ApprovalStatus.Pending && c1.status == Approved && c2.status == Rejected
    ensures ClaimTotals([c0] + ([c1] + [c2])) == Totals(c0.amount, c1.amount, c2.amount)
  {
    ThreeTotals(c0, c1, c2, ApprovalStatus.Pending);
    ThreeTotals(c0, c1, c2, Approved);
    ThreeTotals(c0, c1, c2, Rejected);
  }

  lemma ThreeTotals(c0: Claim, c1: Claim, c2: Claim, s: ApprovalStatus)
    ensures TotalOf([c0] + ([c1] + [c2]), s) == (if s == c0.status then c0.amount else 0.0)
              + (if s == c1.status then c1.amount else 0.0) + (if s == c2.status then c2.amount else 0.0)
  {
    assert [c2] + [] == [c2];
    TotalOfCons(c2, [], s);
    TotalOfCons(c1, [c2], s);
    TotalOfCons(c0, [c1] + [c2], s);
  }

  /** The view's state: the claim list and the status filter. */
  class FinanceView {
    var claims: seq<Claim>
    var filter: ClaimFilter

    constructor(saved: Option<seq<Claim>>)
      ensures claims == saved.GetOr(DefaultClaims) && filter == All
    {
      claims := saved.GetOr(DefaultClaims);
      filter := All;
    }

    method HandleSubmit(now: int, claimant: string, desc: string, amount: real, today: Date, category: string)
      requires Valid(today) && today.year < 1000000
      modifies this
      ensures claims == Submitted(old(claims), NewClaim(now, claimant, desc, amount, today, category))
      ensures filter == old(filter)
    {
      claims := Submitted(claims, NewClaim(now, claimant, desc, amount, today, category));
    }

    method UpdateStatus(id: int, status: ApprovalStatus)
      modifies this
      ensures claims == StatusUpdated(old(claims), id, status)
      ensures filter == old(filter)
    {
      claims := StatusUpdated(claims, id, status);
    }

    method SetFilter(f: ClaimFilter)
      modifies this
      ensures claims == old(claims) && filter == f
    {
      filter := f;
    }

    /** Pressing Approve or Reject on a claim whose buttons are shown: the
        claim, and any other with its id, takes the decision. */
    method Decide(role: string, k: nat, approve: bool)
      requires k < |claims| && ShowsDecision(role, claims[k])
      modifies this
      ensures claims == StatusUpdated(old(claims), old(claims)[k].id, if approve then Approved else Rejected)
      ensures filter == old(filter)
    {
      UpdateStatus(claims[k].id, if approve then Approved else Rejected);
    }
  }
}
