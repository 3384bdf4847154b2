/** The team directory (src/components/portal/TeamView.tsx): the list of
    departments to choose from, the search-and-department filter and the
    presence labels. */
module Team {
  import opened Text
  import opened Data
  import Seqs

  /** `new Set(xs)` read back in order: each value once, where it first
      appears. */
  function Distinct(xs: seq<string>): (r: seq<string>)
    ensures forall i, j :: 0 <= i < j < |r| ==> r[i] != r[j]
    ensures forall x :: x in r <==> x in xs
  {
    if |xs| == 0 then []
    else
      var d := Distinct(xs[..|xs| - 1]);
      assert xs == xs[..|xs| - 1] + [xs[|xs| - 1]];
      if xs[|xs| - 1] in d then d else d + [xs[|xs| - 1]]
  }

  /** The index where `x` first appears in `xs`. */
  function FirstIndex(xs: seq<string>, x: string): (k: nat)
    requires x in xs
    ensures k < |xs| && xs[k] == x && forall i :: 0 <= i < k ==> xs[i] != x
  {
    if xs[0] == x then 0 else 1 + FirstIndex(xs[1..], x)
  }

  lemma FirstIndexOfPrefix(xs: seq<string>, n: nat, x: string)
    requires n <= |xs| && x in xs[..n]
    ensures FirstIndex(xs, x) == FirstIndex(xs[..n], x)
  {
    var k := FirstIndex(xs[..n], x);
    assert xs[k] == x;
    var j := FirstIndex(xs, x);
    assert j <= k;
    assert xs[..n][j] == x;
  }

  /** The distinct values come in the order of their first appearance. */
  lemma {:induction false} DistinctInFirstAppearanceOrder(xs: seq<string>)
    ensures forall i, j :: 0 <= i < j < |Distinct(xs)| ==>
              FirstIndex(xs, Distinct(xs)[i]) < FirstIndex(xs, Distinct(xs)[j])
  {
    if |xs| > 0 {
      var init := xs[..|xs| - 1];
      var x := xs[|xs| - 1];
      var d := Distinct(init);
      DistinctInFirstAppearanceOrder(init);
      forall y | y in d ensures FirstIndex(xs, y) == FirstIndex(init, y) && FirstIndex(xs, y) < |init| {
        FirstIndexOfPrefix(xs, |init|, y);
      }
      if x !in d {
        assert FirstIndex(xs, x) == |init| by {
          assert x !in init;
        }
      }
    }
  }

  function Department(m: TeamMember): string
  {
    m.department
  }

  /** `departments`: "all" first, then each department once. */
  function Departments(team: seq<TeamMember>): (r: seq<string>)
    ensures |r| >= 1 && r[0] == "all"
    ensures forall m :: m in team ==> m.department in r
  {
    var depts := seq(|team|, i requires 0 <= i < |team| => team[i].department);
    assert forall m :: m in team ==> m.department in depts by {
      forall m | m in team ensures m.department in depts {
        var i :| 0 <= i < |team| && team[i] == m;
        assert depts[i] == m.department;
      }
    }
    ["all"] + Distinct(depts)
  }

  /** The search matches the name or the role, ignoring case. */
  predicate MatchesSearch(m: TeamMember, query: string)
  {
    Contains(ToLower(m.name), ToLower(query)) || Contains(ToLower(m.role), ToLower(query))
  }

  predicate MatchesDept(m: TeamMember, dept: string)
  {
    dept == "all" || m.department == dept
  }

  function Matches(query: string, dept: string): TeamMember -> bool
  {
    (m: TeamMember) => MatchesSearch(m, query) && MatchesDept(m, dept)
  }

  /** `filteredTeam`. */
  function Filtered(team: seq<TeamMember>, query: string, dept: string): (r: seq<TeamMember>)
    ensures forall i :: 0 <= i < |r| ==> MatchesSearch(r[i], query) && MatchesDept(r[i], dept)
  {
    Seqs.Filter(team, Matches(query, dept))
  }

  /** A member is listed exactly when the search and the department both
      match, and the list keeps the team's order. */
  lemma FilteredExactly(team: seq<TeamMember>, query: string, dept: string, m: TeamMember)
    ensures m in Filtered(team, query, dept) <==> m in team && MatchesSearch(m, query) && MatchesDept(m, dept)
    ensures Seqs.IsSubsequence(Filtered(team, query, dept), team)
  {
    Seqs.FilterMembership(team, Matches(query, dept), m);
    Seqs.FilterIsSubsequence(team, Matches(query, dept));
  }

  /** No search text and "all" departments show the whole team. */
  lemma EmptySearchShowsAll(team: seq<TeamMember>)
    ensures Filtered(team, "", "all") == team
  {
    forall m | m in team ensures Matches("", "all")(m) {
      ContainsEmpty(ToLower(m.name));
    }
    Seqs.FilterKeepsAll(team, Matches("", "all"));
  }

  /** `getStatusText`: each presence has its own label. */
  function StatusText(status: Presence): (shown: string)
    ensures shown == "Available" <==> status == Online
    ensures shown == "In a meeting" <==> status == Busy
    ensures shown == "Away" <==> status == Offline
  {
    match status
    case Online => "Available"
    case Busy => "In a meeting"
    case Offline => "Away"
  }
}
