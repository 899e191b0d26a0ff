/**
 * The admin list view of src/pages/admin/LeadsList.tsx: the status-filter
 * state cell with its card toggle, dropdown and reset, the query it drives,
 * and the per-status counts shown on the five cards.
 */
module LeadsList {
  import opened Wrappers
  import opened Leads

  datatype StatusFilter = All | Only(status: LeadStatus)

  /** The statuses of the five cards, in display order: every LeadStatus once. */
  const CardStatuses: seq<LeadStatus> := [New, Contacted, Proposal, Won, Lost]

  lemma CardsCoverEveryStatus(s: LeadStatus)
    ensures s in CardStatuses
  {
  }

  /** Clicking card `card`: back to 'all' if that card is the filter, otherwise filter on it. */
  function Toggle(current: StatusFilter, card: LeadStatus): (next: StatusFilter)
    ensures next == All <==> current == Only(card)
    ensures next != All ==> next == Only(card)
  {
    if current == Only(card) then All else Only(card)
  }

  /**
   * Clicking the same card twice restores the filter exactly when it was
   * 'all' or that card; from another status's filter it ends at 'all'.
   */
  lemma ToggleTwice(current: StatusFilter, card: LeadStatus)
    ensures Toggle(Toggle(current, card), card) == current <==> (current == All || current == Only(card))
    ensures Toggle(Toggle(current, card), card) != current ==> Toggle(Toggle(current, card), card) == All
  {
  }

  /** The argument of `useLeads`: 'all' queries without a status restriction. */
  function QueryFilter(f: StatusFilter): (r: Option<LeadStatus>)
    ensures r.None? <==> f == All
    ensures f.Only? ==> r == Some(f.status)
  {
    match f
    case All => None
    case Only(s) => Some(s)
  }

  /** `r` is `s` with some elements left out, the others kept in order. */
  ghost predicate IsSubsequence(r: seq<Lead>, s: seq<Lead>)
    decreases |s|
  {
    r == [] || (s != [] && ((r[0] == s[0] && IsSubsequence(r[1..], s[1..])) || IsSubsequence(r, s[1..])))
  }

  /** `leads.filter((l) => l.status === s)`: the leads of that status, each as often as loaded, in the loaded order. */
  function WithStatus(leads: seq<Lead>, s: LeadStatus): (r: seq<Lead>)
    ensures |r| <= |leads|
    ensures forall l :: multiset(r)[l] == if l.status == s then multiset(leads)[l] else 0
    ensures IsSubsequence(r, leads)
    ensures forall l :: l in r <==> l in leads && l.status == s
    ensures (forall i :: 0 <= i < |leads| ==> leads[i].status == s) ==> r == leads
    ensures (forall i :: 0 <= i < |leads| ==> leads[i].status != s) ==> r == []
    decreases |leads|
  {
    if leads == [] then []
    else
      var rest := WithStatus(leads[1..], s);
      var r := if leads[0].status == s then [leads[0]] + rest else rest;
      StepKeepsCounts(leads, s, rest, r);
      StepKeepsOrder(leads, s, rest, r);
      CountsGiveMembers(leads, s, r);
      StepUniform(leads, s, rest, r);
      r
  }

  /** The filter's counts carry over from the tail to the whole sequence. */
  lemma StepKeepsCounts(leads: seq<Lead>, s: LeadStatus, rest: seq<Lead>, r: seq<Lead>)
    requires leads != []
    requires r == if leads[0].status == s then [leads[0]] + rest else rest
    requires forall l :: multiset(rest)[l] == if l.status == s then multiset(leads[1..])[l] else 0
    ensures forall l :: multiset(r)[l] == if l.status == s then multiset(leads)[l] else 0
  {
    assert leads == [leads[0]] + leads[1..];
    assert multiset(leads) == multiset{leads[0]} + multiset(leads[1..]);
    if leads[0].status == s {
      assert multiset(r) == multiset{leads[0]} + multiset(rest);
    }
  }

  /** The filter's order carries over from the tail to the whole sequence. */
  lemma StepKeepsOrder(leads: seq<Lead>, s: LeadStatus, rest: seq<Lead>, r: seq<Lead>)
    requires leads != []
    requires r == if leads[0].status == s then [leads[0]] + rest else rest
    requires IsSubsequence(rest, leads[1..])
    ensures IsSubsequence(r, leads)
  {
    if leads[0].status == s {
      assert r[0] == leads[0] && r[1..] == rest;
    }
  }

  /** Counts decide membership. */
  lemma CountsGiveMembers(leads: seq<Lead>, s: LeadStatus, r: seq<Lead>)
    requires forall l :: multiset(r)[l] == if l.status == s then multiset(leads)[l] else 0
    ensures forall l :: l in r <==> l in leads && l.status == s
  {
    forall l ensures l in r <==> l in leads && l.status == s {
      assert l in r <==> multiset(r)[l] > 0;
      assert l in leads <==> multiset(leads)[l] > 0;
    }
  }

  /** A sequence all of that status is kept whole; one with none of it is dropped. */
  lemma StepUniform(leads: seq<Lead>, s: LeadStatus, rest: seq<Lead>, r: seq<Lead>)
    requires leads != []
    requires r == if leads[0].status == s then [leads[0]] + rest else rest
    requires (forall i :: 0 <= i < |leads[1..]| ==> leads[1..][i].status == s) ==> rest == leads[1..]
    requires (forall i :: 0 <= i < |leads[1..]| ==> leads[1..][i].status != s) ==> rest == []
    ensures (forall i :: 0 <= i < |leads| ==> leads[i].status == s) ==> r == leads
    ensures (forall i :: 0 <= i < |leads| ==> leads[i].status != s) ==> r == []
  {
    if forall i :: 0 <= i < |leads| ==> leads[i].status == s {
      assert forall i :: 0 <= i < |leads[1..]| ==> leads[1..][i].status == s;
      assert leads == [leads[0]] + leads[1..];
    }
    if forall i :: 0 <= i < |leads| ==> leads[i].status != s {
      assert forall i :: 0 <= i < |leads[1..]| ==> leads[1..][i].status != s;
    }
  }

  /** `leads?.filter(...).length || 0`: the card's count, 0 while nothing is loaded. */
  function CardCount(loaded: Option<seq<Lead>>, s: LeadStatus): (n: nat)
    ensures loaded.None? ==> n == 0
    ensures loaded.Some? ==> n == |WithStatus(loaded.value, s)| && n <= |loaded.value|
  {
    match loaded
    case None => 0
    case Some(leads) => |WithStatus(leads, s)|
  }

  /** The five card counts add up to the number of loaded leads. */
  lemma {:induction false} CountsCoverEveryLead(leads: seq<Lead>)
    ensures CardCount(Some(leads), New) + CardCount(Some(leads), Contacted) + CardCount(Some(leads), Proposal)
      + CardCount(Some(leads), Won) + CardCount(Some(leads), Lost) == |leads|
  {
    if leads != [] {
      CountsCoverEveryLead(leads[1..]);
      CountStep(leads, New);
      CountStep(leads, Contacted);
      CountStep(leads, Proposal);
      CountStep(leads, Won);
      CountStep(leads, Lost);
    }
  }

  /** Each loaded lead adds one to the count of its own status and nothing to the others. */
  lemma CountStep(leads: seq<Lead>, s: LeadStatus)
    requires leads != []
    ensures CardCount(Some(leads), s) == CardCount(Some(leads[1..]), s) + if leads[0].status == s then 1 else 0
  {
  }

  /**
   * The counts are taken over the filtered answer: under a status filter the
   * card of that status counts every loaded lead and the others show 0.
   */
  lemma FilteredCounts(rows: map<string, Lead>, s: LeadStatus, leads: seq<Lead>, t: LeadStatus)
    requires IsListing(rows, Some(s), leads)
    ensures CardCount(Some(leads), s) == |leads|
    ensures t != s ==> CardCount(Some(leads), t) == 0
  {
    forall i | 0 <= i < |leads| ensures leads[i].status == s {
      assert leads[i] in leads;
    }
    UniformCounts(leads, s, t);
  }

  /** Leads all of one status: that card counts them all, every other card none. */
  lemma {:induction false} UniformCounts(leads: seq<Lead>, s: LeadStatus, t: LeadStatus)
    requires forall i :: 0 <= i < |leads| ==> leads[i].status == s
    ensures CardCount(Some(leads), s) == |leads|
    ensures t != s ==> CardCount(Some(leads), t) == 0
  {
    if leads != [] {
      assert forall i :: 0 <= i < |leads[1..]| ==> leads[1..][i].status == s by {
        forall i | 0 <= i < |leads[1..]| ensures leads[1..][i].status == s {
          assert leads[1..][i] == leads[i + 1];
        }
      }
      UniformCounts(leads[1..], s, t);
      CountStep(leads, s);
      CountStep(leads, t);
    }
  }

  /** The view's state cell. */
  class LeadsListView {
    var statusFilter: StatusFilter

    /** `useState<LeadStatus | 'all'>('all')`. */
    constructor ()
      ensures statusFilter == All
    {
      statusFilter := All;
    }

    /** The reset button is shown only while a status filter is on. */
    predicate ResetOffered()
      reads this
    {
      statusFilter != All
    }

    /** A click on a stats card. */
    method ClickCard(card: LeadStatus)
      modifies this
      ensures statusFilter == Toggle(old(statusFilter), card)
    {
      statusFilter := Toggle(statusFilter, card);
    }

    /** A choice in the filter dropdown. */
    method SelectFilter(f: StatusFilter)
      modifies this
      ensures statusFilter == f
    {
      statusFilter := f;
    }

    /** The reset button. */
    method Reset()
      modifies this
      ensures statusFilter == All && !ResetOffered()
    {
      statusFilter := All;
    }

    /** The list the view loads for its current filter. */
    method Load(store: LeadStore, fault: Option<StoreError>) returns (r: Result<seq<Lead>, StoreError>)
      requires store.Valid()
      ensures fault.Some? ==> r == Err(fault.value)
      ensures fault.None? ==> r.Ok? && IsListing(store.rows, QueryFilter(statusFilter), r.value)
    {
      r := store.ListLeads(QueryFilter(statusFilter), fault);
    }
  }
}
