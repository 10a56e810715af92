/** The citizen's report dashboard: the three report categories fetched from the
    backend are tagged and merged, ordered newest first, filtered by category and
    status tabs, counted, and updated locally when a report is resolved or deleted. */
module ReportDashboard {
  import opened Wrappers
  import opened Seqs
  import opened Sorting

  /** One report as the backend sends it; `fields` stands for its remaining properties. */
  datatype Report = Report(
    id: string,
    kind: Option<string>,              // the `type` tag added on merge
    status: Option<string>,
    createdAtSeconds: Option<int>,     // `createdAt._seconds`
    fields: map<string, string>)

  /** `res.data?.data`: each category array may be absent. */
  datatype ReportsReply = ReportsReply(
    waste: Option<seq<Report>>,
    infrastructure: Option<seq<Report>>,
    water: Option<seq<Report>>)

  const Resolved: string := "RESOLVED"

  /** The reports of one category, each tagged with `tag`; an absent array gives none. */
  function Tagged(rs: Option<seq<Report>>, tag: string): (r: seq<Report>)
    ensures |r| == |rs.GetOr([])|
    ensures forall k :: 0 <= k < |r| ==> r[k] == rs.value[k].(kind := Some(tag))
  {
    var s := rs.GetOr([]);
    seq(|s|, k requires 0 <= k < |s| => s[k].(kind := Some(tag)))
  }

  /** The merged list before sorting: waste, then infrastructure, then water. */
  function Merge(reply: Option<ReportsReply>): (r: seq<Report>)
    ensures reply.None? ==> r == []
    ensures reply.Some? ==>
      r == Tagged(reply.value.waste, "WASTE") + Tagged(reply.value.infrastructure, "INFRA")
           + Tagged(reply.value.water, "WATER")
  {
    var data := reply.GetOr(ReportsReply(Some([]), Some([]), Some([])));
    Tagged(data.waste, "WASTE") + Tagged(data.infrastructure, "INFRA") + Tagged(data.water, "WATER")
  }

  /** Every merged report carries one of the three tags, according to the array it came from. */
  lemma MergeTags(reply: ReportsReply)
    ensures var r := Merge(Some(reply));
      var w := |reply.waste.GetOr([])|;
      var i := |reply.infrastructure.GetOr([])|;
      && |r| == w + i + |reply.water.GetOr([])|
      && (forall k :: 0 <= k < w ==> r[k].kind == Some("WASTE"))
      && (forall k :: w <= k < w + i ==> r[k].kind == Some("INFRA"))
      && (forall k :: w + i <= k < |r| ==> r[k].kind == Some("WATER"))
  {
    var a := Tagged(reply.waste, "WASTE");
    var b := Tagged(reply.infrastructure, "INFRA");
    var c := Tagged(reply.water, "WATER");
    assert Merge(Some(reply)) == a + b + c;
  }

  /** `createdAt?._seconds || 0`. */
  function Seconds(r: Report): int { r.createdAtSeconds.GetOr(0) }

  /** The comparator `dateB - dateA`: `a` may stay in front of `b` when it is not older. */
  predicate NewestFirst(a: Report, b: Report) { Seconds(a) >= Seconds(b) }

  lemma NewestFirstIsPreorder()
    ensures TotalPreorder(NewestFirst)
  {
  }

  /** A list sorted by `NewestFirst` has non-increasing timestamps. */
  lemma SortedIsNewestFirst(s: seq<Report>)
    requires Sorted(s, NewestFirst)
    ensures forall i, j :: 0 <= i < j < |s| ==> Seconds(s[i]) >= Seconds(s[j])
  {
    forall i, j | 0 <= i < j < |s|
      ensures Seconds(s[i]) >= Seconds(s[j])
    {
      assert NewestFirst(s[i], s[j]);
    }
  }

  /** `handleMarkResolved`'s state update: the reports with the id become RESOLVED. */
  function Resolve(reports: seq<Report>, reportId: string): (r: seq<Report>)
    ensures |r| == |reports|
    ensures forall k :: 0 <= k < |r| && reports[k].id == reportId ==>
      r[k] == reports[k].(status := Some(Resolved))
    ensures forall k :: 0 <= k < |r| && reports[k].id != reportId ==> r[k] == reports[k]
  {
    seq(|reports|, k requires 0 <= k < |reports| =>
      if reports[k].id == reportId then reports[k].(status := Some(Resolved)) else reports[k])
  }

  /** `handleDelete`'s state update. */
  function Remove(reports: seq<Report>, reportId: string): (r: seq<Report>)
    ensures forall x :: x in r <==> x in reports && x.id != reportId
    ensures IsSubsequence(r, reports)
  {
    FilterIsSubsequence(reports, (x: Report) => x.id != reportId);
    Filter(reports, (x: Report) => x.id != reportId)
  }

  predicate IsResolved(r: Report) { r.status == Some(Resolved) }
  predicate IsPending(r: Report) { r.status != Some(Resolved) }

  /** The three counters of the stats cards. */
  function PendingCount(reports: seq<Report>): nat { CountWhere(reports, IsPending) }
  function ResolvedCount(reports: seq<Report>): nat { CountWhere(reports, IsResolved) }

  /** Pending and resolved split the total. */
  lemma CountersAddUp(reports: seq<Report>)
    ensures PendingCount(reports) + ResolvedCount(reports) == |reports|
  {
    FilterPartition(reports, IsResolved, IsPending);
  }

  /** Deleting removes exactly the reports with the id. */
  lemma RemoveCount(reports: seq<Report>, reportId: string)
    ensures |Remove(reports, reportId)| + CountWhere(reports, (x: Report) => x.id == reportId) == |reports|
  {
    FilterPartition(reports, (x: Report) => x.id != reportId, (x: Report) => x.id == reportId);
  }

  /** Resolving raises the resolved counter by exactly the number of pending
      reports that carry the id. */
  lemma {:induction false} ResolveCount(reports: seq<Report>, reportId: string)
    ensures ResolvedCount(Resolve(reports, reportId))
      == ResolvedCount(reports) + CountWhere(reports, (x: Report) => x.id == reportId && IsPending(x))
  {
    var target := (x: Report) => x.id == reportId && IsPending(x);
    if reports != [] {
      var r := Resolve(reports, reportId);
      assert r[1..] == Resolve(reports[1..], reportId);
      ResolveCount(reports[1..], reportId);
      assert Filter(r, IsResolved) == (if IsResolved(r[0]) then [r[0]] else []) + Filter(r[1..], IsResolved);
      assert Filter(reports, IsResolved)
        == (if IsResolved(reports[0]) then [reports[0]] else []) + Filter(reports[1..], IsResolved);
      assert Filter(reports, target)
        == (if target(reports[0]) then [reports[0]] else []) + Filter(reports[1..], target);
    }
  }

  /** `getFilteredReports`' test for one report. */
  predicate Matches(r: Report, category: string, statusTab: string) {
    && (category == "ALL" || r.kind == Some(category))
    && (statusTab == Resolved ==> IsResolved(r))
    && (statusTab == "PENDING" ==> IsPending(r))
  }

  function FilterReports(reports: seq<Report>, category: string, statusTab: string): (r: seq<Report>)
    ensures IsSubsequence(r, reports)
    ensures forall x :: x in r <==> x in reports && Matches(x, category, statusTab)
    ensures forall x :: multiset(r)[x] == if Matches(x, category, statusTab) then multiset(reports)[x] else 0
  {
    FilterMultiset(reports, (x: Report) => Matches(x, category, statusTab));
    FilterIsSubsequence(reports, (x: Report) => Matches(x, category, statusTab));
    Filter(reports, (x: Report) => Matches(x, category, statusTab))
  }

  /** The ALL/ALL view is the whole list; the PENDING and RESOLVED tabs of a
      category split its ALL tab. */
  lemma FilterTabs(reports: seq<Report>, category: string)
    ensures category == "ALL" ==> FilterReports(reports, category, "ALL") == reports
    ensures |FilterReports(reports, category, "PENDING")| + |FilterReports(reports, category, Resolved)|
      == |FilterReports(reports, category, "ALL")|
  {
    assert "ALL" != "PENDING" && "ALL" != Resolved && "PENDING" != Resolved;
    var inCategory := (x: Report) => Matches(x, category, "ALL");
    FilterFilter(reports, inCategory, IsPending, (x: Report) => Matches(x, category, "PENDING"));
    FilterFilter(reports, inCategory, IsResolved, (x: Report) => Matches(x, category, Resolved));
    FilterPartition(Filter(reports, inCategory), IsPending, IsResolved);
    if category == "ALL" {
      FilterKeepsAll(reports, inCategory);
    }
  }

  const ConfirmFixed: string := "Confirm that this issue has been fixed?"
  const ConfirmManual: string := "Mark this report as resolved manually? This cannot be undone."
  const ConfirmDelete: string := "Are you sure you want to delete this report?"

  /** The question `handleMarkResolved` asks: whether the issue is fixed when the
      first report with the id awaits approval, otherwise whether to resolve it
      manually (also for an unknown id). */
  function ResolvePrompt(reports: seq<Report>, reportId: string): (msg: string)
    ensures msg == ConfirmFixed || msg == ConfirmManual
    ensures forall k :: (0 <= k < |reports| && reports[k].id == reportId
                         && forall j :: 0 <= j < k ==> reports[j].id != reportId) ==>
      (msg == ConfirmFixed <==> reports[k].status == Some("WAITING_APPROVAL"))
    ensures (forall k :: 0 <= k < |reports| ==> reports[k].id != reportId) ==> msg == ConfirmManual
  {
    var withId := (r: Report) => r.id == reportId;
    FindFirst(reports, withId);
    var found := Find(reports, withId);
    if found.Some? && found.value.status == Some("WAITING_APPROVAL") then ConfirmFixed else ConfirmManual
  }

  /** The outcome of the reports request: a reply (whose `data` may be missing),
      or a thrown error (token or network). */
  datatype FetchOutcome = Answered(reply: Option<ReportsReply>) | FetchThrew

  /** The dashboard's component state. */
  class Dashboard {
    var reports: seq<Report>

    constructor()
      ensures reports == []
    {
      reports := [];
    }

    /** `fetchReports`: merge the categories and sort newest first; a thrown
        request leaves the list as it was. */
    method Load(outcome: FetchOutcome)
      modifies this
      ensures outcome.FetchThrew? ==> reports == old(reports)
      ensures outcome.Answered? ==> Sorted(reports, NewestFirst)
      ensures outcome.Answered? ==> multiset(reports) == multiset(Merge(outcome.reply))
    {
      if outcome.FetchThrew? {
        return;
      }
      NewestFirstIsPreorder();
      reports := SortedCopy(Merge(outcome.reply), NewestFirst);
    }

    /** `handleMarkResolved`: `confirm` is the user's answer to the question
        shown and `putOk` whether the resolve request succeeded; only a
        confirmed, successful request resolves the report locally. */
    method MarkResolved(reportId: string, confirm: string -> bool, putOk: bool)
      modifies this
      ensures confirm(ResolvePrompt(old(reports), reportId)) && putOk ==>
        reports == Resolve(old(reports), reportId)
      ensures !(confirm(ResolvePrompt(old(reports), reportId)) && putOk) ==> reports == old(reports)
    {
      if !confirm(ResolvePrompt(reports, reportId)) {
        return;
      }
      if !putOk {
        return;
      }
      reports := Resolve(reports, reportId);
    }

    /** `handleDelete`: removes the report locally once the user confirms. */
    method Delete(reportId: string, confirm: string -> bool)
      modifies this
      ensures confirm(ConfirmDelete) ==> reports == Remove(old(reports), reportId)
      ensures !confirm(ConfirmDelete) ==> reports == old(reports)
    {
      if !confirm(ConfirmDelete) {
        return;
      }
      reports := Remove(reports, reportId);
    }
  }
}
