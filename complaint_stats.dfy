/** The complaint summary for one user: how many complaints name them, and how
    many of those are pending or resolved. */
module ComplaintStats {
  import opened Seqs

  datatype Complaint = Complaint(againstUserId: string, status: string)

  datatype Stats = Stats(total: nat, pending: nat, resolved: nat)

  /** The query `againstUserId == userId`, in store order. */
  function Against(complaints: seq<Complaint>, userId: string): (r: seq<Complaint>)
    ensures forall c :: c in r <==> c in complaints && c.againstUserId == userId
    ensures forall c :: multiset(r)[c] == if c.againstUserId == userId then multiset(complaints)[c] else 0
    ensures IsSubsequence(r, complaints)
  {
    FilterMultiset(complaints, (c: Complaint) => c.againstUserId == userId);
    FilterIsSubsequence(complaints, (c: Complaint) => c.againstUserId == userId);
    Filter(complaints, (c: Complaint) => c.againstUserId == userId)
  }

  predicate IsPending(c: Complaint) { c.status == "pending" }
  predicate IsResolved(c: Complaint) { c.status == "resolved" }

  /** `getComplaintStatsForUser`. */
  function StatsFor(complaints: seq<Complaint>, userId: string): (s: Stats)
    ensures s.total == |Against(complaints, userId)|
    ensures s.pending == CountWhere(complaints, (c: Complaint) => c.againstUserId == userId && c.status == "pending")
    ensures s.resolved == CountWhere(complaints, (c: Complaint) => c.againstUserId == userId && c.status == "resolved")
    ensures s.pending <= s.total && s.resolved <= s.total
  {
    FilterFilter(complaints, (c: Complaint) => c.againstUserId == userId, IsPending,
                 (c: Complaint) => c.againstUserId == userId && c.status == "pending");
    FilterFilter(complaints, (c: Complaint) => c.againstUserId == userId, IsResolved,
                 (c: Complaint) => c.againstUserId == userId && c.status == "resolved");
    var mine := Against(complaints, userId);
    Stats(|mine|, CountWhere(mine, IsPending), CountWhere(mine, IsResolved))
  }

  /** The pending and resolved counts never exceed the total together, and they
      count only complaints against the user. */
  lemma StatsConsistent(complaints: seq<Complaint>, userId: string)
    ensures var s := StatsFor(complaints, userId);
      && s.pending + s.resolved <= s.total
      && s.total == CountWhere(complaints, (c: Complaint) => c.againstUserId == userId)
      && s.pending <= CountWhere(complaints, IsPending)
  {
    var mine := Against(complaints, userId);
    FilterDisjoint(mine, IsPending, IsResolved);
    FilterSubsequenceCount(complaints, (c: Complaint) => c.againstUserId == userId, IsPending);
  }

  /** Counting inside a filtered sequence finds no more than counting in the whole. */
  lemma {:induction false} FilterSubsequenceCount<T(!new)>(s: seq<T>, first: T -> bool, keep: T -> bool)
    ensures |Filter(Filter(s, first), keep)| <= |Filter(s, keep)|
  {
    if s != [] {
      FilterSubsequenceCount(s[1..], first, keep);
      if first(s[0]) {
        assert Filter(s, first) == [s[0]] + Filter(s[1..], first);
        assert Filter(s, first)[1..] == Filter(s[1..], first);
      }
    }
  }
}
