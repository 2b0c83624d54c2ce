/**
 * The business summary report: the counts of `generateReportData`, the
 * industry distribution and per-industry status breakdown built by `reduce`
 * into plain objects, and the "largest sector" and second-ranked industry
 * named in the observations and recommendations.
 *
 * A plain object used as a dictionary is an association list here, in the
 * order its keys were first added, which is the order `Object.keys` lists them.
 */
module Report {
  import opened Wrappers
  import opened Tally

  /** The fields of a fetched business the report reads. */
  datatype BusinessRow = BusinessRow(industry: string, status: string)

  function Industries(bs: seq<BusinessRow>): (r: seq<string>)
    ensures |r| == |bs| && forall i | 0 <= i < |bs| :: r[i] == bs[i].industry
  {
    if bs == [] then [] else Industries(bs[..|bs| - 1]) + [bs[|bs| - 1].industry]
  }

  function Statuses(bs: seq<BusinessRow>): (r: seq<string>)
    ensures |r| == |bs| && forall i | 0 <= i < |bs| :: r[i] == bs[i].status
  {
    if bs == [] then [] else Statuses(bs[..|bs| - 1]) + [bs[|bs| - 1].status]
  }

  /** The statuses of the businesses of one industry, in list order. */
  function StatusesIn(bs: seq<BusinessRow>, industry: string): seq<string> {
    if bs == [] then []
    else StatusesIn(bs[..|bs| - 1], industry) + (if bs[|bs| - 1].industry == industry then [bs[|bs| - 1].status] else [])
  }

  // ----- the industry distribution -----

  /** `{industry: count}`, keys in insertion order. */
  type Dist = seq<(string, nat)>

  function Keys<V>(d: seq<(string, V)>): (ks: seq<string>)
    ensures |ks| == |d| && forall i | 0 <= i < |d| :: ks[i] == d[i].0
  {
    if d == [] then [] else [d[0].0] + Keys(d[1..])
  }

  /** No industry is a key twice. */
  predicate DistinctKeys(d: Dist) {
    forall i, j | 0 <= i < j < |d| :: d[i].0 != d[j].0
  }

  /** `acc[k] || 0`. */
  function Lookup(d: Dist, k: string): nat {
    if d == [] then 0 else if d[0].0 == k then d[0].1 else Lookup(d[1..], k)
  }

  /** The sum of the counts. */
  function Total(d: Dist): nat {
    if d == [] then 0 else d[0].1 + Total(d[1..])
  }

  /** `acc[k] = (acc[k] || 0) + 1`: a new key is added at the end. */
  function Bump(d: Dist, k: string): (r: Dist)
    ensures Keys(r) == if k in Keys(d) then Keys(d) else Keys(d) + [k]
    ensures forall k' :: Lookup(r, k') == Lookup(d, k') + (if k' == k then 1 else 0)
    ensures Total(r) == Total(d) + 1
  {
    if d == [] then [(k, 1)]
    else if d[0].0 == k then [(k, d[0].1 + 1)] + d[1..]
    else
      var rest := Bump(d[1..], k);
      assert Keys([d[0]] + rest) == [d[0].0] + Keys(rest);
      [d[0]] + rest
  }

  /** `industryDistribution`: the reduce over the businesses, in list order. */
  function Distribution(bs: seq<BusinessRow>): (d: Dist)
    ensures DistinctKeys(d)
    ensures forall k :: k in Keys(d) <==> k in Industries(bs)
    ensures forall k :: Lookup(d, k) == CountEq(Industries(bs), k)
    ensures Total(d) == |bs|
  {
    if bs == [] then []
    else
      var init := bs[..|bs| - 1];
      assert Industries(bs) == Industries(init) + [bs[|bs| - 1].industry];
      BumpKeepsDistinct(Distribution(init), bs[|bs| - 1].industry);
      Bump(Distribution(init), bs[|bs| - 1].industry)
  }

  /** Counting one more business never repeats a key. */
  lemma BumpKeepsDistinct(d: Dist, k: string)
    requires DistinctKeys(d)
    ensures DistinctKeys(Bump(d, k))
  {
    var r := Bump(d, k);
    var kr, kd := Keys(r), Keys(d);
    assert forall i | 0 <= i < |r| :: r[i].0 == kr[i];
    assert forall i | 0 <= i < |d| :: d[i].0 == kd[i];
    if k !in kd {
      assert forall i | 0 <= i < |d| :: kd[i] != k;
    }
  }

  // ----- the status breakdown by industry -----

  /**
   * `{active, inactive, pending, archived}` for one industry. `acc[i][s] += 1`
   * on a status outside the four adds a key whose value is NaN; `unknown`
   * holds those statuses.
   */
  datatype StatusCounts = StatusCounts(active: nat, inactive: nat, pending: nat, archived: nat, unknown: set<string>)

  const Zero := StatusCounts(0, 0, 0, 0, {})
  const KnownStatuses: set<string> := {"active", "inactive", "pending", "archived"}

  /** `acc[industry][status] += 1`. */
  function Tick(c: StatusCounts, status: string): StatusCounts {
    if status == "active" then c.(active := c.active + 1)
    else if status == "inactive" then c.(inactive := c.inactive + 1)
    else if status == "pending" then c.(pending := c.pending + 1)
    else if status == "archived" then c.(archived := c.archived + 1)
    else c.(unknown := c.unknown + {status})
  }

  function KnownSum(c: StatusCounts): nat {
    c.active + c.inactive + c.pending + c.archived
  }

  type Breakdown = seq<(string, StatusCounts)>

  /** `acc[k]`, or the fresh record the reduce would create for it. */
  function LookupCounts(br: Breakdown, k: string): StatusCounts {
    if br == [] then Zero else if br[0].0 == k then br[0].1 else LookupCounts(br[1..], k)
  }

  /** One step of the breakdown reduce: create the industry's record if needed, then count the status. */
  function BumpStatus(br: Breakdown, k: string, status: string): (r: Breakdown)
    ensures Keys(r) == if k in Keys(br) then Keys(br) else Keys(br) + [k]
    ensures forall k' :: LookupCounts(r, k') == if k' == k then Tick(LookupCounts(br, k), status) else LookupCounts(br, k')
  {
    if br == [] then [(k, Tick(Zero, status))]
    else if br[0].0 == k then [(k, Tick(br[0].1, status))] + br[1..]
    else
      var rest := BumpStatus(br[1..], k, status);
      assert Keys([br[0]] + rest) == [br[0].0] + Keys(rest);
      [br[0]] + rest
  }

  /** `statusBreakdownByIndustry`: it gains its keys in the same order as the distribution. */
  function BreakdownOf(bs: seq<BusinessRow>): (br: Breakdown)
    ensures Keys(br) == Keys(Distribution(bs))
  {
    if bs == [] then []
    else
      var init := bs[..|bs| - 1];
      var last := bs[|bs| - 1];
      BumpStatus(BreakdownOf(init), last.industry, last.status)
  }

  /** The statuses outside the four known ones. */
  function UnknownIn(ss: seq<string>): set<string> {
    set s | s in ss && s !in KnownStatuses
  }

  /** Appending one entry adds one to its own count only. */
  lemma CountEqAppend(ss: seq<string>, x: string, v: string)
    ensures CountEq(ss + [x], v) == CountEq(ss, v) + (if x == v then 1 else 0)
  {
    assert (ss + [x])[..|ss|] == ss;
  }

  /** The record an industry with these statuses should have: the count of each known status, NaN keys for the rest. */
  function Expected(ss: seq<string>): StatusCounts {
    StatusCounts(CountEq(ss, "active"), CountEq(ss, "inactive"), CountEq(ss, "pending"), CountEq(ss, "archived"),
                 UnknownIn(ss))
  }

  /** Counting one more status keeps the record equal to its expected value. */
  lemma TickExpected(ss: seq<string>, x: string)
    ensures Tick(Expected(ss), x) == Expected(ss + [x])
  {
    CountEqAppend(ss, x, "active");
    CountEqAppend(ss, x, "inactive");
    CountEqAppend(ss, x, "pending");
    CountEqAppend(ss, x, "archived");
    assert UnknownIn(ss + [x]) == UnknownIn(ss) + (if x in KnownStatuses then {} else {x});
  }

  /**
   * Each industry's record counts exactly the businesses of that industry
   * with each known status, and holds a NaN key for each other status.
   */
  lemma {:induction false} BreakdownCounts(bs: seq<BusinessRow>, k: string)
    ensures LookupCounts(BreakdownOf(bs), k) == Expected(StatusesIn(bs, k))
  {
    if bs == [] {
      assert UnknownIn([]) == {};
    } else {
      var init := bs[..|bs| - 1];
      var last := bs[|bs| - 1];
      BreakdownCounts(init, k);
      var ss := StatusesIn(init, k);
      if last.industry == k {
        assert StatusesIn(bs, k) == ss + [last.status];
        TickExpected(ss, last.status);
      } else {
        assert StatusesIn(bs, k) == ss;
      }
    }
  }

  /** The statuses of one industry are as many as its businesses. */
  lemma {:induction false} StatusesInLength(bs: seq<BusinessRow>, k: string)
    ensures |StatusesIn(bs, k)| == CountEq(Industries(bs), k)
  {
    if bs != [] {
      var init := bs[..|bs| - 1];
      StatusesInLength(init, k);
      assert Industries(bs) == Industries(init) + [bs[|bs| - 1].industry];
    }
  }

  /** When every business has a known status, so does every business of one industry. */
  lemma {:induction false} StatusesInKnown(bs: seq<BusinessRow>, k: string)
    requires forall i | 0 <= i < |bs| :: bs[i].status in KnownStatuses
    ensures forall s | s in StatusesIn(bs, k) :: s in KnownStatuses
  {
    if bs != [] {
      var init := bs[..|bs| - 1];
      assert forall i | 0 <= i < |init| :: init[i] == bs[i];
      StatusesInKnown(init, k);
    }
  }

  /**
   * When every status is one of the four known ones, each industry's status
   * breakdown adds up to its count in the distribution, and no NaN entry appears.
   */
  lemma BreakdownMatchesDistribution(bs: seq<BusinessRow>, k: string)
    requires forall i | 0 <= i < |bs| :: bs[i].status in KnownStatuses
    ensures KnownSum(LookupCounts(BreakdownOf(bs), k)) == Lookup(Distribution(bs), k)
    ensures LookupCounts(BreakdownOf(bs), k).unknown == {}
  {
    var ss := StatusesIn(bs, k);
    StatusesInKnown(bs, k);
    forall i | 0 <= i < |ss|
      ensures ss[i] in {"active", "inactive", "pending", "archived"}
    {
      assert ss[i] in ss;
    }
    FourCountsCover(ss, "active", "inactive", "pending", "archived");
    StatusesInLength(bs, k);
    BreakdownCounts(bs, k);
    assert UnknownIn(ss) == {};
  }

  // ----- the summary -----

  /** What `generateReportData` returns. */
  datatype ReportData = ReportData(total: nat, active: nat, inactive: nat, pending: nat, archived: nat,
                                   distribution: Dist, breakdown: Breakdown)

  /** `generateReportData`. */
  function GenerateReportData(bs: seq<BusinessRow>): (r: ReportData)
    ensures r.total == |bs|
    ensures r.active == multiset(Statuses(bs))["active"] && r.inactive == multiset(Statuses(bs))["inactive"]
    ensures r.pending == multiset(Statuses(bs))["pending"] && r.archived == multiset(Statuses(bs))["archived"]
    ensures r.active + r.inactive + r.pending + r.archived <= r.total
    ensures Total(r.distribution) == r.total
  {
    var ss := Statuses(bs);
    FourCountsBounded(ss, "active", "inactive", "pending", "archived");
    ReportData(|bs|, CountEq(ss, "active"), CountEq(ss, "inactive"), CountEq(ss, "pending"), CountEq(ss, "archived"),
               Distribution(bs), BreakdownOf(bs))
  }

  // ----- largest and second-ranked sector -----

  /**
   * The position `Object.keys(d).reduce((a, b) => d[a] > d[b] ? a : b)`
   * ends on: a largest count, and the last of the keys that share it.
   */
  function LargestIndex(d: Dist): (i: nat)
    requires |d| > 0
    ensures i < |d|
    ensures forall j | 0 <= j < |d| :: d[j].1 <= d[i].1
    ensures forall j | i < j < |d| :: d[j].1 < d[i].1
  {
    if |d| == 1 then 0
    else
      var a := LargestIndex(d[..|d| - 1]);
      if d[a].1 > d[|d| - 1].1 then a else |d| - 1
  }

  /** The "largest sector"; a reduce with no initial value throws on no keys, shown as None. */
  function LargestSector(d: Dist): (r: Option<string>)
    ensures r.None? <==> d == []
    ensures r.Some? ==> r.value in Keys(d)
  {
    if d == [] then None else Some(d[LargestIndex(d)].0)
  }

  /** Counts never increase along `s`. */
  predicate Descending(s: Dist) {
    forall i, j | 0 <= i < j < |s| :: s[i].1 >= s[j].1
  }

  /**
   * Stable insertion of `e` into a list sorted by decreasing count, ahead of
   * the entries it ties with; no entry of the result counts more than the
   * larger of `e` and the old head.
   */
  function Insert(e: (string, nat), s: Dist): (r: Dist)
    requires Descending(s)
    ensures Descending(r)
    ensures multiset(r) == multiset(s) + multiset{e}
    ensures |r| == |s| + 1
    ensures forall k | 0 <= k < |r| :: r[k].1 <= (if s == [] || e.1 >= s[0].1 then e.1 else s[0].1)
  {
    if s == [] || e.1 >= s[0].1 then
      var r := [e] + s;
      assert forall k | 1 <= k < |r| :: r[k] == s[k - 1];
      r
    else
      var rest := Insert(e, s[1..]);
      assert s == [s[0]] + s[1..];
      var r := [s[0]] + rest;
      assert forall k | 1 <= k < |r| :: r[k] == rest[k - 1];
      r
  }

  /** `Object.keys(d).sort((a, b) => d[b] - d[a])`: by decreasing count, ties in key order (the sort is stable). */
  function Rank(d: Dist): (r: Dist)
    ensures Descending(r)
    ensures multiset(r) == multiset(d)
    ensures |r| == |d|
  {
    if d == [] then []
    else
      assert d == [d[0]] + d[1..];
      Insert(d[0], Rank(d[1..]))
  }

  /**
   * The second sector of the recommendation: `sort(...)[1]` when there is
   * more than one industry, else ''. Its count is the largest count once the
   * largest sector's own entry is set aside; only which of several tied
   * sectors it names is left to the sort.
   */
  function SecondRanked(d: Dist): (r: Option<string>)
    ensures r.Some? <==> |d| > 1
    ensures r.Some? ==> r.value in Keys(d)
    ensures r.Some? && DistinctKeys(d) ==>
              Lookup(d, r.value) == d[LargestExcept(d, LargestIndex(d), |d|).value].1
  {
    if |d| > 1 then
      var ranked := Rank(d);
      assert ranked[1] in multiset(d);
      RankSecondIsRunnerUpCount(d);
      Some(ranked[1].0)
    else None
  }

  /** Keys stay distinct in the tail. */
  lemma DistinctTail(d: Dist)
    requires d != [] && DistinctKeys(d)
    ensures DistinctKeys(d[1..])
  {
    assert forall i | 0 <= i < |d| - 1 :: d[1..][i] == d[i + 1];
  }

  /** With distinct keys no entry occurs twice. */
  lemma {:induction false} DistinctNoRepeat(d: Dist)
    requires DistinctKeys(d)
    ensures forall x | x in multiset(d) :: multiset(d)[x] == 1
  {
    if d != [] {
      var tail := d[1..];
      DistinctTail(d);
      DistinctNoRepeat(tail);
      assert d == [d[0]] + tail;
      assert forall j | 0 <= j < |tail| :: tail[j] == d[j + 1];
      assert d[0] !in tail;
    }
  }

  /** With distinct keys, an entry's key looks up that entry's count. */
  lemma {:induction false} LookupEntry(d: Dist, k: nat)
    requires DistinctKeys(d) && k < |d|
    ensures Lookup(d, d[k].0) == d[k].1
  {
    if k > 0 {
      DistinctTail(d);
      LookupEntry(d[1..], k - 1);
    }
  }

  /** An entry that occurs once cannot fill both of the first two places of a list. */
  lemma FirstTwoDiffer(d: Dist, r: Dist)
    requires |r| > 1 && multiset(r) == multiset(d)
    requires forall x | x in multiset(d) :: multiset(d)[x] == 1
    ensures r[0] != r[1]
  {
    assert r == [r[0], r[1]] + r[2..];
    assert multiset(r)[r[0]] >= 1 + (if r[0] == r[1] then 1 else 0);
  }

  /**
   * The second of two different entries of `d`, listed by decreasing count,
   * counts no more than the largest entry apart from entry `i`.
   */
  lemma SecondAtMost(d: Dist, r: Dist, i: nat, k: nat)
    requires |r| > 1 && r[0] != r[1] && r[0] in d && r[1] in d
    requires r[1].1 <= r[0].1 && i < |d| && k < |d|
    requires forall j | 0 <= j < |d| && j != i :: d[j].1 <= d[k].1
    ensures r[1].1 <= d[k].1
  {
    var p0 :| 0 <= p0 < |d| && d[p0] == r[0];
    var p1 :| 0 <= p1 < |d| && d[p1] == r[1];
    if p1 == i {
      assert p0 != i;
    }
  }

  /**
   * When two different entries of `d` both appear in a list sorted by
   * decreasing count, the smaller counts no more than the list's second entry.
   */
  lemma SecondAtLeast(d: Dist, r: Dist, i: nat, k: nat)
    requires Descending(r) && i < |d| && k < |d| && d[i] != d[k]
    requires d[i] in r && d[k] in r && d[k].1 <= d[i].1
    ensures |r| > 1 && d[k].1 <= r[1].1
  {
    var q :| 0 <= q < |r| && r[q] == d[k];
    var qi :| 0 <= qi < |r| && r[qi] == d[i];
    assert q != qi;
  }

  /**
   * In any ordering of `d` by decreasing count, the entry at index 1 counts
   * exactly as much as the largest entry other than the largest sector's.
   */
  lemma SortedSecondIsRunnerUpCount(d: Dist, r: Dist)
    requires DistinctKeys(d) && |d| > 1
    requires Descending(r) && multiset(r) == multiset(d) && |r| == |d|
    ensures r[1].1 == d[LargestExcept(d, LargestIndex(d), |d|).value].1
  {
    var i := LargestIndex(d);
    var k := LargestExcept(d, i, |d|).value;
    DistinctNoRepeat(d);
    SortedSecondCount(d, r, i, k);
  }

  /** The same, for any entry `i` that counts most and any largest entry `k` apart from it. */
  lemma SortedSecondCount(d: Dist, r: Dist, i: nat, k: nat)
    requires forall x | x in multiset(d) :: multiset(d)[x] == 1
    requires Descending(r) && multiset(r) == multiset(d) && |r| == |d| > 1
    requires i < |d| && k < |d| && d[i] != d[k] && d[k].1 <= d[i].1
    requires forall j | 0 <= j < |d| && j != i :: d[j].1 <= d[k].1
    ensures r[1].1 == d[k].1
  {
    FirstTwoDiffer(d, r);
    assert r[0] in multiset(d) && r[1] in multiset(d);
    SecondAtMost(d, r, i, k);
    assert d[k] in multiset(r) && d[i] in multiset(r);
    SecondAtLeast(d, r, i, k);
  }

  /** The ranking's entry at index 1, counted as the page would look its key up. */
  lemma RankSecondIsRunnerUpCount(d: Dist)
    requires |d| > 1
    ensures DistinctKeys(d) ==> Lookup(d, Rank(d)[1].0) == d[LargestExcept(d, LargestIndex(d), |d|).value].1
  {
    if DistinctKeys(d) {
      var r := Rank(d);
      SortedSecondIsRunnerUpCount(d, r);
      assert r[1] in multiset(r);
      var p1 :| 0 <= p1 < |d| && d[p1] == r[1];
      LookupEntry(d, p1);
    }
  }

  /**
   * The page's second sector and the intended runner-up count the same: the
   * two differ at most in which of several tied sectors is named.
   */
  lemma SecondRankedTiesRunnerUp(d: Dist)
    requires DistinctKeys(d) && |d| > 1
    ensures Lookup(d, SecondRanked(d).value) == Lookup(d, RunnerUp(d).value)
  {
    var k := LargestExcept(d, LargestIndex(d), |d|).value;
    var s := SecondRanked(d);
    assert Lookup(d, s.value) == d[k].1;
    assert RunnerUp(d) == Some(d[k].0);
    LookupEntry(d, k);
  }

  /**
   * Two industries with one business each: the reduce names the later one as
   * the largest sector, and the stable sort ranks it second, so the
   * recommendation names the same sector twice.
   */
  lemma TiedSectorsNamedTwice()
    ensures Distribution([BusinessRow("mall", "active"), BusinessRow("school", "active")]) == [("mall", 1), ("school", 1)]
    ensures LargestSector([("mall", 1), ("school", 1)]) == Some("school")
    ensures SecondRanked([("mall", 1), ("school", 1)]) == Some("school")
  {
    var bs := [BusinessRow("mall", "active"), BusinessRow("school", "active")];
    assert bs[..1] == [BusinessRow("mall", "active")];
    assert [BusinessRow("mall", "active")][..0] == [];
    assert Distribution([BusinessRow("mall", "active")]) == [("mall", 1)];
    var d: Dist := [("mall", 1), ("school", 1)];
    assert d[..1] == [("mall", 1)];
    assert Rank(d[1..]) == [("school", 1)];
  }

  /**
   * The intended second sector: the largest of the industries other than the
   * largest sector, which is never the largest sector itself.
   */
  function RunnerUp(d: Dist): (r: Option<string>)
    requires DistinctKeys(d)
    ensures r.Some? <==> |d| > 1
    ensures r.Some? ==> r.value in Keys(d) && Some(r.value) != LargestSector(d)
    ensures r.Some? ==> exists j | 0 <= j < |d| :: d[j].0 == r.value
                          && forall k | 0 <= k < |d| && k != LargestIndex(d) :: d[k].1 <= d[j].1
  {
    if |d| > 1 then
      var k := LargestExcept(d, LargestIndex(d), |d|);
      assert Keys(d)[k.value] == d[k.value].0 && Keys(d)[LargestIndex(d)] == d[LargestIndex(d)].0;
      Some(d[k.value].0)
    else None
  }

  /**
   * The largest of the first `n` entries other than entry `skip`, the later
   * one among ties; None when `skip` is the only entry there is.
   */
  function LargestExcept(d: Dist, skip: nat, n: nat): (k: Option<nat>)
    requires n <= |d|
    ensures k.None? <==> n == 0 || (n == 1 && skip == 0)
    ensures k.Some? ==> k.value < n && k.value != skip
    ensures k.Some? ==> forall j | 0 <= j < n && j != skip :: d[j].1 <= d[k.value].1
  {
    if n == 0 then None
    else
      var k := LargestExcept(d, skip, n - 1);
      if n - 1 == skip then k
      else if k.Some? && d[k.value].1 > d[n - 1].1 then k
      else Some(n - 1)
  }

  /** With the corrected runner-up, the two tied sectors are both named. */
  lemma TiedSectorsNamedOnce()
    ensures LargestSector([("mall", 1), ("school", 1)]) == Some("school")
    ensures RunnerUp([("mall", 1), ("school", 1)]) == Some("mall")
  {
    var d: Dist := [("mall", 1), ("school", 1)];
    assert d[..1] == [("mall", 1)];
    assert Keys(d) == ["mall", "school"];
    assert d[..1] + d[2..] == [("mall", 1)];
  }
}
