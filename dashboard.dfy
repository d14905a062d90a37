/**
 * The analytics the dashboard (`src/app/dashboard/page.jsx`) computes from the link records
 * the backend returns: total clicks, unique visitors, the per-dimension histograms shown
 * when a link is expanded, and the expand/collapse toggle.
 */
module Dashboard {
  import opened Wrappers

  /**
   * A record's `Analitics` object. A field the backend left out is None; `Click` is a count,
   * the visit lists hold one entry per visit.
   */
  datatype Analytics = Analytics(
    click: Option<int>,
    ips: Option<seq<string>>,
    browsers: Option<seq<string>>,
    devices: Option<seq<string>>,
    oses: Option<seq<string>>,
    referrers: Option<seq<Option<string>>>)

  /** One shortened link as the dashboard receives it; `id` is `url.ID` as a property key. */
  datatype UrlRecord = UrlRecord(id: string, shortCode: string, analytics: Option<Analytics>)

  // ---------------------------------------------------------------------------------------
  // Total clicks

  /** `url.Analitics?.Click || 0` */
  function Clicks(r: UrlRecord): (c: int)
    ensures r.analytics.None? || r.analytics.value.click.None? ==> c == 0
    ensures c != 0 ==> r.analytics.Some? && r.analytics.value.click == Some(c)
  {
    if r.analytics.Some? && r.analytics.value.click.Some? then r.analytics.value.click.value else 0
  }

  /** `urlData.reduce((total, url) => total + (url.Analitics?.Click || 0), 0)`, folding from the left. */
  function TotalClicks(records: seq<UrlRecord>): (t: int)
    // with no negative counts, the total is never below any one record's clicks
    ensures (forall i :: 0 <= i < |records| ==> Clicks(records[i]) >= 0) ==>
              t >= 0 && forall i :: 0 <= i < |records| ==> t >= Clicks(records[i])
    // records without a count contribute nothing
    ensures (forall i :: 0 <= i < |records| ==> Clicks(records[i]) == 0) ==> t == 0
    decreases |records|
  {
    if |records| == 0 then 0
    else TotalClicks(records[..|records| - 1]) + Clicks(records[|records| - 1])
  }

  /** The total of two lists of records is the sum of their totals. */
  lemma {:induction false} TotalClicksAppend(a: seq<UrlRecord>, b: seq<UrlRecord>)
    ensures TotalClicks(a + b) == TotalClicks(a) + TotalClicks(b)
    decreases |b|
  {
    if |b| == 0 {
      assert a + b == a;
    } else {
      var n := |b| - 1;
      assert (a + b)[..|a + b| - 1] == a + b[..n];
      assert (a + b)[|a + b| - 1] == b[n];
      TotalClicksAppend(a, b[..n]);
    }
  }

  /** The total is the sum of each record's clicks, with a missing `Analitics` or `Click` counted as 0. */
  lemma {:induction false} TotalClicksIsSum(records: seq<UrlRecord>)
    ensures |records| == 0 ==> TotalClicks(records) == 0
    ensures |records| > 0 ==> TotalClicks(records) == Clicks(records[0]) + TotalClicks(records[1..])
  {
    if |records| > 0 {
      assert records == [records[0]] + records[1..];
      TotalClicksAppend([records[0]], records[1..]);
      assert [records[0]][..0] == [];
    }
  }

  /** A record with no analytics, or analytics without a click count, leaves the total unchanged. */
  lemma UncountedRecordAddsNothing(records: seq<UrlRecord>, r: UrlRecord)
    requires r.analytics.None? || r.analytics.value.click.None?
    ensures TotalClicks(records + [r]) == TotalClicks(records)
  {
    assert (records + [r])[..|records|] == records;
  }

  // ---------------------------------------------------------------------------------------
  // Unique visitors

  /** A record's `IPsWhoVisited`, or no entries when the list is absent. */
  function IpList(r: UrlRecord): seq<string> {
    if r.analytics.Some? && r.analytics.value.ips.Some? then r.analytics.value.ips.value else []
  }

  /** The IPs one record contributes. */
  function IpsOf(r: UrlRecord): set<string> {
    set ip | ip in IpList(r)
  }

  /** Every IP seen across the records. */
  function VisitedIps(records: seq<UrlRecord>): set<string>
    decreases |records|
  {
    if |records| == 0 then {} else VisitedIps(records[..|records| - 1]) + IpsOf(records[|records| - 1])
  }

  /** How many IP entries the records hold in all, repeats included. */
  function IpEntries(records: seq<UrlRecord>): nat
    decreases |records|
  {
    if |records| == 0 then 0 else IpEntries(records[..|records| - 1]) + |IpList(records[|records| - 1])|
  }

  /**
   * `getUniqueVisitors`: adds every IP of every record that has an `IPsWhoVisited` list to a
   * `Set` and returns its size.
   */
  method UniqueVisitors(records: seq<UrlRecord>) returns (count: nat)
    ensures count == |VisitedIps(records)|
  {
    var uniqueIps: set<string> := {};
    var i := 0;
    while i < |records|
      invariant 0 <= i <= |records|
      invariant uniqueIps == VisitedIps(records[..i])
    {
      var r := records[i];
      if r.analytics.Some? && r.analytics.value.ips.Some? {
        var ips := r.analytics.value.ips.value;
        var j := 0;
        while j < |ips|
          invariant 0 <= j <= |ips|
          invariant uniqueIps == VisitedIps(records[..i]) + set ip | ip in ips[..j]
        {
          uniqueIps := uniqueIps + {ips[j]};
          assert ips[..j + 1] == ips[..j] + [ips[j]];
          j := j + 1;
        }
        assert ips[..j] == ips;
      }
      assert records[..i + 1][..i] == records[..i];
      i := i + 1;
    }
    assert records[..i] == records;
    count := |uniqueIps|;
  }

  lemma {:induction false} DistinctAtMostLength(s: seq<string>)
    ensures |set x | x in s| <= |s|
  {
    if |s| > 0 {
      var n := |s| - 1;
      DistinctAtMostLength(s[..n]);
      assert (set x | x in s) == (set x | x in s[..n]) + {s[n]};
    }
  }

  /** There are never more unique visitors than IP entries. */
  lemma {:induction false} UniqueVisitorsBound(records: seq<UrlRecord>)
    ensures |VisitedIps(records)| <= IpEntries(records)
    decreases |records|
  {
    if |records| > 0 {
      var n := |records| - 1;
      UniqueVisitorsBound(records[..n]);
      DistinctAtMostLength(IpList(records[n]));
      assert IpsOf(records[n]) == set x | x in IpList(records[n]);
    }
  }

  /** A record whose IPs have all been seen already leaves the unique-visitor set unchanged. */
  lemma RepeatVisitorsAddNothing(records: seq<UrlRecord>, r: UrlRecord)
    requires IpsOf(r) <= VisitedIps(records)
    ensures VisitedIps(records + [r]) == VisitedIps(records)
  {
    assert (records + [r])[..|records|] == records;
  }

  /** An IP is counted exactly when some record's list contains it. */
  lemma {:induction false} VisitedIpsMembership(records: seq<UrlRecord>, ip: string)
    ensures ip in VisitedIps(records) <==> exists i :: 0 <= i < |records| && ip in IpList(records[i])
    decreases |records|
  {
    if |records| > 0 {
      var n := |records| - 1;
      VisitedIpsMembership(records[..n], ip);
      if ip in VisitedIps(records[..n]) {
        var i :| 0 <= i < n && ip in IpList(records[..n][i]);
        assert records[i] == records[..n][i];
      }
      if exists i :: 0 <= i < |records| && ip in IpList(records[i]) {
        var i :| 0 <= i < |records| && ip in IpList(records[i]);
        if i < n {
          assert records[..n][i] == records[i];
        }
      }
    }
  }

  // ---------------------------------------------------------------------------------------
  // Histograms

  /** `acc` is the histogram of `values`: its keys are exactly the distinct values, each mapped to how often it occurs. */
  ghost predicate IsHistogram(acc: map<string, nat>, values: seq<string>) {
    && (forall k :: k in acc <==> k in values)
    && (forall k :: k in acc ==> acc[k] == multiset(values)[k])
  }

  /**
   * The reducer `(acc, v) => { acc[v] = (acc[v] || 0) + 1; return acc }` run over a list from `{}`,
   * as the browser, device and operating-system panels do.
   */
  method Tally(values: seq<string>) returns (acc: map<string, nat>)
    ensures IsHistogram(acc, values)
  {
    acc := map[];
    var i := 0;
    while i < |values|
      invariant 0 <= i <= |values|
      invariant IsHistogram(acc, values[..i])
    {
      var v := values[i];
      acc := acc[v := (if v in acc then acc[v] else 0) + 1];
      assert values[..i + 1] == values[..i] + [v];
      i := i + 1;
    }
    assert values[..i] == values;
  }

  /** The bucket a referrer is counted under: `referrer || "Direct"`. A missing or empty referrer is `"Direct"`. */
  function ReferrerKey(referrer: Option<string>): (k: string)
    ensures k != ""
    ensures referrer.None? || referrer.value == "" ==> k == "Direct"
    ensures referrer.Some? && referrer.value != "" ==> k == referrer.value
  {
    if referrer.None? || referrer.value == "" then "Direct" else referrer.value
  }

  function ReferrerKeys(referrers: seq<Option<string>>): (keys: seq<string>)
    ensures |keys| == |referrers|
    ensures forall i :: 0 <= i < |referrers| ==> keys[i] == ReferrerKey(referrers[i])
  {
    seq(|referrers|, i requires 0 <= i < |referrers| => ReferrerKey(referrers[i]))
  }

  /** The referrer panel's reducer: the same tally, over `referrer || "Direct"`. */
  method TallyReferrers(referrers: seq<Option<string>>) returns (acc: map<string, nat>)
    ensures IsHistogram(acc, ReferrerKeys(referrers))
    ensures "" !in acc
    ensures "Direct" in acc <==> exists i :: 0 <= i < |referrers| && ReferrerKey(referrers[i]) == "Direct"
  {
    var keys := ReferrerKeys(referrers);
    acc := Tally(keys);
    assert forall k :: k in keys <==> exists i :: 0 <= i < |referrers| && keys[i] == k;
  }

  /** The histograms of an expanded record's panels; None where the record has no such list. */
  datatype Panels = Panels(
    browsers: Option<map<string, nat>>,
    devices: Option<map<string, nat>>,
    oses: Option<map<string, nat>>,
    referrers: Option<map<string, nat>>)

  /**
   * The four `url.Analitics?.XWhoVisited?.reduce(…)` chains of one record: a missing
   * `Analitics` or list short-circuits to undefined and the panel stays empty.
   */
  method RecordPanels(r: UrlRecord) returns (p: Panels)
    ensures p.browsers.Some? <==> r.analytics.Some? && r.analytics.value.browsers.Some?
    ensures p.devices.Some? <==> r.analytics.Some? && r.analytics.value.devices.Some?
    ensures p.oses.Some? <==> r.analytics.Some? && r.analytics.value.oses.Some?
    ensures p.referrers.Some? <==> r.analytics.Some? && r.analytics.value.referrers.Some?
    ensures p.browsers.Some? ==> IsHistogram(p.browsers.value, r.analytics.value.browsers.value)
    ensures p.devices.Some? ==> IsHistogram(p.devices.value, r.analytics.value.devices.value)
    ensures p.oses.Some? ==> IsHistogram(p.oses.value, r.analytics.value.oses.value)
    ensures p.referrers.Some? ==> IsHistogram(p.referrers.value, ReferrerKeys(r.analytics.value.referrers.value))
  {
    p := Panels(None, None, None, None);
    if r.analytics.None? {
      return;
    }
    var a := r.analytics.value;
    if a.browsers.Some? {
      var h := Tally(a.browsers.value);
      p := p.(browsers := Some(h));
    }
    if a.devices.Some? {
      var h := Tally(a.devices.value);
      p := p.(devices := Some(h));
    }
    if a.oses.Some? {
      var h := Tally(a.oses.value);
      p := p.(oses := Some(h));
    }
    if a.referrers.Some? {
      var h := TallyReferrers(a.referrers.value);
      p := p.(referrers := Some(h));
    }
  }

  /** Every falsy referrer is counted under "Direct", together with any referrer literally named "Direct". */
  lemma {:induction false} DirectBucketCount(referrers: seq<Option<string>>)
    ensures multiset(ReferrerKeys(referrers))["Direct"] ==
              |FalsyReferrers(referrers)| + multiset(referrers)[Some("Direct")]
    decreases |referrers|
  {
    if |referrers| > 0 {
      var n := |referrers| - 1;
      var front, last := referrers[..n], referrers[n];
      DirectBucketCount(front);
      assert referrers == front + [last];
      assert ReferrerKeys(referrers) == ReferrerKeys(front) + [ReferrerKey(last)];
      assert multiset(ReferrerKeys(referrers))["Direct"] ==
               multiset(ReferrerKeys(front))["Direct"] + (if ReferrerKey(last) == "Direct" then 1 else 0);
      assert multiset(referrers)[Some("Direct")] ==
               multiset(front)[Some("Direct")] + (if last == Some("Direct") then 1 else 0);
      FalsyReferrersSnoc(referrers);
    }
  }

  lemma FalsyReferrersSnoc(referrers: seq<Option<string>>)
    requires |referrers| > 0
    ensures var n := |referrers| - 1;
            |FalsyReferrers(referrers)| ==
              |FalsyReferrers(referrers[..n])| + (if referrers[n].None? || referrers[n].value == "" then 1 else 0)
  {
    var n := |referrers| - 1;
    var falsy := referrers[n].None? || referrers[n].value == "";
    assert FalsyReferrers(referrers) == FalsyReferrers(referrers[..n]) + (if falsy then {n} else {});
    assert n !in FalsyReferrers(referrers[..n]);
  }

  /** The positions of the referrers that are null, undefined or empty. */
  function FalsyReferrers(referrers: seq<Option<string>>): set<nat> {
    set i: nat | i < |referrers| && (referrers[i].None? || referrers[i].value == "")
  }

  /** Sum of a histogram's counts. */
  ghost function CountSum(acc: map<string, nat>): nat
    decreases |acc.Keys|
  {
    if acc == map[] then 0
    else
      var k :| k in acc;
      acc[k] + CountSum(acc - {k})
  }

  lemma {:induction false} CountSumRemove(acc: map<string, nat>, k: string)
    requires k in acc
    ensures CountSum(acc) == acc[k] + CountSum(acc - {k})
    decreases |acc.Keys|
  {
    var j :| j in acc && CountSum(acc) == acc[j] + CountSum(acc - {j});
    if j != k {
      assert (acc - {j}).Keys == acc.Keys - {j};
      assert (acc - {k}).Keys == acc.Keys - {k};
      CountSumRemove(acc - {j}, k);
      CountSumRemove(acc - {k}, j);
      assert acc - {j} - {k} == acc - {k} - {j};
    }
  }

  /** A histogram's counts add up to the length of the list it was built from. */
  lemma {:induction false} HistogramSumsToLength(acc: map<string, nat>, values: seq<string>)
    requires IsHistogram(acc, values)
    ensures CountSum(acc) == |values|
    decreases |values|
  {
    if |values| == 0 {
      assert acc.Keys == {};
      assert acc == map[];
    } else {
      var n := |values| - 1;
      var x := values[n];
      var front := values[..n];
      assert values == front + [x];
      var rest := if acc[x] == 1 then acc - {x} else acc[x := acc[x] - 1];
      assert IsHistogram(rest, front) by {
        forall k
          ensures k in rest <==> k in front
        {
          if k == x {
            assert multiset(front)[x] == acc[x] - 1;
            if acc[x] > 1 {
              assert x in multiset(front);
            }
          } else if k in acc {
            assert k in values;
          }
        }
      }
      HistogramSumsToLength(rest, front);
      CountSumRemove(acc, x);
      if acc[x] > 1 {
        CountSumRemove(rest, x);
        assert rest - {x} == acc - {x};
      }
    }
  }

  // ---------------------------------------------------------------------------------------
  // Expanded records

  /** `!!expandedUrls[id]`: whether the record's analytics panel is open. */
  predicate IsOpen(expanded: map<string, bool>, id: string) {
    id in expanded && expanded[id]
  }

  /** `toggleUrlExpansion(id)`: `{ ...prev, [id]: !prev[id] }`. */
  function Toggle(expanded: map<string, bool>, id: string): (r: map<string, bool>)
    ensures id in r && IsOpen(r, id) == !IsOpen(expanded, id)
    ensures forall j :: j != id ==> (j in r <==> j in expanded)
    ensures forall j :: j != id && j in r ==> r[j] == expanded[j]
  {
    expanded[id := !(id in expanded && expanded[id])]
  }

  /** Toggling the same record twice restores every record's open state. */
  lemma ToggleTwice(expanded: map<string, bool>, id: string, other: string)
    ensures IsOpen(Toggle(Toggle(expanded, id), id), other) == IsOpen(expanded, other)
  {
  }

  /** The map itself is not restored: a record never toggled before ends up with an explicit `false`. */
  lemma ToggleTwiceLeavesEntry(id: string)
    ensures Toggle(Toggle(map[], id), id) == map[id := false]
    ensures Toggle(Toggle(map[], id), id) != map[]
  {
    assert id in Toggle(Toggle(map[], id), id);
  }
}
