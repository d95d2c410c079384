/** `monitor_endpoints` (monitoring.py:117-158): one cycle aggregates the
    health of every endpoint with a URL into per-domain counters, kept in the
    order domains are first seen, and logs an availability summary; a session
    loads the configuration, stops at once on an empty one, and otherwise
    runs cycles until it is interrupted. `urlparse(url).hostname` is the
    oracle `hostname`, the transport's answers for cycle k are `rounds[k]`
    (one per endpoint, ignored for the endpoints that are skipped). */
module MonitorLoop {
  import opened Values
  import opened Events
  import opened ConfigValidator
  import opened HealthChecker
  import opened BodyCodec

  /** `{"up": ..., "total": ...}` for one domain. */
  datatype Counter = Counter(up: nat, total: nat)

  /** The contents of `domain_stats`: its keys in insertion order, and the
      counter of each key. */
  datatype Tally = Tally(order: seq<Domain>, counts: map<Domain, Counter>)

  predicate Distinct(s: seq<Domain>) {
    forall i, j :: 0 <= i < j < |s| ==> s[i] != s[j]
  }

  /** Every key listed once, exactly the keys of the counters, every key
      counted at least once, and no domain with more UP results than checks. */
  ghost predicate WellFormed(t: Tally) {
    && Distinct(t.order)
    && (forall d :: d in t.counts <==> d in t.order)
    && (forall d :: d in t.counts ==> 0 < t.counts[d].total && t.counts[d].up <= t.counts[d].total)
  }

  /** monitoring.py:142-144 on the dictionary's value: the default entry is
      created on first use, `total` goes up by one, `up` too on an UP result. */
  function Step(t: Tally, domain: Domain, up: bool): (t': Tally)
    ensures domain in t'.counts
    ensures t'.counts[domain].total == (if domain in t.counts then t.counts[domain].total else 0) + 1
    ensures t'.counts[domain].up ==
              (if domain in t.counts then t.counts[domain].up else 0) + (if up then 1 else 0)
    ensures forall d :: d != domain ==> (d in t'.counts <==> d in t.counts)
    ensures forall d :: d != domain && d in t.counts ==> t'.counts[d] == t.counts[d]
    ensures t'.order == if domain in t.counts then t.order else t.order + [domain]
  {
    var c := if domain in t.counts then t.counts[domain] else Counter(0, 0);
    Tally(if domain in t.counts then t.order else t.order + [domain],
          t.counts[domain := Counter(c.up + (if up then 1 else 0), c.total + 1)])
  }

  lemma StepPreservesWellFormed(t: Tally, domain: Domain, up: bool)
    requires WellFormed(t)
    ensures WellFormed(Step(t, domain, up))
  {
    var t' := Step(t, domain, up);
    if domain !in t.counts {
      forall i, j | 0 <= i < j < |t'.order| ensures t'.order[i] != t'.order[j] {
        if j == |t.order| {
          assert t.order[i] in t.order;
        }
      }
    }
  }

  predicate AllProbeable(config: seq<map<string, Value>>) {
    forall i :: 0 <= i < |config| ==> Probeable(config[i])
  }

  /** The endpoint is checked (it has a truthy URL) and its URL's host is
      `domain`. */
  predicate ChecksDomain(endpoint: map<string, Value>, hostname: string -> Option<string>, domain: Domain) {
    Truthy(UrlOf(endpoint)) && UrlOf(endpoint).Str? && hostname(UrlOf(endpoint).s) == domain
  }

  /** What `check_health` returns for each endpoint of a cycle, given the
      transport's answers (only the entries of endpoints with a URL are
      ever used). */
  function Results(config: seq<map<string, Value>>, outcomes: seq<Outcome>, loads: string -> Option<Value>): (r: seq<Status>)
    requires |outcomes| == |config| && AllProbeable(config)
    ensures |r| == |config|
    ensures forall i :: 0 <= i < |config| ==> r[i] == CheckHealth(config[i], outcomes[i], loads).status
  {
    if config == [] then []
    else
      var n := |config| - 1;
      Results(config[..n], outcomes[..n], loads) + [CheckHealth(config[n], outcomes[n], loads).status]
  }

  /** `domain_stats` after the first |config| endpoints of a cycle. */
  function TallyOf(config: seq<map<string, Value>>, results: seq<Status>,
                   hostname: string -> Option<string>): (t: Tally)
    requires |results| == |config| && AllProbeable(config)
    ensures WellFormed(t)
    decreases |config|
  {
    if config == [] then Tally([], map[])
    else
      var n := |config| - 1;
      var before := TallyOf(config[..n], results[..n], hostname);
      var endpoint := config[n];
      if !Truthy(UrlOf(endpoint)) then before
      else
        StepPreservesWellFormed(before, hostname(UrlOf(endpoint).s), results[n] == Up);
        Step(before, hostname(UrlOf(endpoint).s), results[n] == Up)
  }

  /** One more endpoint: counted against its host when it has a URL. */
  lemma TallyAppend(config: seq<map<string, Value>>, results: seq<Status>,
                    endpoint: map<string, Value>, result: Status, hostname: string -> Option<string>)
    requires |results| == |config| && AllProbeable(config) && Probeable(endpoint)
    ensures TallyOf(config + [endpoint], results + [result], hostname) ==
              if Truthy(UrlOf(endpoint)) then Step(TallyOf(config, results, hostname), hostname(UrlOf(endpoint).s), result == Up)
              else TallyOf(config, results, hostname)
  {
    assert (config + [endpoint])[..|config|] == config;
    assert (results + [result])[..|results|] == results;
  }

  /** An endpoint without a URL changes no counter. */
  lemma SkippedEndpointChangesNothing(config: seq<map<string, Value>>, results: seq<Status>,
                                      endpoint: map<string, Value>, result: Status,
                                      hostname: string -> Option<string>)
    requires |results| == |config| && AllProbeable(config) && Probeable(endpoint)
    requires !Truthy(UrlOf(endpoint))
    ensures TallyOf(config + [endpoint], results + [result], hostname)
         == TallyOf(config, results, hostname)
  {
    assert (config + [endpoint])[..|config|] == config;
    assert (results + [result])[..|results|] == results;
  }

  /** Number of endpoints checked against `domain`. */
  function CheckedCount(config: seq<map<string, Value>>, hostname: string -> Option<string>, domain: Domain): nat {
    if config == [] then 0
    else CheckedCount(config[..|config| - 1], hostname, domain)
         + (if ChecksDomain(config[|config| - 1], hostname, domain) then 1 else 0)
  }

  /** Number of endpoints checked against `domain` and found UP. */
  function UpCount(config: seq<map<string, Value>>, results: seq<Status>,
                   hostname: string -> Option<string>, domain: Domain): nat
    requires |results| == |config| && AllProbeable(config)
  {
    if config == [] then 0
    else
      var n := |config| - 1;
      UpCount(config[..n], results[..n], hostname, domain)
        + (if ChecksDomain(config[n], hostname, domain) && results[n] == Up then 1 else 0)
  }

  /** Number of endpoints with a truthy URL. */
  function UrlCount(config: seq<map<string, Value>>): nat {
    if config == [] then 0
    else UrlCount(config[..|config| - 1]) + (if Truthy(UrlOf(config[|config| - 1])) then 1 else 0)
  }

  /** No endpoint is checked against `domain` exactly when the count is 0. */
  lemma {:induction false} CheckedCountZero(config: seq<map<string, Value>>, hostname: string -> Option<string>, domain: Domain)
    ensures CheckedCount(config, hostname, domain) == 0 <==>
              forall i :: 0 <= i < |config| ==> !ChecksDomain(config[i], hostname, domain)
    decreases |config|
  {
    if config != [] {
      var n := |config| - 1;
      CheckedCountZero(config[..n], hostname, domain);
      assert forall i :: 0 <= i < n ==> config[..n][i] == config[i];
    }
  }

  /** Each domain's counters hold the number of endpoints checked against it
      and the number of those found UP; a domain no endpoint maps to has no
      entry. */
  lemma {:induction false} TallyCounts(config: seq<map<string, Value>>, results: seq<Status>,
                                       hostname: string -> Option<string>, domain: Domain)
    requires |results| == |config| && AllProbeable(config)
    ensures var t := TallyOf(config, results, hostname);
      && (domain in t.counts <==> CheckedCount(config, hostname, domain) > 0)
      && (domain in t.counts ==>
            && t.counts[domain].total == CheckedCount(config, hostname, domain)
            && t.counts[domain].up == UpCount(config, results, hostname, domain))
      && (domain !in t.counts ==>
            CheckedCount(config, hostname, domain) == 0 && UpCount(config, results, hostname, domain) == 0)
    decreases |config|
  {
    if config != [] {
      var n := |config| - 1;
      TallyCounts(config[..n], results[..n], hostname, domain);
      var before := TallyOf(config[..n], results[..n], hostname);
      var endpoint := config[n];
      assert UpCount(config, results, hostname, domain)
          == UpCount(config[..n], results[..n], hostname, domain)
             + (if ChecksDomain(endpoint, hostname, domain) && results[n] == Up then 1 else 0);
      if Truthy(UrlOf(endpoint)) {
        assert TallyOf(config, results, hostname) == Step(before, hostname(UrlOf(endpoint).s), results[n] == Up);
      } else {
        assert TallyOf(config, results, hostname) == before;
      }
    }
  }

  /** Sum of `total` over the listed domains. */
  function SumTotals(order: seq<Domain>, counts: map<Domain, Counter>): nat
    requires forall d :: d in order ==> d in counts
  {
    if order == [] then 0
    else SumTotals(order[..|order| - 1], counts) + counts[order[|order| - 1]].total
  }

  lemma {:induction false} SumTotalsOtherKey(order: seq<Domain>, counts: map<Domain, Counter>, domain: Domain, c: Counter)
    requires forall d :: d in order ==> d in counts
    requires domain !in order
    ensures SumTotals(order, counts[domain := c]) == SumTotals(order, counts)
  {
    if order != [] {
      var init := order[..|order| - 1];
      assert forall d :: d in init ==> d in order;
      SumTotalsOtherKey(init, counts, domain, c);
    }
  }

  lemma {:induction false} SumTotalsUpdate(order: seq<Domain>, counts: map<Domain, Counter>, domain: Domain, c: Counter)
    requires forall d :: d in order ==> d in counts
    requires Distinct(order) && domain in order
    ensures SumTotals(order, counts[domain := c]) + counts[domain].total == SumTotals(order, counts) + c.total
  {
    var n := |order| - 1;
    var init := order[..n];
    assert forall d :: d in init ==> d in order;
    if order[n] == domain {
      assert domain !in init by {
        forall i | 0 <= i < n ensures init[i] != domain { assert order[i] != order[n]; }
      }
      SumTotalsOtherKey(init, counts, domain, c);
    } else {
      assert domain in init by {
        var k :| 0 <= k < |order| && order[k] == domain;
        assert init[k] == domain;
      }
      SumTotalsUpdate(init, counts, domain, c);
    }
  }

  /** Recording a check of a domain already listed adds one to the sum. */
  lemma SumTotalsStepKnown(t: Tally, domain: Domain, up: bool)
    requires WellFormed(t) && domain in t.counts
    ensures SumTotals(Step(t, domain, up).order, Step(t, domain, up).counts) == SumTotals(t.order, t.counts) + 1
  {
    var c := t.counts[domain];
    var c' := Counter(c.up + (if up then 1 else 0), c.total + 1);
    assert Step(t, domain, up) == Tally(t.order, t.counts[domain := c']);
    SumTotalsUpdate(t.order, t.counts, domain, c');
  }

  /** Recording a check of a new domain adds one to the sum. */
  lemma SumTotalsStepNew(t: Tally, domain: Domain, up: bool)
    requires WellFormed(t) && domain !in t.counts
    ensures SumTotals(Step(t, domain, up).order, Step(t, domain, up).counts) == SumTotals(t.order, t.counts) + 1
  {
    var c' := Counter(if up then 1 else 0, 1);
    var order' := t.order + [domain];
    assert Step(t, domain, up) == Tally(order', t.counts[domain := c']);
    assert order'[..|order'| - 1] == t.order;
    SumTotalsOtherKey(t.order, t.counts, domain, c');
  }

  /** Recording any check adds one to the sum. */
  lemma SumTotalsStep(t: Tally, domain: Domain, up: bool)
    requires WellFormed(t)
    ensures SumTotals(Step(t, domain, up).order, Step(t, domain, up).counts) == SumTotals(t.order, t.counts) + 1
  {
    if domain in t.counts {
      SumTotalsStepKnown(t, domain, up);
    } else {
      SumTotalsStepNew(t, domain, up);
    }
  }

  /** The totals of one cycle add up to the number of endpoints with a URL. */
  lemma {:induction false} TallyTotalsSum(config: seq<map<string, Value>>, results: seq<Status>,
                                          hostname: string -> Option<string>)
    requires |results| == |config| && AllProbeable(config)
    ensures var t := TallyOf(config, results, hostname);
      SumTotals(t.order, t.counts) == UrlCount(config)
    decreases |config|
  {
    if config != [] {
      var n := |config| - 1;
      TallyTotalsSum(config[..n], results[..n], hostname);
      if Truthy(UrlOf(config[n])) {
        SumTotalsStep(TallyOf(config[..n], results[..n], hostname), hostname(UrlOf(config[n]).s), results[n] == Up);
      }
    }
  }

  /** Index of the first endpoint checked against `domain`, or |config|. */
  function FirstChecked(config: seq<map<string, Value>>, hostname: string -> Option<string>, domain: Domain): (k: nat)
    ensures k <= |config|
    ensures k < |config| ==> ChecksDomain(config[k], hostname, domain)
    ensures forall i :: 0 <= i < k ==> !ChecksDomain(config[i], hostname, domain)
  {
    if config == [] then 0
    else if ChecksDomain(config[0], hostname, domain) then 0
    else 1 + FirstChecked(config[1..], hostname, domain)
  }

  lemma {:induction false} FirstCheckedExtend(config: seq<map<string, Value>>, endpoint: map<string, Value>,
                                              hostname: string -> Option<string>, domain: Domain)
    ensures FirstChecked(config, hostname, domain) < |config| ==>
              FirstChecked(config + [endpoint], hostname, domain) == FirstChecked(config, hostname, domain)
    ensures FirstChecked(config, hostname, domain) == |config| && ChecksDomain(endpoint, hostname, domain) ==>
              FirstChecked(config + [endpoint], hostname, domain) == |config|
  {
    var k := FirstChecked(config, hostname, domain);
    var k' := FirstChecked(config + [endpoint], hostname, domain);
    if k < |config| {
      assert (config + [endpoint])[k] == config[k];
    } else if ChecksDomain(endpoint, hostname, domain) {
      assert (config + [endpoint])[|config|] == endpoint;
    }
  }

  /** `order` lists domains first checked within `config`, by increasing
      index of their first check. */
  predicate DiscoveryOrdered(config: seq<map<string, Value>>, hostname: string -> Option<string>, order: seq<Domain>) {
    && (forall d :: d in order ==> FirstChecked(config, hostname, d) < |config|)
    && (forall i, j :: 0 <= i < j < |order| ==>
          FirstChecked(config, hostname, order[i]) < FirstChecked(config, hostname, order[j]))
  }

  /** An endpoint appended to the configuration keeps an ordering valid. */
  lemma DiscoveryOrderedExtend(config: seq<map<string, Value>>, endpoint: map<string, Value>,
                               hostname: string -> Option<string>, order: seq<Domain>)
    requires DiscoveryOrdered(config, hostname, order)
    ensures DiscoveryOrdered(config + [endpoint], hostname, order)
  {
    forall d | d in order
      ensures FirstChecked(config + [endpoint], hostname, d) == FirstChecked(config, hostname, d)
    {
      FirstCheckedExtend(config, endpoint, hostname, d);
    }
    forall i, j | 0 <= i < j < |order|
      ensures FirstChecked(config + [endpoint], hostname, order[i]) < FirstChecked(config + [endpoint], hostname, order[j])
    {
      assert order[i] in order && order[j] in order;
    }
  }

  /** A domain first checked by the appended endpoint may be appended to a
      valid ordering. */
  lemma DiscoveryOrderedAppend(config: seq<map<string, Value>>, endpoint: map<string, Value>,
                               hostname: string -> Option<string>, order: seq<Domain>, domain: Domain)
    requires DiscoveryOrdered(config, hostname, order)
    requires ChecksDomain(endpoint, hostname, domain)
    requires forall i :: 0 <= i < |config| ==> !ChecksDomain(config[i], hostname, domain)
    ensures DiscoveryOrdered(config + [endpoint], hostname, order + [domain])
  {
    DiscoveryOrderedExtend(config, endpoint, hostname, order);
    FirstCheckedExtend(config, endpoint, hostname, domain);
    var config', order' := config + [endpoint], order + [domain];
    assert FirstChecked(config', hostname, domain) == |config|;
    forall i, j | 0 <= i < j < |order'|
      ensures FirstChecked(config', hostname, order'[i]) < FirstChecked(config', hostname, order'[j])
    {
      assert order'[i] == order[i] && order[i] in order;
      if j < |order| {
        assert order'[j] == order[j];
      }
    }
  }

  /** The summary order is first-discovery order: every listed domain is
      checked by some endpoint, and a domain listed earlier was first checked
      by an earlier endpoint. */
  lemma {:induction false} TallyOrder(config: seq<map<string, Value>>, results: seq<Status>,
                                      hostname: string -> Option<string>)
    requires |results| == |config| && AllProbeable(config)
    ensures DiscoveryOrdered(config, hostname, TallyOf(config, results, hostname).order)
    decreases |config|
  {
    if config != [] {
      var n := |config| - 1;
      var init := config[..n];
      TallyOrder(init, results[..n], hostname);
      var endpoint := config[n];
      assert init + [endpoint] == config;
      var before := TallyOf(init, results[..n], hostname);
      if Truthy(UrlOf(endpoint)) && hostname(UrlOf(endpoint).s) !in before.counts {
        var d := hostname(UrlOf(endpoint).s);
        TallyCounts(init, results[..n], hostname, d);
        CheckedCountZero(init, hostname, d);
        DiscoveryOrderedAppend(init, endpoint, hostname, before.order, d);
      } else {
        DiscoveryOrderedExtend(init, endpoint, hostname, before.order);
      }
    }
  }

  /** A share `a` with `a * total == 100 * up` lies in [0, 100] when
      `up <= total`, and is 100 when `up == total`. */
  lemma PercentageBounds(total: real, up: real, a: real)
    requires total > 0.0 && up >= 0.0 && a * total == 100.0 * up
    ensures up <= total ==> 0.0 <= a <= 100.0
    ensures up == total ==> a == 100.0
  {
    assert (a - 100.0) * total == 100.0 * (up - total);
  }

  /** `(100 * up / total) if total > 0 else 0`, computed exactly. */
  function Availability(c: Counter): (a: real)
    ensures c.total > 0 ==> a * (c.total as real) == 100.0 * (c.up as real)
    ensures c.total == 0 ==> a == 0.0
    ensures c.up <= c.total ==> 0.0 <= a <= 100.0
    ensures c.total > 0 && c.up == c.total ==> a == 100.0
  {
    if c.total > 0 then
      var a := 100.0 * (c.up as real) / (c.total as real);
      assert a * (c.total as real) == 100.0 * (c.up as real);
      PercentageBounds(c.total as real, c.up as real, a);
      a
    else 0.0
  }

  function RowFor(t: Tally, domain: Domain): Row
    requires domain in t.counts
  {
    Row(domain, Availability(t.counts[domain]), t.counts[domain].up, t.counts[domain].total)
  }

  /** The summary lines, one per key of `domain_stats`, in its order. */
  function Rows(t: Tally): (rows: seq<Row>)
    requires forall d :: d in t.order ==> d in t.counts
    ensures |rows| == |t.order|
    ensures forall i :: 0 <= i < |t.order| ==>
              && rows[i].domain == t.order[i]
              && rows[i].up == t.counts[t.order[i]].up
              && rows[i].total == t.counts[t.order[i]].total
              && rows[i].availability == Availability(t.counts[t.order[i]])
  {
    seq(|t.order|, i requires 0 <= i < |t.order| => RowFor(t, t.order[i]))
  }

  /** Every domain with a counter gets exactly one summary line, carrying its
      counts, and every availability lies in [0, 100]. */
  lemma SummaryRows(t: Tally)
    requires WellFormed(t)
    ensures forall d :: d in t.counts ==>
              exists i :: 0 <= i < |Rows(t)| && Rows(t)[i].domain == d
    ensures forall i, j :: 0 <= i < j < |Rows(t)| ==> Rows(t)[i].domain != Rows(t)[j].domain
    ensures forall i :: 0 <= i < |Rows(t)| ==>
              && Rows(t)[i].domain in t.counts
              && Rows(t)[i].up == t.counts[Rows(t)[i].domain].up
              && Rows(t)[i].total == t.counts[Rows(t)[i].domain].total
              && Rows(t)[i].up <= Rows(t)[i].total
              && 0.0 <= Rows(t)[i].availability <= 100.0
  {
    forall d | d in t.counts ensures exists i :: 0 <= i < |Rows(t)| && Rows(t)[i].domain == d {
      var i :| 0 <= i < |t.order| && t.order[i] == d;
      assert Rows(t)[i].domain == d;
    }
  }

  function SummaryEvents(rows: seq<Row>): seq<Event> {
    seq(|rows|, i requires 0 <= i < |rows| => Event(Info, SummaryLine(rows[i])))
  }

  /** The log line(s) for one endpoint of a cycle. */
  function EndpointLog(endpoint: map<string, Value>, outcome: Outcome, loads: string -> Option<Value>): (log: seq<Event>)
    requires Probeable(endpoint)
    ensures !Truthy(UrlOf(endpoint)) ==> log == [Event(Warning, SkippingEndpoint(NameOf(endpoint)))]
    ensures Truthy(UrlOf(endpoint)) ==>
              && |log| >= 1
              && log[..|log| - 1] == ParseBody(BodyOf(endpoint), HeadersOf(endpoint), loads).events
              && log[|log| - 1] == StatusEvent(UrlOf(endpoint).s, outcome)
  {
    if !Truthy(UrlOf(endpoint)) then [Event(Warning, SkippingEndpoint(NameOf(endpoint)))]
    else CheckHealth(endpoint, outcome, loads).events
  }

  function ProbeLog(config: seq<map<string, Value>>, outcomes: seq<Outcome>, loads: string -> Option<Value>): seq<Event>
    requires |outcomes| == |config| && AllProbeable(config)
  {
    if config == [] then []
    else
      var n := |config| - 1;
      ProbeLog(config[..n], outcomes[..n], loads) + EndpointLog(config[n], outcomes[n], loads)
  }

  /** The summary rows of the cycle that got `outcomes`. */
  function Summary(config: seq<map<string, Value>>, outcomes: seq<Outcome>,
                   hostname: string -> Option<string>, loads: string -> Option<Value>): seq<Row>
    requires |outcomes| == |config| && AllProbeable(config)
  {
    Rows(TallyOf(config, Results(config, outcomes, loads), hostname))
  }

  /** Everything one cycle logs. */
  function CycleLog(config: seq<map<string, Value>>, outcomes: seq<Outcome>,
                    hostname: string -> Option<string>, loads: string -> Option<Value>): seq<Event>
    requires |outcomes| == |config| && AllProbeable(config)
  {
    ProbeLog(config, outcomes, loads) + [Event(Info, SummaryHeader)]
      + SummaryEvents(Summary(config, outcomes, hostname, loads))
  }

  /** `domain_stats`, the insertion-ordered dictionary of one cycle. */
  class DomainStats {
    var order: seq<Domain>
    var counts: map<Domain, Counter>

    ghost predicate Valid()
      reads this
    {
      WellFormed(Tally(order, counts))
    }

    function Snapshot(): Tally
      reads this
    {
      Tally(order, counts)
    }

    constructor ()
      ensures Valid() && Snapshot() == Tally([], map[])
    {
      order := [];
      counts := map[];
    }

    /** monitoring.py:142-144. */
    method Record(domain: Domain, up: bool)
      requires Valid()
      modifies this
      ensures Valid()
      ensures Snapshot() == Step(old(Snapshot()), domain, up)
    {
      ghost var next := Step(Snapshot(), domain, up);
      StepPreservesWellFormed(Snapshot(), domain, up);
      if domain !in counts {
        order := order + [domain];
        counts := counts[domain := Counter(0, 0)];
      }
      assert order == next.order;
      var c := counts[domain];
      c := Counter(c.up, c.total + 1);
      if up {
        c := Counter(c.up + 1, c.total);
      }
      counts := counts[domain := c];
      assert counts == next.counts;
    }

    /** monitoring.py:148-150: one line per key, in insertion order. */
    method Summarize() returns (rows: seq<Row>)
      requires Valid()
      ensures rows == Rows(Snapshot())
    {
      rows := [];
      var i := 0;
      while i < |order|
        invariant 0 <= i <= |order|
        invariant rows == Rows(Snapshot())[..i]
      {
        var domain := order[i];
        var stats := counts[domain];
        rows := rows + [Row(domain, Availability(stats), stats.up, stats.total)];
        i := i + 1;
      }
    }
  }

  lemma TallyPrefixStep(config: seq<map<string, Value>>, results: seq<Status>,
                        hostname: string -> Option<string>, i: nat)
    requires |results| == |config| && AllProbeable(config) && i < |config|
    ensures TallyOf(config[..i + 1], results[..i + 1], hostname) ==
              if !Truthy(UrlOf(config[i])) then TallyOf(config[..i], results[..i], hostname)
              else Step(TallyOf(config[..i], results[..i], hostname), hostname(UrlOf(config[i]).s), results[i] == Up)
  {
    assert config[..i + 1][..i] == config[..i];
    assert results[..i + 1][..i] == results[..i];
  }

  lemma ProbeLogPrefixStep(config: seq<map<string, Value>>, outcomes: seq<Outcome>,
                           loads: string -> Option<Value>, i: nat)
    requires |outcomes| == |config| && AllProbeable(config) && i < |config|
    ensures ProbeLog(config[..i + 1], outcomes[..i + 1], loads) ==
              ProbeLog(config[..i], outcomes[..i], loads) + EndpointLog(config[i], outcomes[i], loads)
  {
    assert config[..i + 1][..i] == config[..i];
    assert outcomes[..i + 1][..i] == outcomes[..i];
  }

  /** The body of the `for endpoint in config` loop (monitoring.py:132-144):
      an endpoint without a URL is skipped with a warning; any other is
      checked and counted against its domain. */
  method Visit(stats: DomainStats, endpoint: map<string, Value>, outcome: Outcome,
               hostname: string -> Option<string>, loads: string -> Option<Value>)
    returns (events: seq<Event>)
    requires stats.Valid() && Probeable(endpoint)
    modifies stats
    ensures stats.Valid()
    ensures !Truthy(UrlOf(endpoint)) ==> stats.Snapshot() == old(stats.Snapshot())
    ensures Truthy(UrlOf(endpoint)) ==>
              stats.Snapshot() == Step(old(stats.Snapshot()), hostname(UrlOf(endpoint).s),
                                       CheckHealth(endpoint, outcome, loads).status == Up)
    ensures events == EndpointLog(endpoint, outcome, loads)
  {
    var url := UrlOf(endpoint);
    if !Truthy(url) {
      events := [Event(Warning, SkippingEndpoint(NameOf(endpoint)))];
    } else {
      var domain := hostname(url.s);
      var result := CheckHealth(endpoint, outcome, loads);
      events := result.events;
      stats.Record(domain, result.status == Up);
    }
  }

  /** One iteration of the `while True` loop, without the sleep. */
  method RunCycle(config: seq<map<string, Value>>, outcomes: seq<Outcome>,
                  hostname: string -> Option<string>, loads: string -> Option<Value>)
    returns (rows: seq<Row>, log: seq<Event>)
    requires |outcomes| == |config| && AllProbeable(config)
    ensures rows == Summary(config, outcomes, hostname, loads)
    ensures log == CycleLog(config, outcomes, hostname, loads)
  {
    ghost var results := Results(config, outcomes, loads);
    var stats := new DomainStats();
    log := [];
    var i := 0;
    while i < |config|
      invariant 0 <= i <= |config|
      invariant stats.Valid()
      invariant stats.Snapshot() == TallyOf(config[..i], results[..i], hostname)
      invariant log == ProbeLog(config[..i], outcomes[..i], loads)
    {
      TallyPrefixStep(config, results, hostname, i);
      ProbeLogPrefixStep(config, outcomes, loads, i);
      var events := Visit(stats, config[i], outcomes[i], hostname, loads);
      log := log + events;
      i := i + 1;
    }
    assert config[..i] == config;
    assert outcomes[..i] == outcomes;
    assert results[..i] == results;
    log := log + [Event(Info, SummaryHeader)];
    rows := stats.Summarize();
    log := log + SummaryEvents(rows);
  }

  /** The records of an accepted list configuration. */
  function Records(items: seq<Value>): (config: seq<map<string, Value>>)
    requires forall i :: 0 <= i < |items| ==> items[i].Dict?
    ensures |config| == |items|
    ensures forall i :: 0 <= i < |items| ==> config[i] == items[i].entries
  {
    if items == [] then [] else [items[0].entries] + Records(items[1..])
  }

  predicate RecordsProbeable(doc: Value) {
    doc.List? ==> forall i :: 0 <= i < |doc.items| ==> doc.items[i].Dict? ==> Probeable(doc.items[i].entries)
  }

  /** The logs of the cycles run for `rounds`, in order. */
  function SessionLog(config: seq<map<string, Value>>, rounds: seq<seq<Outcome>>,
                      hostname: string -> Option<string>, loads: string -> Option<Value>): seq<Event>
    requires AllProbeable(config)
    requires forall k :: 0 <= k < |rounds| ==> |rounds[k]| == |config|
  {
    if rounds == [] then []
    else
      var n := |rounds| - 1;
      SessionLog(config, rounds[..n], hostname, loads) + CycleLog(config, rounds[n], hostname, loads)
  }

  /** The summaries of the cycles run for `rounds`, in order, each from
      that cycle's own answers. */
  function Summaries(config: seq<map<string, Value>>, rounds: seq<seq<Outcome>>,
                     hostname: string -> Option<string>, loads: string -> Option<Value>): seq<seq<Row>>
    requires AllProbeable(config)
    requires forall k :: 0 <= k < |rounds| ==> |rounds[k]| == |config|
  {
    seq(|rounds|, k requires 0 <= k < |rounds| => Summary(config, rounds[k], hostname, loads))
  }

  /** Extending a prefix by the next element. */
  lemma PrefixExtend<T>(s: seq<T>, k: nat)
    requires k < |s|
    ensures s[..k + 1] == s[..k] + [s[k]]
  {
  }

  lemma SessionLogStep(config: seq<map<string, Value>>, rounds: seq<seq<Outcome>>,
                       hostname: string -> Option<string>, loads: string -> Option<Value>, k: nat)
    requires AllProbeable(config) && k < |rounds|
    requires forall j :: 0 <= j < |rounds| ==> |rounds[j]| == |config|
    ensures SessionLog(config, rounds[..k + 1], hostname, loads)
         == SessionLog(config, rounds[..k], hostname, loads) + CycleLog(config, rounds[k], hostname, loads)
  {
    var prefix := rounds[..k + 1];
    assert prefix[..k] == rounds[..k];
    assert prefix[k] == rounds[k];
  }

  /** The `while True` loop for as many cycles as there are rounds. */
  method RunSession(config: seq<map<string, Value>>, rounds: seq<seq<Outcome>>,
                    hostname: string -> Option<string>, loads: string -> Option<Value>)
    returns (summaries: seq<seq<Row>>, log: seq<Event>)
    requires AllProbeable(config)
    requires forall k :: 0 <= k < |rounds| ==> |rounds[k]| == |config|
    ensures summaries == Summaries(config, rounds, hostname, loads)
    ensures log == SessionLog(config, rounds, hostname, loads)
  {
    summaries, log := [], [];
    var k := 0;
    while k < |rounds|
      invariant 0 <= k <= |rounds|
      invariant summaries == Summaries(config, rounds, hostname, loads)[..k]
      invariant log == SessionLog(config, rounds[..k], hostname, loads)
    {
      SessionLogStep(config, rounds, hostname, loads, k);
      PrefixExtend(Summaries(config, rounds, hostname, loads), k);
      var rows, cycleLog := RunCycle(config, rounds[k], hostname, loads);
      summaries := summaries + [rows];
      log := log + cycleLog;
      k := k + 1;
    }
    assert rounds[..k] == rounds;
    assert summaries == Summaries(config, rounds, hostname, loads);
  }

  /** `monitor_endpoints`, run until the interrupt that follows the last of
      `rounds`. A configuration that fails to load is logged as unexpected
      and re-raised (`fault`); an empty one stops before any cycle; otherwise
      one cycle runs per round, each summarised from that round's answers. */
  method MonitorEndpoints(text: string, doc: Value, str: Value -> string, rounds: seq<seq<Outcome>>,
                          hostname: string -> Option<string>, loads: string -> Option<Value>)
    returns (summaries: seq<seq<Row>>, log: seq<Event>, fault: Option<Fault>)
    requires LoadResult(doc).Accepted? ==> RecordsProbeable(doc)
    requires LoadResult(doc).Accepted? && doc.List? ==> forall k :: 0 <= k < |rounds| ==> |rounds[k]| == |doc.items|
    ensures fault.Some? <==> LoadResult(doc).Raised?
    ensures LoadResult(doc).Raised? ==>
              && fault == Some(LoadResult(doc).fault)
              && summaries == []
              && log == ValidationLog(text, doc, str) + [Event(Error, UnexpectedError(LoadResult(doc).fault))]
    ensures LoadResult(doc).Accepted? && !Truthy(doc) ==>
              summaries == [] && log == ValidationLog(text, doc, str) + [Event(Error, EmptyConfig)]
    ensures LoadResult(doc).Accepted? && Truthy(doc) ==>
              && doc.List? && (forall i :: 0 <= i < |doc.items| ==> doc.items[i].Dict?)
              && summaries == Summaries(Records(doc.items), rounds, hostname, loads)
              && log == ValidationLog(text, doc, str) + [Event(Info, MonitorTriggered(|doc.items|))]
                        + SessionLog(Records(doc.items), rounds, hostname, loads)
                        + [Event(Info, StoppedByUser)]
  {
    var loaded, validation := LoadConfig(text, doc, str);
    log := validation;
    summaries := [];
    if loaded.Raised? {
      log := log + [Event(Error, UnexpectedError(loaded.fault))];
      fault := Some(loaded.fault);
      return;
    }
    fault := None;
    var config := loaded.config;
    if !Truthy(config) {
      log := log + [Event(Error, EmptyConfig)];
      return;
    }
    AcceptedTruthyIsRecordList(config);
    var endpoints := Records(config.items);
    log := log + [Event(Info, MonitorTriggered(|endpoints|))];
    var cycles;
    summaries, cycles := RunSession(endpoints, rounds, hostname, loads);
    log := log + cycles;
    log := log + [Event(Info, StoppedByUser)];
  }
}
