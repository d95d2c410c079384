/** What one cycle reports, taken over a whole configuration and on a few
    concrete configurations. */
module CycleReport {
  import opened Values
  import opened Events
  import opened HealthChecker
  import opened MonitorLoop

  /** A domain listed in a tally has been checked by some endpoint. */
  lemma ListedDomainChecked(config: seq<map<string, Value>>, results: seq<Status>,
                            hostname: string -> Option<string>, d: Domain)
    requires |results| == |config| && AllProbeable(config)
    requires d in TallyOf(config, results, hostname).order
    ensures CheckedCount(config, hostname, d) > 0
  {
    TallyOrder(config, results, hostname);
    var k := FirstChecked(config, hostname, d);
    assert ChecksDomain(config[k], hostname, d);
    CheckedCountZero(config, hostname, d);
  }

  /** The row at `i` of a tally's summary carries the number of endpoints
      checked against its domain and of those found UP, and their
      availability. */
  lemma RowCountsAt(config: seq<map<string, Value>>, results: seq<Status>,
                    hostname: string -> Option<string>, i: nat)
    requires |results| == |config| && AllProbeable(config)
    requires i < |Rows(TallyOf(config, results, hostname))|
    ensures var row := Rows(TallyOf(config, results, hostname))[i];
      && row.total == CheckedCount(config, hostname, row.domain)
      && row.up == UpCount(config, results, hostname, row.domain)
      && 0 < row.total && row.up <= row.total
      && row.availability == Availability(Counter(row.up, row.total))
  {
    var t := TallyOf(config, results, hostname);
    var d := t.order[i];
    var c := t.counts[d];
    assert Rows(t)[i] == Row(d, Availability(c), c.up, c.total);
    TallyCounts(config, results, hostname, d);
    ListedDomainChecked(config, results, hostname, d);
  }

  /** Every endpoint with a URL has its host listed in the summary. */
  lemma CheckedHostListed(config: seq<map<string, Value>>, results: seq<Status>,
                          hostname: string -> Option<string>, e: nat)
    requires |results| == |config| && AllProbeable(config)
    requires e < |config| && Truthy(UrlOf(config[e]))
    ensures exists i :: 0 <= i < |Rows(TallyOf(config, results, hostname))| &&
              Rows(TallyOf(config, results, hostname))[i].domain == hostname(UrlOf(config[e]).s)
  {
    var t := TallyOf(config, results, hostname);
    var d := hostname(UrlOf(config[e]).s);
    assert Probeable(config[e]);
    assert ChecksDomain(config[e], hostname, d);
    CheckedCountZero(config, hostname, d);
    TallyCounts(config, results, hostname, d);
    var i :| 0 <= i < |t.order| && t.order[i] == d;
    assert Rows(t)[i].domain == d;
  }

  /** Row by row, the summary of a cycle holds, for each domain, the number
      of endpoints checked against it and of those found UP, with their
      availability; domains come in first-discovery order, and the host of
      every endpoint with a URL has a row. */
  lemma CycleSummary(config: seq<map<string, Value>>, outcomes: seq<Outcome>,
                     hostname: string -> Option<string>, loads: string -> Option<Value>)
    requires |outcomes| == |config| && AllProbeable(config)
    ensures forall i :: 0 <= i < |Summary(config, outcomes, hostname, loads)| ==>
              var row := Summary(config, outcomes, hostname, loads)[i];
              && row.total == CheckedCount(config, hostname, row.domain)
              && row.up == UpCount(config, Results(config, outcomes, loads), hostname, row.domain)
              && 0 < row.total && row.up <= row.total
              && row.availability == Availability(Counter(row.up, row.total))
    ensures forall i, j :: 0 <= i < j < |Summary(config, outcomes, hostname, loads)| ==>
              FirstChecked(config, hostname, Summary(config, outcomes, hostname, loads)[i].domain)
                < FirstChecked(config, hostname, Summary(config, outcomes, hostname, loads)[j].domain)
    ensures forall e :: 0 <= e < |config| && Truthy(UrlOf(config[e])) ==>
              exists i :: 0 <= i < |Summary(config, outcomes, hostname, loads)| &&
                Summary(config, outcomes, hostname, loads)[i].domain == hostname(UrlOf(config[e]).s)
  {
    var results := Results(config, outcomes, loads);
    var t := TallyOf(config, results, hostname);
    assert Summary(config, outcomes, hostname, loads) == Rows(t);
    forall i | 0 <= i < |Rows(t)| {
      RowCountsAt(config, results, hostname, i);
    }
    TallyOrder(config, results, hostname);
    forall i, j | 0 <= i < j < |Rows(t)|
      ensures FirstChecked(config, hostname, Rows(t)[i].domain) < FirstChecked(config, hostname, Rows(t)[j].domain)
    {
      assert Rows(t)[i].domain == t.order[i] && Rows(t)[j].domain == t.order[j];
    }
    forall e | 0 <= e < |config| && Truthy(UrlOf(config[e])) {
      CheckedHostListed(config, results, hostname, e);
    }
  }

  lemma LoneTally(endpoint: map<string, Value>, status: Status, host: string, hostname: string -> Option<string>)
    requires Probeable(endpoint) && UrlOf(endpoint).Str? && UrlOf(endpoint).s != []
    requires hostname(UrlOf(endpoint).s) == Some(host)
    ensures TallyOf([endpoint], [status], hostname)
         == Tally([Some(host)], map[Some(host) := Counter(if status == Up then 1 else 0, 1)])
  {
    assert [endpoint] == [] + [endpoint] && [status] == [] + [status];
    TallyAppend([], [], endpoint, status, hostname);
  }

  /** A lone endpoint with a URL on `host`: one line, 100% (1/1) when it is
      found UP and 0% (0/1) when it is found DOWN. */
  lemma LoneSummary(endpoint: map<string, Value>, outcome: Outcome, host: string,
                    hostname: string -> Option<string>, loads: string -> Option<Value>)
    requires Probeable(endpoint) && UrlOf(endpoint).Str? && UrlOf(endpoint).s != []
    requires hostname(UrlOf(endpoint).s) == Some(host)
    ensures var up := CheckHealth(endpoint, outcome, loads).status == Up;
      Summary([endpoint], [outcome], hostname, loads)
        == [Row(Some(host), if up then 100.0 else 0.0, if up then 1 else 0, 1)]
  {
    var status := CheckHealth(endpoint, outcome, loads).status;
    assert Results([endpoint], [outcome], loads) == [status];
    LoneTally(endpoint, status, host, hostname);
    SingleRow(Some(host), Counter(if status == Up then 1 else 0, 1));
  }

  /** One endpoint answering 200 in 50 ms: its host is 100% available (1/1). */
  lemma HealthyEndpointScenario(url: string, host: string,
                                hostname: string -> Option<string>, loads: string -> Option<Value>)
    requires url != [] && hostname(url) == Some(host)
    ensures Summary([map["name" := Str("A"), "url" := Str(url)]], [Replied(200, 50.0)], hostname, loads)
         == [Row(Some(host), 100.0, 1, 1)]
  {
    var endpoint := map["name" := Str("A"), "url" := Str(url)];
    assert UrlOf(endpoint) == Str(url);
    LoneSummary(endpoint, Replied(200, 50.0), host, hostname, loads);
  }

  /** One endpoint answering 200 in 900 ms is DOWN: 0% (0/1). */
  lemma SlowEndpointScenario(url: string, host: string,
                             hostname: string -> Option<string>, loads: string -> Option<Value>)
    requires url != [] && hostname(url) == Some(host)
    ensures Summary([map["url" := Str(url)]], [Replied(200, 900.0)], hostname, loads)
         == [Row(Some(host), 0.0, 0, 1)]
  {
    var endpoint := map["url" := Str(url)];
    assert UrlOf(endpoint) == Str(url);
    LoneSummary(endpoint, Replied(200, 900.0), host, hostname, loads);
  }

  lemma TwoEndpointsOneHost(e1: map<string, Value>, e2: map<string, Value>, host: string,
                            hostname: string -> Option<string>)
    requires Probeable(e1) && Probeable(e2)
    requires UrlOf(e1).Str? && UrlOf(e2).Str? && UrlOf(e1).s != [] && UrlOf(e2).s != []
    requires hostname(UrlOf(e1).s) == Some(host) && hostname(UrlOf(e2).s) == Some(host)
    ensures TallyOf([e1, e2], [Up, Down], hostname) == Tally([Some(host)], map[Some(host) := Counter(1, 2)])
  {
    assert [e1, e2] == [e1] + [e2] && [Up, Down] == [Up] + [Down];
    assert [e1] == [] + [e1] && [Up] == [] + [Up];
    TallyAppend([], [], e1, Up, hostname);
    var first := Tally([Some(host)], map[Some(host) := Counter(1, 1)]);
    assert TallyOf([e1], [Up], hostname) == first;
    TallyAppend([e1], [Up], e2, Down, hostname);
    assert Step(first, Some(host), false) == Tally([Some(host)], map[Some(host) := Counter(1, 2)]);
  }

  lemma SingleRow(d: Domain, c: Counter)
    ensures Rows(Tally([d], map[d := c])) == [Row(d, Availability(c), c.up, c.total)]
  {
  }

  lemma TwoAnswers(url1: string, url2: string, loads: string -> Option<Value>)
    requires url1 != [] && url2 != []
    ensures Probeable(map["url" := Str(url1)]) && Probeable(map["url" := Str(url2)])
    ensures Results([map["url" := Str(url1)], map["url" := Str(url2)]],
                    [Replied(200, 50.0), Replied(503, 50.0)], loads) == [Up, Down]
  {
    var e1, e2 := map["url" := Str(url1)], map["url" := Str(url2)];
    assert UrlOf(e1) == Str(url1) && UrlOf(e2) == Str(url2);
  }

  /** Two endpoints on one host found UP and DOWN: one line at 50% (1/2). */
  lemma SharedSummary(e1: map<string, Value>, e2: map<string, Value>, outcomes: seq<Outcome>, host: string,
                      hostname: string -> Option<string>, loads: string -> Option<Value>)
    requires Probeable(e1) && Probeable(e2) && |outcomes| == 2
    requires UrlOf(e1).Str? && UrlOf(e2).Str? && UrlOf(e1).s != [] && UrlOf(e2).s != []
    requires hostname(UrlOf(e1).s) == Some(host) && hostname(UrlOf(e2).s) == Some(host)
    requires Results([e1, e2], outcomes, loads) == [Up, Down]
    ensures Summary([e1, e2], outcomes, hostname, loads) == [Row(Some(host), 50.0, 1, 2)]
  {
    TwoEndpointsOneHost(e1, e2, host, hostname);
    SingleRow(Some(host), Counter(1, 2));
    assert Availability(Counter(1, 2)) == 50.0;
  }

  /** Two endpoints on one host, one UP and one DOWN: 50% (1/2). */
  lemma SharedDomainScenario(url1: string, url2: string, host: string,
                             hostname: string -> Option<string>, loads: string -> Option<Value>)
    requires url1 != [] && url2 != []
    requires hostname(url1) == Some(host) && hostname(url2) == Some(host)
    ensures Summary([map["url" := Str(url1)], map["url" := Str(url2)]],
                    [Replied(200, 50.0), Replied(503, 50.0)], hostname, loads)
         == [Row(Some(host), 50.0, 1, 2)]
  {
    var e1, e2 := map["url" := Str(url1)], map["url" := Str(url2)];
    TwoAnswers(url1, url2, loads);
    assert UrlOf(e1) == Str(url1) && UrlOf(e2) == Str(url2);
    SharedSummary(e1, e2, [Replied(200, 50.0), Replied(503, 50.0)], host, hostname, loads);
  }
}
