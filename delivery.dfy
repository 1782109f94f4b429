/** Delivery statistics: `getCampaignStats` recounts a campaign's
    communication logs by status, while receipts bump the counters cached on
    the campaign. This module states how the two relate: the recount is
    bounded by the campaign's logs, it agrees with the cache as long as every
    terminal receipt lands on a pending log, and a repeated receipt makes the
    cache drift away from it. */
module Delivery {
  import opened Collections
  import opened Models

  /** Log `l` belongs to campaign `cid` and has status `st`. */
  predicate Counted(l: CommLog, cid: Id, st: LogStatus)
  {
    l.campaign == cid && l.status == st
  }

  function LogsOf(logs: map<Id, CommLog>, cid: Id): set<Id>
  {
    set k | k in logs && logs[k].campaign == cid
  }

  function LogsWith(logs: map<Id, CommLog>, cid: Id, st: LogStatus): set<Id>
  {
    set k | k in logs && Counted(logs[k], cid, st)
  }

  /** `CommunicationLog.countDocuments({ campaign: cid, status: st })` */
  function CountStatus(logs: map<Id, CommLog>, cid: Id, st: LogStatus): nat
  {
    |LogsWith(logs, cid, st)|
  }

  datatype CampaignStats = CampaignStats(sent: nat, failed: nat, audienceSize: nat)

  /** `getCampaignStats`: 404 for an unknown campaign, otherwise the live counts
      of its sent and failed logs with the recorded audience size. The cached
      `deliveryStats` are not consulted. */
  function GetCampaignStats(campaigns: map<Id, Campaign>, logs: map<Id, CommLog>, cid: Id): (r: Reply<CampaignStats>)
    ensures r.status == 404 <==> cid !in campaigns
    ensures r.status == 200 <==> r.body.Some?
    ensures r.status == 404 || r.status == 200
    ensures r.body.Some? ==> r.body.value.audienceSize == campaigns[cid].audienceSize
    ensures r.body.Some? ==> r.body.value.sent == |LogsWith(logs, cid, Sent)| && r.body.value.failed == |LogsWith(logs, cid, Failed)|
  {
    if cid !in campaigns then Reply(404, None)
    else Reply(200, Some(CampaignStats(CountStatus(logs, cid, Sent), CountStatus(logs, cid, Failed),
                                       campaigns[cid].audienceSize)))
  }

  /** The reply does not depend on the cached counters: any `deliveryStats`
      on the campaign gives the same figures. */
  lemma StatsIgnoreCache(campaigns: map<Id, Campaign>, logs: map<Id, CommLog>, cid: Id, cached: DeliveryStats)
    requires cid in campaigns
    ensures GetCampaignStats(campaigns[cid := campaigns[cid].(deliveryStats := cached)], logs, cid)
            == GetCampaignStats(campaigns, logs, cid)
  {
  }

  lemma SubsetCard(a: set<Id>, b: set<Id>)
    requires a <= b
    ensures |a| <= |b|
  {
    assert b == a + (b - a);
    assert a * (b - a) == {};
  }

  /** The recounted sent and failed figures together never exceed the number
      of logs the campaign has. */
  lemma StatsBounded(campaigns: map<Id, Campaign>, logs: map<Id, CommLog>, cid: Id)
    ensures GetCampaignStats(campaigns, logs, cid).body.Some? ==>
      var s := GetCampaignStats(campaigns, logs, cid).body.value;
      s.sent + s.failed <= |LogsOf(logs, cid)|
  {
    var sent := LogsWith(logs, cid, Sent);
    var failed := LogsWith(logs, cid, Failed);
    assert sent * failed == {};
    assert |sent + failed| == |sent| + |failed|;
    SubsetCard(sent + failed, LogsOf(logs, cid));
  }

  /** The cached counters of every campaign equal the recounted ones. */
  predicate CountersConsistent(campaigns: map<Id, Campaign>, logs: map<Id, CommLog>)
  {
    forall cid :: cid in campaigns ==>
      campaigns[cid].deliveryStats == DeliveryStats(CountStatus(logs, cid, Sent), CountStatus(logs, cid, Failed))
  }

  /** With consistent counters the stats reply reports exactly the cache. */
  lemma ConsistentStatsReportCache(campaigns: map<Id, Campaign>, logs: map<Id, CommLog>, cid: Id)
    requires CountersConsistent(campaigns, logs) && cid in campaigns
    ensures GetCampaignStats(campaigns, logs, cid).body ==
      Some(CampaignStats(campaigns[cid].deliveryStats.sent, campaigns[cid].deliveryStats.failed,
                         campaigns[cid].audienceSize))
  {
  }

  /** `if (status === 'sent') sent += 1; else if (status === 'failed') failed += 1;` */
  function Bump(stats: DeliveryStats, st: LogStatus): (r: DeliveryStats)
    ensures st == Sent ==> r.sent == stats.sent + 1 && r.failed == stats.failed
    ensures st == Failed ==> r.failed == stats.failed + 1 && r.sent == stats.sent
    ensures st == Pending ==> r == stats
  {
    match st
    case Sent => stats.(sent := stats.sent + 1)
    case Failed => stats.(failed := stats.failed + 1)
    case Pending => stats
  }

  /** `failureReason` is overwritten only by a non-empty (truthy) reason. */
  predicate Truthy(reason: Option<string>)
  {
    reason.Some? && reason.value != []
  }

  /** A receipt's update of one log: the new status, and the failure reason when one is supplied. */
  function RecordOutcome(l: CommLog, st: LogStatus, reason: Option<string>): (r: CommLog)
    ensures r.status == st
    ensures r.failureReason == if Truthy(reason) then reason else l.failureReason
    ensures r.campaign == l.campaign && r.customer == l.customer && r.message == l.message && r.sentAt == l.sentAt
  {
    l.(status := st, failureReason := if Truthy(reason) then reason else l.failureReason)
  }

  /** A count splits into the other logs and the one under `lid`. */
  lemma CountWithout(logs: map<Id, CommLog>, lid: Id, cid: Id, st: LogStatus)
    requires lid in logs
    ensures CountStatus(logs, cid, st) == |LogsWith(logs, cid, st) - {lid}| + (if Counted(logs[lid], cid, st) then 1 else 0)
  {
    var s := LogsWith(logs, cid, st);
    if Counted(logs[lid], cid, st) {
      assert s == (s - {lid}) + {lid};
    } else {
      assert s == s - {lid};
    }
  }

  /** How one count changes when one log is replaced. */
  lemma CountAfterUpdate(logs: map<Id, CommLog>, lid: Id, n: CommLog, cid: Id, st: LogStatus)
    requires lid in logs
    ensures CountStatus(logs[lid := n], cid, st) + (if Counted(logs[lid], cid, st) then 1 else 0)
         == CountStatus(logs, cid, st) + (if Counted(n, cid, st) then 1 else 0)
  {
    CountWithout(logs, lid, cid, st);
    CountWithout(logs[lid := n], lid, cid, st);
    assert LogsWith(logs[lid := n], cid, st) - {lid} == LogsWith(logs, cid, st) - {lid};
  }

  /** How one count changes when a log is added. */
  lemma CountAfterInsert(logs: map<Id, CommLog>, k: Id, n: CommLog, cid: Id, st: LogStatus)
    requires k !in logs
    ensures CountStatus(logs[k := n], cid, st) == CountStatus(logs, cid, st) + (if Counted(n, cid, st) then 1 else 0)
  {
    var s := LogsWith(logs, cid, st);
    if Counted(n, cid, st) {
      assert LogsWith(logs[k := n], cid, st) == s + {k};
    } else {
      assert LogsWith(logs[k := n], cid, st) == s;
    }
  }

  /** Adding a pending log (activation) leaves the counters consistent. */
  lemma AddPendingLogKeepsConsistency(campaigns: map<Id, Campaign>, logs: map<Id, CommLog>, k: Id, n: CommLog)
    requires CountersConsistent(campaigns, logs)
    requires k !in logs && n.status == Pending
    ensures CountersConsistent(campaigns, logs[k := n])
  {
    forall cid | cid in campaigns
      ensures campaigns[cid].deliveryStats ==
        DeliveryStats(CountStatus(logs[k := n], cid, Sent), CountStatus(logs[k := n], cid, Failed))
    {
      CountAfterInsert(logs, k, n, cid, Sent);
      CountAfterInsert(logs, k, n, cid, Failed);
    }
  }

  /** A campaign with fresh counters and no logs keeps the table consistent. */
  lemma AddCampaignKeepsConsistency(campaigns: map<Id, Campaign>, logs: map<Id, CommLog>, cid: Id, c: Campaign)
    requires CountersConsistent(campaigns, logs)
    requires c.deliveryStats == DeliveryStats(0, 0)
    requires forall k :: k in logs ==> logs[k].campaign != cid
    ensures CountersConsistent(campaigns[cid := c], logs)
  {
    assert LogsWith(logs, cid, Sent) == {};
    assert LogsWith(logs, cid, Failed) == {};
  }

  /** Replacing a campaign's document without touching its counters keeps the table consistent. */
  lemma SameStatsKeepConsistency(campaigns: map<Id, Campaign>, logs: map<Id, CommLog>, cid: Id, c: Campaign)
    requires CountersConsistent(campaigns, logs)
    requires cid in campaigns && c.deliveryStats == campaigns[cid].deliveryStats
    ensures CountersConsistent(campaigns[cid := c], logs)
  {
  }

  /** The first terminal receipt of a pending log keeps the counters consistent:
      the log moves into exactly the count its campaign's counter was bumped for. */
  lemma FirstReceiptKeepsConsistency(campaigns: map<Id, Campaign>, logs: map<Id, CommLog>, lid: Id,
                                     st: LogStatus, reason: Option<string>)
    requires CountersConsistent(campaigns, logs)
    requires lid in logs && logs[lid].status == Pending && logs[lid].campaign in campaigns
    ensures var cid := logs[lid].campaign;
      CountersConsistent(
        campaigns[cid := campaigns[cid].(deliveryStats := Bump(campaigns[cid].deliveryStats, st))],
        logs[lid := RecordOutcome(logs[lid], st, reason)])
  {
    var cid := logs[lid].campaign;
    var n := RecordOutcome(logs[lid], st, reason);
    var campaigns' := campaigns[cid := campaigns[cid].(deliveryStats := Bump(campaigns[cid].deliveryStats, st))];
    forall c | c in campaigns'
      ensures campaigns'[c].deliveryStats ==
        DeliveryStats(CountStatus(logs[lid := n], c, Sent), CountStatus(logs[lid := n], c, Failed))
    {
      CountAfterUpdate(logs, lid, n, c, Sent);
      CountAfterUpdate(logs, lid, n, c, Failed);
    }
  }

  /** A log whose campaign no longer exists can change status without
      affecting any campaign's consistency. */
  lemma OrphanReceiptKeepsConsistency(campaigns: map<Id, Campaign>, logs: map<Id, CommLog>, lid: Id,
                                      st: LogStatus, reason: Option<string>)
    requires CountersConsistent(campaigns, logs)
    requires lid in logs && logs[lid].campaign !in campaigns
    ensures CountersConsistent(campaigns, logs[lid := RecordOutcome(logs[lid], st, reason)])
  {
    var n := RecordOutcome(logs[lid], st, reason);
    forall c | c in campaigns
      ensures campaigns[c].deliveryStats ==
        DeliveryStats(CountStatus(logs[lid := n], c, Sent), CountStatus(logs[lid := n], c, Failed))
    {
      CountAfterUpdate(logs, lid, n, c, Sent);
      CountAfterUpdate(logs, lid, n, c, Failed);
    }
  }

  /** Receipts are not idempotent: repeating a terminal receipt on a log that
      already has that status bumps the cached counter again while the
      recount stays the same, so cache and recount differ by one. */
  lemma RepeatedReceiptDrifts(campaigns: map<Id, Campaign>, logs: map<Id, CommLog>, lid: Id,
                              st: LogStatus, reason: Option<string>)
    requires CountersConsistent(campaigns, logs)
    requires lid in logs && logs[lid].status == st && st != Pending && logs[lid].campaign in campaigns
    ensures var cid := logs[lid].campaign;
      var campaigns' := campaigns[cid := campaigns[cid].(deliveryStats := Bump(campaigns[cid].deliveryStats, st))];
      var logs' := logs[lid := RecordOutcome(logs[lid], st, reason)];
      && CountStatus(logs', cid, st) == CountStatus(logs, cid, st)
      && (st == Sent ==> campaigns'[cid].deliveryStats.sent == CountStatus(logs', cid, Sent) + 1)
      && (st == Failed ==> campaigns'[cid].deliveryStats.failed == CountStatus(logs', cid, Failed) + 1)
      && !CountersConsistent(campaigns', logs')
  {
    var cid := logs[lid].campaign;
    CountAfterUpdate(logs, lid, RecordOutcome(logs[lid], st, reason), cid, st);
  }
}
