/**
 * The RDS scanner: the paginated instance scan, the metadata with its defaults,
 * the security score and compliance issues, the compliance report, and the
 * describe-read-remove-add `apply_tags`, with its effect on the instance's tags
 * followed across failed steps and retries.
 */
module Rds {
  import opened Wrappers
  import opened Errors
  import opened Retry
  import opened Text
  import opened Resources
  import opened Seqs

  /** One entry of `describe_db_instances`; an absent field is None. `tagsReply` is what listing its tags returns. */
  datatype InstanceDesc = InstanceDesc(
    identifier: Option<string>, arn: Option<string>, status: Option<string>, engine: Option<string>,
    multiAz: Option<bool>, storageEncrypted: Option<bool>, publiclyAccessible: Option<bool>,
    backupRetentionPeriod: Option<int>, deletionProtection: Option<bool>,
    performanceInsightsEnabled: Option<bool>, monitoringInterval: Option<int>,
    tagsReply: Result<seq<(string, string)>, Error>)

  /** The settings the security checks read, with absent fields at their defaults. */
  datatype Settings = Settings(
    encrypted: bool, publiclyAccessible: bool, backupRetentionPeriod: int, multiAz: bool,
    status: Option<string>, deletionProtection: bool, monitoringInterval: int,
    performanceInsightsEnabled: bool)

  /** The defaults of `_extract_db_metadata`: a missing flag is false, a missing period or interval 0. */
  function SettingsOf(d: InstanceDesc): (s: Settings)
    ensures s.encrypted <==> d.storageEncrypted == Some(true)
    ensures s.publiclyAccessible <==> d.publiclyAccessible == Some(true)
    ensures s.multiAz <==> d.multiAz == Some(true)
    ensures s.deletionProtection <==> d.deletionProtection == Some(true)
    ensures s.performanceInsightsEnabled <==> d.performanceInsightsEnabled == Some(true)
    ensures s.backupRetentionPeriod == (if d.backupRetentionPeriod.Some? then d.backupRetentionPeriod.value else 0)
    ensures s.monitoringInterval == (if d.monitoringInterval.Some? then d.monitoringInterval.value else 0)
    ensures s.status == d.status
  {
    Settings(
      d.storageEncrypted.GetOr(false), d.publiclyAccessible.GetOr(false), d.backupRetentionPeriod.GetOr(0),
      d.multiAz.GetOr(false), d.status, d.deletionProtection.GetOr(false), d.monitoringInterval.GetOr(0),
      d.performanceInsightsEnabled.GetOr(false))
  }

  /** The five scored checks all pass. */
  predicate FullyHardened(s: Settings) {
    s.encrypted && !s.publiclyAccessible && s.backupRetentionPeriod >= 7 && s.multiAz && s.deletionProtection
  }

  /**
   * `_calculate_security_score`: 100 less 40 without encryption, 30 when public,
   * 15 for under seven days of backups, 10 without Multi-AZ and 5 without deletion
   * protection, floored at 0.
   */
  function SecurityScore(s: Settings): (score: int)
    ensures 0 <= score <= 100
    ensures score == 100 <==> FullyHardened(s)
    ensures !s.encrypted ==> score <= 60
    ensures s.publiclyAccessible ==> score <= 70
  {
    var raw := RawScore(s);
    if raw < 0 then 0 else raw
  }

  /** The score before the floor: 100 less the deductions of the failed checks. */
  function RawScore(s: Settings): int {
    100
      - (if s.encrypted then 0 else 40)
      - (if s.publiclyAccessible then 30 else 0)
      - (if s.backupRetentionPeriod < 7 then 15 else 0)
      - (if s.multiAz then 0 else 10)
      - (if s.deletionProtection then 0 else 5)
  }

  /**
   * The deductions add up to at most 100, so the unfloored score is never negative
   * and the floor at 0 never applies; it reaches 0 only when every check fails.
   */
  lemma ScoreFloorNeverApplies(s: Settings)
    ensures RawScore(s) >= 0
    ensures SecurityScore(s) == RawScore(s)
    ensures SecurityScore(s) == 0 <==>
      !s.encrypted && s.publiclyAccessible && s.backupRetentionPeriod < 7 && !s.multiAz && !s.deletionProtection
  {
  }

  /** Improving any setting never lowers the score. */
  lemma SecurityScoreMonotone(a: Settings, b: Settings)
    requires a.encrypted ==> b.encrypted
    requires b.publiclyAccessible ==> a.publiclyAccessible
    requires a.backupRetentionPeriod <= b.backupRetentionPeriod
    requires a.multiAz ==> b.multiAz
    requires a.deletionProtection ==> b.deletionProtection
    ensures SecurityScore(a) <= SecurityScore(b)
    ensures SeverityRank(RiskLevel(SecurityScore(b))) <= SeverityRank(RiskLevel(SecurityScore(a)))
  {
    RiskLevelMonotone(SecurityScore(a), SecurityScore(b));
  }

  /** The severity `_identify_compliance_issues` gives each issue. */
  function IssueSeverity(i: ComplianceIssue): Severity {
    match i
    case Unencrypted => Critical
    case PubliclyAccessible | ShortBackupRetention(_) => High
    case SingleAz | NoDeletionProtection => Medium
    case NoEnhancedMonitoring | NoPerformanceInsights => Low
  }

  /** The issue's text; the backup issue names the configured number of days. */
  function IssueText(i: ComplianceIssue): string {
    match i
    case Unencrypted => "Database is not encrypted at rest"
    case PubliclyAccessible => "Database is publicly accessible"
    case ShortBackupRetention(days) => "Backup retention period is only " + IntToString(days) + " days (minimum 7 recommended)"
    case SingleAz => "Multi-AZ deployment is not enabled"
    case NoDeletionProtection => "Deletion protection is not enabled"
    case NoEnhancedMonitoring => "Enhanced monitoring is not enabled"
    case NoPerformanceInsights => "Performance Insights is not enabled"
  }

  /** The compliance frameworks the issue concerns. */
  function IssueFrameworks(i: ComplianceIssue): seq<string> {
    match i
    case Unencrypted => ["HIPAA", "PCI-DSS", "SOC 2"]
    case PubliclyAccessible => ["PCI-DSS", "SOC 2", "Security Best Practices"]
    case ShortBackupRetention(_) => ["SOC 2", "HIPAA"]
    case SingleAz => ["SOC 2"]
    case NoDeletionProtection => ["Security Best Practices"]
    case NoEnhancedMonitoring => ["SOC 2"]
    case NoPerformanceInsights => []
  }

  /** The remediation the issue recommends. */
  function IssueRecommendation(i: ComplianceIssue): string {
    match i
    case Unencrypted => "Enable encryption at rest using AWS KMS. Note: Requires snapshot and restore."
    case PubliclyAccessible => "Disable public accessibility and use VPN or Direct Connect for access"
    case ShortBackupRetention(_) => "Set backup retention to at least 7 days for compliance"
    case SingleAz => "Enable Multi-AZ for production databases to ensure high availability"
    case NoDeletionProtection => "Enable deletion protection to prevent accidental database deletion"
    case NoEnhancedMonitoring => "Enable enhanced monitoring for better observability"
    case NoPerformanceInsights => "Enable Performance Insights for query performance analysis"
  }

  /** Multi-AZ is only reported for an instance whose status is "available". */
  predicate MultiAzReported(s: Settings) {
    !s.multiAz && s.status == Some("available")
  }

  /** `_identify_compliance_issues`: one issue per failed check, in the order the checks run. */
  function ComplianceIssues(s: Settings): (issues: seq<ComplianceIssue>)
    ensures |issues| <= 7
    ensures issues == [] ==> (s.encrypted && !s.publiclyAccessible && s.backupRetentionPeriod >= 7
      && !MultiAzReported(s) && s.deletionProtection && s.monitoringInterval != 0 && s.performanceInsightsEnabled)
  {
    (if s.encrypted then [] else [Unencrypted])
    + (if s.publiclyAccessible then [PubliclyAccessible] else [])
    + (if s.backupRetentionPeriod < 7 then [ShortBackupRetention(s.backupRetentionPeriod)] else [])
    + (if MultiAzReported(s) then [SingleAz] else [])
    + (if s.deletionProtection then [] else [NoDeletionProtection])
    + (if s.monitoringInterval == 0 then [NoEnhancedMonitoring] else [])
    + (if s.performanceInsightsEnabled then [] else [NoPerformanceInsights])
  }

  /** Each issue is reported exactly when its check fails. */
  lemma IssuesMatchFailedChecks(s: Settings)
    ensures Unencrypted in ComplianceIssues(s) <==> !s.encrypted
    ensures PubliclyAccessible in ComplianceIssues(s) <==> s.publiclyAccessible
    ensures ShortBackupRetention(s.backupRetentionPeriod) in ComplianceIssues(s) <==> s.backupRetentionPeriod < 7
    ensures SingleAz in ComplianceIssues(s) <==> MultiAzReported(s)
    ensures NoDeletionProtection in ComplianceIssues(s) <==> !s.deletionProtection
    ensures NoEnhancedMonitoring in ComplianceIssues(s) <==> s.monitoringInterval == 0
    ensures NoPerformanceInsights in ComplianceIssues(s) <==> !s.performanceInsightsEnabled
  {
    UnencryptedPresence(s);
    PubliclyAccessiblePresence(s);
    ShortBackupRetentionPresence(s);
    SingleAzPresence(s);
    NoDeletionProtectionPresence(s);
    NoEnhancedMonitoringPresence(s);
    NoPerformanceInsightsPresence(s);
  }

  lemma UnencryptedPresence(s: Settings)
    ensures Unencrypted in ComplianceIssues(s) <==> !s.encrypted
  {
  }

  lemma PubliclyAccessiblePresence(s: Settings)
    ensures PubliclyAccessible in ComplianceIssues(s) <==> s.publiclyAccessible
  {
  }

  lemma ShortBackupRetentionPresence(s: Settings)
    ensures ShortBackupRetention(s.backupRetentionPeriod) in ComplianceIssues(s) <==> s.backupRetentionPeriod < 7
  {
  }

  lemma SingleAzPresence(s: Settings)
    ensures SingleAz in ComplianceIssues(s) <==> MultiAzReported(s)
  {
  }

  lemma NoDeletionProtectionPresence(s: Settings)
    ensures NoDeletionProtection in ComplianceIssues(s) <==> !s.deletionProtection
  {
  }

  lemma NoEnhancedMonitoringPresence(s: Settings)
    ensures NoEnhancedMonitoring in ComplianceIssues(s) <==> s.monitoringInterval == 0
  {
  }

  lemma NoPerformanceInsightsPresence(s: Settings)
    ensures NoPerformanceInsights in ComplianceIssues(s) <==> !s.performanceInsightsEnabled
  {
  }

  /** A CRITICAL-risk score always comes with a CRITICAL or HIGH issue. */
  lemma CriticalRiskHasSevereIssue(s: Settings)
    requires RiskLevel(SecurityScore(s)) == Critical
    ensures exists i :: 0 <= i < |ComplianceIssues(s)| && IssueSeverity(ComplianceIssues(s)[i]) in {Critical, High}
  {
    var issues := ComplianceIssues(s);
    if !s.encrypted {
      assert issues[0] == Unencrypted;
    } else {
      assert issues[0] == PubliclyAccessible;
    }
  }

  /** A LOW-risk score never comes with a CRITICAL or HIGH issue. */
  lemma LowRiskHasNoSevereIssue(s: Settings)
    requires RiskLevel(SecurityScore(s)) == Low
    ensures forall i :: 0 <= i < |ComplianceIssues(s)| ==> IssueSeverity(ComplianceIssues(s)[i]) in {Medium, Low}
  {
  }

  /** An instance without issues scores at least 90: only an unreported Multi-AZ gap can remain. */
  lemma NoIssuesMeansLowRisk(s: Settings)
    requires ComplianceIssues(s) == []
    ensures SecurityScore(s) >= 90 && RiskLevel(SecurityScore(s)) == Low
    ensures SecurityScore(s) < 100 <==> !s.multiAz
  {
  }

  /** `_extract_db_metadata`: the settings, the score and the issues of one instance. */
  function MetadataOf(d: InstanceDesc): (m: Metadata)
    ensures m.RdsMeta? && m.dbInstanceIdentifier == d.identifier && m.engine == d.engine && m.status == d.status
    ensures m.securityScore == SecurityScore(SettingsOf(d)) && m.complianceIssues == ComplianceIssues(SettingsOf(d))
    ensures var s := SettingsOf(d);
      m.encrypted == s.encrypted && m.publiclyAccessible == s.publiclyAccessible && m.multiAz == s.multiAz
      && m.backupRetentionPeriod == s.backupRetentionPeriod && m.deletionProtection == s.deletionProtection
      && m.performanceInsightsEnabled == s.performanceInsightsEnabled && m.monitoringInterval == s.monitoringInterval
  {
    var s := SettingsOf(d);
    RdsMeta(d.identifier, d.engine, d.status, s.multiAz, s.encrypted, s.publiclyAccessible, s.backupRetentionPeriod,
      s.deletionProtection, s.performanceInsightsEnabled, s.monitoringInterval,
      SecurityScore(s), ComplianceIssues(s))
  }

  /** A bare instance description: everything at its default. */
  lemma BareInstanceScore(d: InstanceDesc)
    requires d.storageEncrypted.None? && d.publiclyAccessible.None? && d.backupRetentionPeriod.None?
    requires d.multiAz.None? && d.deletionProtection.None? && d.status.None?
    requires d.monitoringInterval.None? && d.performanceInsightsEnabled.None?
    ensures MetadataOf(d).securityScore == 30
    ensures MetadataOf(d).complianceIssues == [Unencrypted, ShortBackupRetention(0), NoDeletionProtection, NoEnhancedMonitoring, NoPerformanceInsights]
  {
  }

  /**
   * One instance of the scan: a missing identifier or ARN is a KeyError, which
   * ends the scan; the tag read swallows its own ClientError.
   */
  function InstanceResource(region: string, d: InstanceDesc): (r: Result<AWSResource, Error>)
    ensures d.identifier.None? ==> r == Err(OtherError("'DBInstanceIdentifier'"))
    ensures d.identifier.Some? && d.arn.None? ==> r == Err(OtherError("'DBInstanceArn'"))
    ensures r.Ok? <==> d.identifier.Some? && d.arn.Some? && TagsOrEmpty(d.tagsReply).Ok?
    ensures r.Ok? ==> (r.value.resourceId == d.identifier.value && r.value.kind == RDS && r.value.region == region
      && r.value.tags == TagsOrEmpty(d.tagsReply).value && r.value.state == d.status.GetOr("unknown")
      && r.value.metadata == MetadataOf(d))
  {
    if d.identifier.None? then Err(OtherError("'DBInstanceIdentifier'"))
    else if d.arn.None? then Err(OtherError("'DBInstanceArn'"))
    else
      var tags :- TagsOrEmpty(d.tagsReply);
      Ok(AWSResource(d.identifier.value, RDS, region, tags, d.status.GetOr("unknown"), MetadataOf(d)))
  }

  /**
   * The paginator's output as one stream, page after page: an instance, or the
   * exception fetching the next page raised (which ends the stream).
   */
  type Stream = seq<Result<InstanceDesc, Error>>

  /** The resources of the stream in order, or the first exception met. */
  function ScanStream(region: string, items: Stream): Result<seq<AWSResource>, Error> {
    MapResult(items, ItemScanner(region))
  }

  /** One item of the stream: its instance's resource, or the exception. */
  function ItemResource(region: string, item: Result<InstanceDesc, Error>): (r: Result<AWSResource, Error>)
    ensures item.Err? ==> r == Err(item.error)
    ensures item.Ok? ==> r == InstanceResource(region, item.value)
  {
    var d :- item;
    InstanceResource(region, d)
  }

  function ItemScanner(region: string): Result<InstanceDesc, Error> -> Result<AWSResource, Error> {
    item => ItemResource(region, item)
  }

  /** A scan succeeds iff every item is an instance that scans cleanly, and then yields one resource per instance, in order. */
  lemma ScanStreamShape(region: string, items: Stream)
    ensures ScanStream(region, items).Ok? <==> forall i :: 0 <= i < |items| ==> ItemResource(region, items[i]).Ok?
    ensures ScanStream(region, items).Ok? ==> (|ScanStream(region, items).value| == |items|
      && forall i :: 0 <= i < |items| ==> ScanStream(region, items).value[i] == ItemResource(region, items[i]).value)
  {
    MapResultSucceeds(items, ItemScanner(region));
    if ScanStream(region, items).Ok? {
      MapResultValues(items, ItemScanner(region));
    }
  }

  /** The first item that is an exception, or an instance that fails, decides the scan's exception. */
  lemma ScanStreamFirstFailure(region: string, items: Stream, k: nat)
    requires k < |items|
    requires forall i :: 0 <= i < k ==> ItemResource(region, items[i]).Ok?
    requires ItemResource(region, items[k]).Err?
    ensures ScanStream(region, items) == Err(ItemResource(region, items[k]).error)
  {
    MapResultFirstFailure(items, ItemScanner(region), k);
  }

  /** One attempt of `scan`: the resources partitioned, or the exception reported as a scan failure. */
  function ScanAttempt(region: string, items: Stream): (r: Result<ScanResult, Error>)
    ensures r.Ok? <==> ScanStream(region, items).Ok?
    ensures r.Err? ==> r.error == ScanFailure("RDS", ScanStream(region, items).error)
    ensures r.Ok? ==> (r.value.Valid() && r.value.kind == RDS && r.value.region == region
      && r.value.resources == ScanStream(region, items).value)
  {
    match ScanStream(region, items)
    case Err(e) => Err(ScanFailure("RDS", e))
    case Ok(rs) => Ok(Partition(RDS, region, rs))
  }

  /** What each attempt's paginator yields, for the filter it was given. */
  type PageOracle = (Option<string>, nat) -> Stream

  /** `scan` with its retry decorator, which retries every exception. */
  function Scan(region: string, id: Option<string>, pages: PageOracle): (r: (Result<ScanResult, Error>, nat))
    ensures 1 <= r.1 <= MaxAttempts
    ensures r.0 == ScanAttempt(region, pages(NonEmpty(id), r.1 - 1))
    ensures r.1 < MaxAttempts ==> r.0.Ok?
    ensures forall i :: 0 <= i < r.1 - 1 ==> ScanAttempt(region, pages(NonEmpty(id), i)).Err?
  {
    WithRetryOver(ScanAttempt, region, pages, NonEmpty(id), OnAnyError)
  }

  /** The result of `generate_compliance_report`. */
  datatype Report = Report(
    identifier: string, engine: Option<string>, securityScore: int, riskLevel: Severity,
    issues: seq<ComplianceIssue>, encrypted: bool, publiclyAccessible: bool, multiAz: bool,
    backupRetentionDays: int, deletionProtection: bool, enhancedMonitoring: bool,
    performanceInsights: bool, recommendations: seq<string>)

  /** The report of one described instance. */
  function ReportOf(id: string, d: InstanceDesc): (r: Report)
    ensures r.securityScore == SecurityScore(SettingsOf(d)) && r.riskLevel == RiskLevel(r.securityScore)
    ensures r.issues == ComplianceIssues(SettingsOf(d))
    ensures |r.recommendations| == |r.issues|
    ensures forall i :: 0 <= i < |r.issues| ==> r.recommendations[i] == IssueRecommendation(r.issues[i])
    ensures r.enhancedMonitoring <==> SettingsOf(d).monitoringInterval > 0
  {
    var s := SettingsOf(d);
    var issues := ComplianceIssues(s);
    var score := SecurityScore(s);
    Report(id, d.engine, score, RiskLevel(score), issues, s.encrypted, s.publiclyAccessible, s.multiAz,
      s.backupRetentionPeriod, s.deletionProtection, s.monitoringInterval > 0, s.performanceInsightsEnabled,
      Recommendations(issues))
  }

  /** The recommendations of the issues, in order. */
  function Recommendations(issues: seq<ComplianceIssue>): (r: seq<string>)
    ensures |r| == |issues|
    ensures forall i :: 0 <= i < |issues| ==> r[i] == IssueRecommendation(issues[i])
  {
    seq(|issues|, i requires 0 <= i < |issues| => IssueRecommendation(issues[i]))
  }

  /** `generate_compliance_report`: the first described instance; an empty reply is an IndexError, and every exception is re-raised. */
  function ComplianceReport(id: string, describe: Result<seq<InstanceDesc>, Error>): (r: Result<Report, Error>)
    ensures describe.Err? ==> r == Err(describe.error)
    ensures describe.Ok? && |describe.value| == 0 ==> r == Err(OtherError("list index out of range"))
    ensures describe.Ok? && |describe.value| > 0 ==> r == Ok(ReportOf(id, describe.value[0]))
  {
    var xs :- describe;
    if |xs| == 0 then Err(OtherError("list index out of range")) else Ok(ReportOf(id, xs[0]))
  }

  /** A report without recommendations is a LOW-risk report. */
  lemma NoRecommendationsMeansLowRisk(id: string, d: InstanceDesc)
    requires ReportOf(id, d).recommendations == []
    ensures ReportOf(id, d).riskLevel == Low
  {
    NoIssuesMeansLowRisk(SettingsOf(d));
  }

  /** What the calls of one `apply_tags` attempt do: the describe reply, then whether the tag read, the removal and the addition raise. */
  datatype ApplyReplies = ApplyReplies(
    describe: Result<seq<InstanceDesc>, Error>, readError: Option<Error>,
    removeError: Option<Error>, addError: Option<Error>)

  /** A ClientError inside `apply_tags` is re-raised as AWSError; anything else propagates as it is. */
  function ApplyFailure(id: string, e: Error): (r: Error)
    ensures e.ClientError? ==> r == AWSError("Failed to apply tags to RDS instance " + id + ": " + e.Str())
    ensures !e.ClientError? ==> r == e
  {
    if e.ClientError? then AWSError("Failed to apply tags to RDS instance " + id + ": " + e.Str()) else e
  }

  /** The tags left after removing the keys of `removed`. */
  function Without(tags: Tags, removed: Tags): (r: Tags)
    ensures forall k :: k in r <==> k in tags && k !in removed
    ensures forall k :: k in r ==> r[k] == tags[k]
  {
    map k | k in tags && k !in removed :: tags[k]
  }

  /** The tags after the removal step: all of them when the read saw them, none when it saw nothing. */
  function Cleared(current: Tags, existing: Tags): Tags {
    if |existing| > 0 then Without(current, existing) else current
  }

  /** Whichever way the read went, the removal and the addition leave the old tags merged with the request. */
  lemma ClearThenAddMerges(current: Tags, existing: Tags, requested: Tags)
    requires existing == current || existing == map[]
    ensures Cleared(current, existing) + (existing + requested) == current + requested
  {
    if existing == map[] {
      assert existing + requested == requested;
    } else {
      assert Cleared(current, existing) == map[];
    }
  }

  /**
   * One attempt of `apply_tags`: find the instance's ARN, read its tags, remove
   * them all, then add the merged set. Returns the outcome and the instance's tags
   * afterwards, which a failure between the removal and the addition leaves empty.
   */
  function ApplyTagsAttempt(id: string, current: Tags, requested: Tags, rp: ApplyReplies): (r: (Result<bool, Error>, Tags))
    ensures r.0.Ok? ==> r.0.value && r.1 == current + requested
    ensures r.0.Err? ==> r.1 == current || r.1 == map[]
    ensures rp.describe.Ok? && |rp.describe.value| == 0 ==> r == (Err(AWSError("RDS instance " + id + " not found")), current)
    ensures (rp.describe.Ok? && |rp.describe.value| > 0 && rp.describe.value[0].arn.Some?
      && rp.readError.None? && rp.removeError.None? && rp.addError.None?) ==> r.0 == Ok(true)
  {
    match rp.describe
    case Err(e) => (Err(ApplyFailure(id, e)), current)
    case Ok(xs) =>
      if |xs| == 0 then (Err(AWSError("RDS instance " + id + " not found")), current)
      else if xs[0].arn.None? then (Err(OtherError("'DBInstanceArn'")), current)
      else if rp.readError.Some? && !rp.readError.value.ClientError? then (Err(rp.readError.value), current)
      else
        var existing := if rp.readError.None? then current else map[];
        if |existing| > 0 && rp.removeError.Some? then (Err(ApplyFailure(id, rp.removeError.value)), current)
        else if rp.addError.Some? then
          assert existing == current ==> Cleared(current, existing) == map[] || |existing| == 0;
          (Err(ApplyFailure(id, rp.addError.value)), Cleared(current, existing))
        else
          ClearThenAddMerges(current, existing, requested);
          (Ok(true), Cleared(current, existing) + (existing + requested))
  }

  /** A failed addition after a successful removal leaves the instance with no tags at all. */
  lemma AddFailureAfterRemovalErasesTags(id: string, current: Tags, requested: Tags, rp: ApplyReplies)
    requires rp.describe.Ok? && |rp.describe.value| > 0 && rp.describe.value[0].arn.Some?
    requires rp.readError.None? && rp.removeError.None? && rp.addError.Some?
    requires |current| > 0
    ensures ApplyTagsAttempt(id, current, requested, rp).0.Err?
    ensures ApplyTagsAttempt(id, current, requested, rp).1 == map[]
    ensures ApplyTagsAttempt(id, current, requested, rp).1 != MergedWrite(current, requested, false)
  {
    assert Cleared(current, current) == map[];
  }

  /** `apply_tags` with its retry decorator: each attempt starts from the tags the previous one left. */
  function ApplyTags(id: string, current: Tags, requested: Tags, replies: nat -> ApplyReplies): (r: (Result<bool, Error>, nat, Tags))
    ensures 1 <= r.1 <= MaxAttempts
    ensures r.0.Ok? ==> r.0.value && forall k :: k in requested ==> k in r.2 && r.2[k] == requested[k]
    ensures r.0.Err? ==> r.1 == MaxAttempts
  {
    ApplyFrom(id, requested, replies, 0, current)
  }

  function ApplyFrom(id: string, requested: Tags, replies: nat -> ApplyReplies, i: nat, state: Tags): (r: (Result<bool, Error>, nat, Tags))
    requires i < MaxAttempts
    ensures i + 1 <= r.1 <= MaxAttempts
    ensures r.0.Ok? ==> r.0.value && forall k :: k in requested ==> k in r.2 && r.2[k] == requested[k]
    ensures r.0.Err? ==> r.1 == MaxAttempts
    decreases MaxAttempts - i
  {
    var (out, after) := ApplyTagsAttempt(id, state, requested, replies(i));
    if out.Ok? || i + 1 == MaxAttempts then (out, i + 1, after)
    else ApplyFrom(id, requested, replies, i + 1, after)
  }

  /** When the first attempt succeeds, the instance ends with its old tags merged with the request. */
  lemma FirstAttemptMerges(id: string, current: Tags, requested: Tags, replies: nat -> ApplyReplies)
    requires ApplyTagsAttempt(id, current, requested, replies(0)).0.Ok?
    ensures ApplyTags(id, current, requested, replies) == (Ok(true), 1, current + requested)
  {
  }

  /**
   * A first attempt that fails after removing the tags, followed by a clean retry,
   * leaves only the requested tags: the instance's other tags are lost.
   */
  lemma RetryAfterPartialFailureLosesTags(id: string, current: Tags, requested: Tags, replies: nat -> ApplyReplies)
    requires |current| > 0
    requires forall i :: 0 <= i < 2 ==> (replies(i).describe.Ok? && |replies(i).describe.value| > 0
      && replies(i).describe.value[0].arn.Some? && replies(i).readError.None? && replies(i).removeError.None?)
    requires replies(0).addError.Some? && replies(1).addError.None?
    ensures ApplyTags(id, current, requested, replies) == (Ok(true), 2, requested)
  {
    AddFailureAfterRemovalErasesTags(id, current, requested, replies(0));
    assert map[] + requested == requested;
  }
}
