/**
 * The resource model shared by every scanner: resource kinds, one resource with
 * its tag map and kind-specific metadata, and the tagged/untagged partition a
 * scan produces.
 */
module Resources {
  import opened Wrappers
  import opened Errors
  import opened Seqs

  /** The supported resource kinds; `KindValue` is the enum's string value. */
  datatype ResourceType = EC2 | Lambda | RDS | S3 | EBS {
    function KindValue(): string {
      match this
      case EC2 => "EC2"
      case Lambda => "Lambda"
      case RDS => "RDS"
      case S3 => "S3"
      case EBS => "EBS"
    }
  }

  /** `ResourceType(value)`: the member with that value, or a ValueError. */
  function ParseResourceType(value: string): (r: Option<ResourceType>)
    ensures r.Some? ==> r.value.KindValue() == value
  {
    if value == "EC2" then Some(EC2)
    else if value == "Lambda" then Some(Lambda)
    else if value == "RDS" then Some(RDS)
    else if value == "S3" then Some(S3)
    else if value == "EBS" then Some(EBS)
    else None
  }

  /** Every kind's value parses back to that kind, and only values of kinds parse. */
  lemma KindValueRoundTrip(k: ResourceType, value: string)
    ensures ParseResourceType(k.KindValue()) == Some(k)
    ensures ParseResourceType(value).Some? <==> exists k': ResourceType :: k'.KindValue() == value
  {
    forall k': ResourceType | k'.KindValue() == value
      ensures ParseResourceType(value) == Some(k')
    {
    }
  }

  type Tags = map<string, string>

  /**
   * A merging tag write: a call that succeeded leaves the requested tags over the
   * current ones, and any other call leaves the tags as they were.
   */
  function MergedWrite(current: Tags, requested: Tags, succeeded: bool): Tags {
    if succeeded then current + requested else current
  }

  /**
   * The dict built from a list of `{'Key': k, 'Value': v}` entries: a later entry
   * for the same key overwrites an earlier one.
   */
  function TagsFromPairs(pairs: seq<(string, string)>): Tags {
    if |pairs| == 0 then map[]
    else TagsFromPairs(pairs[..|pairs| - 1])[pairs[|pairs| - 1].0 := pairs[|pairs| - 1].1]
  }

  /**
   * A scanner's tag read (`_get_bucket_tags`, `_get_db_instance_tags`): the reply's
   * pairs, with any ClientError read as no tags and any other exception propagated.
   */
  function TagsOrEmpty(reply: Result<seq<(string, string)>, Error>): (r: Result<Tags, Error>)
    ensures reply.Ok? ==> r == Ok(TagsFromPairs(reply.value))
    ensures reply.Err? && reply.error.ClientError? ==> r == Ok(map[])
    ensures reply.Err? && !reply.error.ClientError? ==> r == Err(reply.error)
  {
    match reply
    case Ok(pairs) => Ok(TagsFromPairs(pairs))
    case Err(e) => if e.ClientError? then Ok(map[]) else Err(e)
  }

  /** A key is present iff some entry carries it, and its value is the one of the last such entry. */
  lemma {:induction false} TagsFromPairsLastWins(pairs: seq<(string, string)>, i: nat)
    requires i < |pairs|
    requires forall j :: i < j < |pairs| ==> pairs[j].0 != pairs[i].0
    ensures pairs[i].0 in TagsFromPairs(pairs) && TagsFromPairs(pairs)[pairs[i].0] == pairs[i].1
  {
    if i < |pairs| - 1 {
      TagsFromPairsLastWins(pairs[..|pairs| - 1], i);
    }
  }

  lemma {:induction false} TagsFromPairsKeys(pairs: seq<(string, string)>, k: string)
    ensures k in TagsFromPairs(pairs) <==> exists i :: 0 <= i < |pairs| && pairs[i].0 == k
  {
    if |pairs| > 0 {
      var init := pairs[..|pairs| - 1];
      TagsFromPairsKeys(init, k);
      if k in TagsFromPairs(init) {
        var i :| 0 <= i < |init| && init[i].0 == k;
        assert pairs[i].0 == k;
      }
      if exists i :: 0 <= i < |pairs| && pairs[i].0 == k {
        var i :| 0 <= i < |pairs| && pairs[i].0 == k;
        if i < |pairs| - 1 {
          assert init[i].0 == k;
        }
      }
    }
  }

  datatype Severity = Critical | High | Medium | Low

  /** The risk level of a 0-100 security score: thresholds 50, 70 and 90. */
  function RiskLevel(score: int): (r: Severity)
    ensures r == Critical <==> score < 50
    ensures r == High <==> 50 <= score < 70
    ensures r == Medium <==> 70 <= score < 90
    ensures r == Low <==> 90 <= score
  {
    if score < 50 then Critical else if score < 70 then High else if score < 90 then Medium else Low
  }

  /** Severities ordered from Low (0) to Critical (3). */
  function SeverityRank(s: Severity): nat {
    match s
    case Low => 0
    case Medium => 1
    case High => 2
    case Critical => 3
  }

  /** A better score never means a higher risk. */
  lemma RiskLevelMonotone(a: int, b: int)
    requires a <= b
    ensures SeverityRank(RiskLevel(b)) <= SeverityRank(RiskLevel(a))
  {
  }

  /** One S3 security-posture finding. */
  datatype Finding = Finding(severity: Severity, finding: string, recommendation: string)

  /**
   * One RDS compliance issue, named by the check that failed (the backup issue
   * carries the configured retention days); its severity and texts follow from the check.
   */
  datatype ComplianceIssue =
    | Unencrypted
    | PubliclyAccessible
    | ShortBackupRetention(days: int)
    | SingleAz
    | NoDeletionProtection
    | NoEnhancedMonitoring
    | NoPerformanceInsights

  datatype OpportunityKind = OrphanedVolume | VolumeTypeUpgrade | OverProvisionedIops | EncryptionDisabled | OldUnattachedVolume

  /** One EBS cost-optimisation opportunity (its dollar texts are not modelled). */
  datatype Opportunity = Opportunity(kind: OpportunityKind, severity: Severity)

  /** The four flags of an S3 public-access-block configuration; an absent flag is None. */
  datatype PublicAccessBlock = PublicAccessBlock(
    blockPublicAcls: Option<bool>,
    blockPublicPolicy: Option<bool>,
    ignorePublicAcls: Option<bool>,
    restrictPublicBuckets: Option<bool>)

  /** The per-kind `metadata` dict of a resource, one record per scanner. */
  datatype Metadata =
    | NoMetadata
    | Ec2Meta(
        instanceType: Option<string>, availabilityZone: Option<string>, vpcId: Option<string>,
        subnetId: Option<string>, privateIp: Option<string>, publicIp: Option<string>,
        platform: string, name: Option<string>)
    | LambdaMeta(
        arn: string, runtime: Option<string>, handler: Option<string>, memorySize: Option<int>,
        timeout: Option<int>, description: string, architectures: seq<string>, packageType: string)
    | S3Meta(
        bucketName: string, bucketRegion: string, encryptionEnabled: bool, encryptionType: Option<string>,
        versioningEnabled: bool, versioningStatus: Option<string>, publicAccessBlock: PublicAccessBlock,
        lifecycleRules: nat, replicationEnabled: bool, loggingEnabled: bool, intelligentTiering: bool)
    | RdsMeta(
        dbInstanceIdentifier: Option<string>, engine: Option<string>, status: Option<string>,
        multiAz: bool, encrypted: bool, publiclyAccessible: bool, backupRetentionPeriod: int,
        deletionProtection: bool, performanceInsightsEnabled: bool, monitoringInterval: int,
        securityScore: int, complianceIssues: seq<ComplianceIssue>)
    | EbsMeta(
        volumeId: Option<string>, volumeType: Option<string>, size: nat, iops: Option<int>,
        throughput: Option<int>, encrypted: bool, ageDays: int, isAttached: bool,
        instanceId: Option<string>, deviceName: Option<string>, deleteOnTermination: bool,
        estimatedMonthlyCost: int, optimizationOpportunities: seq<Opportunity>, valueScore: int)

  /** One scanned resource. */
  datatype AWSResource = AWSResource(
    resourceId: string, kind: ResourceType, region: string, tags: Tags, state: string, metadata: Metadata)
  {
    /** `is_tagged`: at least one tag. */
    predicate IsTagged() {
      |tags| > 0
    }
  }

  /** Constructing a resource: a missing metadata argument becomes the empty dict. */
  function NewResource(
    resourceId: string, kind: ResourceType, region: string, tags: Tags, state: string, metadata: Option<Metadata>): (r: AWSResource)
    ensures r.resourceId == resourceId && r.kind == kind && r.region == region
    ensures r.tags == tags && r.state == state
    ensures metadata.None? ==> r.metadata == NoMetadata
    ensures metadata.Some? ==> r.metadata == metadata.value
  {
    AWSResource(resourceId, kind, region, tags, state, metadata.GetOr(NoMetadata))
  }

  predicate Tagged(r: AWSResource) {
    r.IsTagged()
  }

  predicate Untagged(r: AWSResource) {
    !r.IsTagged()
  }

  /** `is_tagged` holds exactly when some key is present. */
  lemma TaggedIffSomeKey(r: AWSResource)
    ensures r.IsTagged() <==> exists k :: k in r.tags
  {
    if !r.IsTagged() {
      assert r.tags == map[];
    } else {
      var k :| k in r.tags;
    }
  }

  /** The serialised form of a resource (`to_dict`). */
  datatype ResourceRecord = ResourceRecord(
    resourceId: string, resourceType: string, region: string, tags: Tags, state: string, metadata: Metadata)

  function ToDict(r: AWSResource): (d: ResourceRecord)
    ensures d.resourceId == r.resourceId && d.region == r.region && d.tags == r.tags
    ensures d.state == r.state && d.metadata == r.metadata
    ensures ParseResourceType(d.resourceType) == Some(r.kind)
  {
    KindValueRoundTrip(r.kind, r.kind.KindValue());
    ResourceRecord(r.resourceId, r.kind.KindValue(), r.region, r.tags, r.state, r.metadata)
  }

  /** Distinct resources serialise differently: `to_dict` loses nothing. */
  lemma ToDictInjective(a: AWSResource, b: AWSResource)
    requires ToDict(a) == ToDict(b)
    ensures a == b
  {
    assert ParseResourceType(ToDict(a).resourceType) == Some(a.kind);
  }

  /** A scan's outcome: the resources and their tagged/untagged partition. */
  datatype ScanResult = ScanResult(
    kind: ResourceType, region: string, totalResources: int,
    taggedResources: seq<AWSResource>, untaggedResources: seq<AWSResource>, resources: seq<AWSResource>)
  {
    /** `tagging_compliance_rate`: the tagged share in percent, 0 for an empty scan. */
    function ComplianceRate(): real {
      Rate(|taggedResources|, totalResources)
    }

    /** The shape every scanner builds: a partition of `resources` by `is_tagged`. */
    predicate Valid() {
      totalResources == |resources|
      && taggedResources == Filter(resources, Tagged)
      && untaggedResources == Filter(resources, Untagged)
    }
  }

  /** `part / total * 100`, or 0 when `total` is 0. */
  function Rate(part: int, total: int): (r: real)
    ensures total == 0 ==> r == 0.0
    ensures total != 0 ==> r * (total as real) == (part as real) * 100.0
    ensures 0 <= part <= total ==> 0.0 <= r <= 100.0
  {
    if total == 0 then 0.0 else (part as real / total as real) * 100.0
  }

  /** The ScanResult every scanner returns for the resources it collected. */
  function Partition(kind: ResourceType, region: string, resources: seq<AWSResource>): (s: ScanResult)
    ensures s.Valid() && s.kind == kind && s.region == region && s.resources == resources
    ensures multiset(s.taggedResources) + multiset(s.untaggedResources) == multiset(resources)
    ensures |s.taggedResources| + |s.untaggedResources| == s.totalResources
    ensures forall i :: 0 <= i < |s.taggedResources| ==> s.taggedResources[i].IsTagged()
    ensures forall i :: 0 <= i < |s.untaggedResources| ==> !s.untaggedResources[i].IsTagged()
  {
    FilterPartition(resources, Tagged, Untagged);
    ScanResult(kind, region, |resources|, Filter(resources, Tagged), Filter(resources, Untagged), resources)
  }

  /** A valid scan's compliance rate is a percentage. */
  lemma ComplianceRateBounded(s: ScanResult)
    requires s.Valid()
    ensures 0.0 <= s.ComplianceRate() <= 100.0
    ensures s.totalResources == 0 ==> s.ComplianceRate() == 0.0
  {
  }

  /** `filter_untagged`: the untagged resources, in input order. */
  function FilterUntagged(resources: seq<AWSResource>): (r: seq<AWSResource>)
    ensures forall i :: 0 <= i < |r| ==> !r[i].IsTagged() && r[i] in resources
    ensures forall i :: 0 <= i < |resources| && !resources[i].IsTagged() ==> resources[i] in r
  {
    Filter(resources, Untagged)
  }

  /** Filtering the untagged resources again changes nothing, and filtering keeps the input order. */
  lemma FilterUntaggedProperties(a: seq<AWSResource>, b: seq<AWSResource>)
    ensures FilterUntagged(FilterUntagged(a)) == FilterUntagged(a)
    ensures FilterUntagged(a + b) == FilterUntagged(a) + FilterUntagged(b)
  {
    FilterIdempotent(a, Untagged);
    FilterAppend(a, b, Untagged);
  }

  /** The resource lacks at least one of the required keys. */
  predicate MissingRequired(r: AWSResource, required: seq<string>) {
    exists i :: 0 <= i < |required| && required[i] !in r.tags
  }

  /**
   * `filter_missing_required_tags` as written: `has_required_tags` is a property
   * that takes an argument, so reading it calls the getter without one and
   * raises TypeError as soon as there is a resource to look at.
   */
  function FilterMissingRequiredTagsAsWritten(resources: seq<AWSResource>, required: seq<string>): (r: Result<seq<AWSResource>, Error>)
    ensures r.Ok? <==> |resources| == 0
    ensures r.Ok? ==> r.value == []
  {
    if |resources| == 0 then Ok([])
    else Err(TypeError("AWSResource.has_required_tags() missing 1 required positional argument: 'required_tags'"))
  }

  /** The evidently intended filter: the resources lacking some required key, in input order. */
  function FilterMissingRequiredTags(resources: seq<AWSResource>, required: seq<string>): (r: seq<AWSResource>)
    ensures forall i :: 0 <= i < |r| ==> MissingRequired(r[i], required) && r[i] in resources
    ensures forall i :: 0 <= i < |resources| && MissingRequired(resources[i], required) ==> resources[i] in r
  {
    Filter(resources, (x: AWSResource) => MissingRequired(x, required))
  }

  /** The written filter fails on a one-resource list that the intended filter keeps. */
  lemma MissingRequiredTagsDiscrepancy()
    ensures var res := [AWSResource("i-1", EC2, "us-east-1", map[], "running", NoMetadata)];
      FilterMissingRequiredTagsAsWritten(res, ["Owner"]).Err?
      && FilterMissingRequiredTags(res, ["Owner"]) == res
  {
    var res := [AWSResource("i-1", EC2, "us-east-1", map[], "running", NoMetadata)];
    assert MissingRequired(res[0], ["Owner"]) by {
      assert ["Owner"][0] !in res[0].tags;
    }
  }
}
