/**
 * The S3 scanner: the bucket scan with its skip and abort rules, the tag read,
 * the metadata derivation, the read-merge-write `apply_tags`, and the security
 * posture analysis.
 */
module S3 {
  import opened Wrappers
  import opened Errors
  import opened Retry
  import opened Text
  import opened Resources
  import opened Seqs

  /**
   * The replies to the per-bucket configuration reads, in the order they are made.
   * encryption: the SSE algorithms of the configuration's rules, None without a `Rules` key;
   * versioning: the `Status` field; publicAccessBlock: the configuration, None when absent;
   * lifecycle: per rule, the storage classes of its transitions;
   * replication/logging: whether the reply has the configuration key.
   */
  datatype MetadataReplies = MetadataReplies(
    encryption: Result<Option<seq<string>>, Error>,
    versioning: Result<Option<string>, Error>,
    publicAccessBlock: Result<Option<PublicAccessBlock>, Error>,
    lifecycle: Result<seq<seq<Option<string>>>, Error>,
    replication: Result<bool, Error>,
    logging: Result<bool, Error>)

  /** A ClientError falls back to `default`; any other exception propagates. */
  function OrDefault<T>(r: Result<T, Error>, default: T): (o: Result<T, Error>)
    ensures r.Ok? ==> o == r
    ensures r.Err? && r.error.ClientError? ==> o == Ok(default)
    ensures r.Err? && !r.error.ClientError? ==> o == r
  {
    if r.Err? && r.error.ClientError? then Ok(default) else r
  }

  const AllAbsent := PublicAccessBlock(None, None, None, None)

  /** Some lifecycle rule has a transition to INTELLIGENT_TIERING. */
  predicate HasIntelligentTiering(rules: seq<seq<Option<string>>>) {
    exists i, j :: 0 <= i < |rules| && 0 <= j < |rules[i]| && rules[i][j] == Some("INTELLIGENT_TIERING")
  }

  /** Encryption: enabled iff the configuration has rules; the type is the first rule's algorithm. */
  function EncryptionPart(reply: Result<Option<seq<string>>, Error>): (r: Result<(bool, Option<string>), Error>)
    ensures reply.Ok? && reply.value.None? ==> r == Ok((false, None))
    ensures reply.Ok? && reply.value.Some? && |reply.value.value| > 0 ==> r == Ok((true, Some(reply.value.value[0])))
    ensures reply.Ok? && reply.value.Some? && |reply.value.value| == 0 ==> r.Err?
    ensures reply.Err? ==> r == if reply.error.ClientError? then Ok((false, None)) else Err(reply.error)
  {
    var rules :- OrDefault(reply, None);
    if rules.None? then Ok((false, None))
    else if |rules.value| == 0 then Err(OtherError("list index out of range"))
    else Ok((true, Some(rules.value[0])))
  }

  /** Versioning: the reply's `Status` ("Disabled" when absent) is recorded, and enabled iff it is "Enabled". */
  function VersioningPart(reply: Result<Option<string>, Error>): (r: Result<(bool, Option<string>), Error>)
    ensures reply.Ok? ==> r == Ok((reply.value.GetOr("Disabled") == "Enabled", Some(reply.value.GetOr("Disabled"))))
    ensures reply.Err? ==> r == if reply.error.ClientError? then Ok((false, None)) else Err(reply.error)
  {
    match reply
    case Ok(st) =>
      var status := st.GetOr("Disabled");
      Ok((status == "Enabled", Some(status)))
    case Err(e) => if e.ClientError? then Ok((false, None)) else Err(e)
  }

  /** Lifecycle: the number of rules, and whether any rule moves objects to INTELLIGENT_TIERING. */
  function LifecyclePart(reply: Result<seq<seq<Option<string>>>, Error>): (r: Result<(nat, bool), Error>)
    ensures reply.Ok? ==> r == Ok((|reply.value|, HasIntelligentTiering(reply.value)))
    ensures reply.Err? ==> r == if reply.error.ClientError? then Ok((0, false)) else Err(reply.error)
  {
    var rules :- OrDefault(reply, []);
    Ok((|rules|, HasIntelligentTiering(rules)))
  }

  /** `_get_bucket_metadata`: every read's ClientError leaves that part at its default. */
  function BucketMetadata(name: string, region: string, replies: MetadataReplies): (r: Result<Metadata, Error>)
    ensures r.Ok? <==> (EncryptionPart(replies.encryption).Ok? && VersioningPart(replies.versioning).Ok?
      && OrDefault(replies.publicAccessBlock, None).Ok? && LifecyclePart(replies.lifecycle).Ok?
      && OrDefault(replies.replication, false).Ok? && OrDefault(replies.logging, false).Ok?)
    ensures r.Ok? ==> r.value.S3Meta? && r.value.bucketName == name && r.value.bucketRegion == region
    ensures r.Ok? ==> (r.value.encryptionEnabled, r.value.encryptionType) == EncryptionPart(replies.encryption).value
    ensures r.Ok? ==> (r.value.versioningEnabled, r.value.versioningStatus) == VersioningPart(replies.versioning).value
    ensures r.Ok? ==> (r.value.lifecycleRules, r.value.intelligentTiering) == LifecyclePart(replies.lifecycle).value
    ensures r.Ok? ==> r.value.publicAccessBlock == OrDefault(replies.publicAccessBlock, None).value.GetOr(AllAbsent)
    ensures r.Ok? ==> r.value.replicationEnabled == OrDefault(replies.replication, false).value
    ensures r.Ok? ==> r.value.loggingEnabled == OrDefault(replies.logging, false).value
  {
    var enc :- EncryptionPart(replies.encryption);
    var ver :- VersioningPart(replies.versioning);
    var pab :- OrDefault(replies.publicAccessBlock, None);
    var life :- LifecyclePart(replies.lifecycle);
    var replication :- OrDefault(replies.replication, false);
    var logging :- OrDefault(replies.logging, false);
    Ok(S3Meta(name, region, enc.0, enc.1, ver.0, ver.1, pab.GetOr(AllAbsent), life.0, replication, logging, life.1))
  }

  /** One bucket of `list_buckets`, with the replies of the calls the scan makes for it. */
  datatype BucketDesc = BucketDesc(
    name: string, location: Result<Option<string>, Error>,
    tags: Result<seq<(string, string)>, Error>, replies: MetadataReplies)

  /** The bucket's region: its `LocationConstraint`, or us-east-1 when that is null or empty. */
  function BucketRegion(location: Option<string>): (r: string)
    ensures location.Some? && |location.value| > 0 ==> r == location.value
    ensures location.None? || |location.value| == 0 ==> r == "us-east-1"
  {
    if location.Some? && |location.value| > 0 then location.value else "us-east-1"
  }

  /** Location errors that only skip the bucket. */
  predicate Skippable(e: Error) {
    e.ClientError? && (e.code == "NoSuchBucket" || e.code == "AccessDenied")
  }

  /** One bucket of the scan: skipped (None), a resource, or an exception that ends the scan. */
  function ScanBucket(b: BucketDesc): (r: Result<Option<AWSResource>, Error>)
    ensures b.location.Err? ==> (r == if Skippable(b.location.error) then Ok(None) else Err(b.location.error))
    ensures r.Ok? && r.value.Some? ==> (b.location.Ok?
      && r.value.value.resourceId == b.name && r.value.value.kind == S3 && r.value.value.state == "active"
      && r.value.value.region == BucketRegion(b.location.value))
  {
    match b.location
    case Err(e) => if Skippable(e) then Ok(None) else Err(e)
    case Ok(loc) =>
      var region := BucketRegion(loc);
      var tags :- TagsOrEmpty(b.tags);
      var meta :- BucketMetadata(b.name, region, b.replies);
      Ok(Some(AWSResource(b.name, S3, region, tags, "active", meta)))
  }

  /** The bucket scans cleanly and is not skipped: it contributes a resource. */
  predicate Kept(b: BucketDesc) {
    ScanBucket(b).Ok? && ScanBucket(b).value.Some?
  }

  /** The number of kept buckets in the listing. */
  function KeptCount(bs: seq<BucketDesc>): nat {
    if |bs| == 0 then 0 else (if Kept(bs[0]) then 1 else 0) + KeptCount(bs[1..])
  }

  /**
   * The buckets' resources in listing order, or the first exception: the scan
   * succeeds iff no bucket raises, and then holds one resource per kept bucket
   * (`ScanBucketsInOrder` places each of them).
   */
  function ScanBuckets(bs: seq<BucketDesc>): (r: Result<seq<AWSResource>, Error>)
    ensures r.Ok? <==> forall i :: 0 <= i < |bs| ==> ScanBucket(bs[i]).Ok?
    ensures r.Ok? ==> |r.value| == KeptCount(bs) <= |bs|
  {
    if |bs| == 0 then Ok([])
    else
      assert forall i :: 1 <= i < |bs| ==> bs[1..][i - 1] == bs[i];
      var first :- ScanBucket(bs[0]);
      var rest :- ScanBuckets(bs[1..]);
      Ok((if first.Some? then [first.value] else []) + rest)
  }

  /**
   * A kept bucket's resource sits after those of the kept buckets listed before it.
   * With the count above, the result is exactly the kept buckets' resources, in listing order.
   */
  lemma {:induction false} ScanBucketsInOrder(bs: seq<BucketDesc>, i: nat)
    requires ScanBuckets(bs).Ok? && i < |bs| && Kept(bs[i])
    ensures KeptCount(bs[..i]) < |ScanBuckets(bs).value|
    ensures ScanBuckets(bs).value[KeptCount(bs[..i])] == ScanBucket(bs[i]).value.value
  {
    var rs := ScanBuckets(bs).value;
    var rest := ScanBuckets(bs[1..]).value;
    var head := if Kept(bs[0]) then [ScanBucket(bs[0]).value.value] else [];
    assert rs == head + rest;
    if i == 0 {
      assert bs[..0] == [];
    } else {
      var tail := bs[1..];
      assert tail[i - 1] == bs[i];
      assert bs[..i][0] == bs[0] && bs[..i][1..] == tail[..i - 1];
      var c := KeptCount(tail[..i - 1]);
      assert KeptCount(bs[..i]) == |head| + c;
      ScanBucketsInOrder(tail, i - 1);
      assert rs[|head| + c] == rest[c];
    }
  }

  function ScanError(e: Error): Error {
    ScanFailure("S3", e)
  }

  /** One attempt of `scan`; S3 is global, so the result's region is "global". */
  function ScanAttempt(listing: Result<seq<BucketDesc>, Error>): (r: Result<ScanResult, Error>)
    ensures listing.Err? ==> r == Err(ScanError(listing.error))
    ensures listing.Ok? ==> (r.Ok? <==> ScanBuckets(listing.value).Ok?)
    ensures listing.Ok? && ScanBuckets(listing.value).Err? ==> r == Err(ScanError(ScanBuckets(listing.value).error))
    ensures r.Ok? ==> (r.value.Valid() && r.value.kind == S3 && r.value.region == "global"
      && r.value.resources == ScanBuckets(listing.value).value)
  {
    match listing
    case Err(e) => Err(ScanError(e))
    case Ok(bs) =>
      match ScanBuckets(bs)
      case Err(e) => Err(ScanError(e))
      case Ok(rs) => Ok(Partition(S3, "global", rs))
  }

  /** A bucket that fails its location lookup with any other ClientError aborts the whole scan. */
  lemma {:induction false} OtherLocationErrorAborts(bs: seq<BucketDesc>, k: nat)
    requires k < |bs|
    requires forall i :: 0 <= i < k ==> ScanBucket(bs[i]).Ok?
    requires bs[k].location.Err? && bs[k].location.error.ClientError? && !Skippable(bs[k].location.error)
    ensures ScanBuckets(bs) == Err(bs[k].location.error)
    ensures ScanAttempt(Ok(bs)) == Err(ScanFailure("S3", bs[k].location.error))
    ensures ScanAttempt(Ok(bs)).error.ResourceScanError?
  {
    if k > 0 {
      OtherLocationErrorAborts(bs[1..], k - 1);
    }
  }

  /** A bucket skipped for NoSuchBucket or AccessDenied leaves the rest of the scan as it was. */
  lemma SkippedBucketContributesNothing(b: BucketDesc, bs: seq<BucketDesc>)
    requires b.location.Err? && Skippable(b.location.error)
    ensures ScanBuckets([b] + bs) == ScanBuckets(bs)
  {
    assert ([b] + bs)[0] == b && ([b] + bs)[1..] == bs;
    if ScanBuckets(bs).Ok? {
      assert [] + ScanBuckets(bs).value == ScanBuckets(bs).value;
    }
  }

  /** `scan` with its retry decorator, which has no predicate: every exception is retried. */
  function Scan(listings: nat -> Result<seq<BucketDesc>, Error>): (r: (Result<ScanResult, Error>, nat))
    ensures 1 <= r.1 <= MaxAttempts
    ensures r.0 == ScanAttempt(listings(r.1 - 1))
    ensures r.1 < MaxAttempts ==> r.0.Ok?
    ensures forall i :: 0 <= i < r.1 - 1 ==> ScanAttempt(listings(i)).Err?
  {
    var n := AttemptsUntilOk(ScanAttempt, listings);
    (ScanAttempt(listings(n - 1)), n)
  }

  /**
   * One attempt of `apply_tags`: read the current tags (`readError` is what that
   * read raised, if anything), merge the request over them, and write the whole
   * set back (`putError`). Returns the outcome and the bucket's tags afterwards.
   */
  function ApplyTagsAttempt(bucket: string, current: Tags, requested: Tags, readError: Option<Error>, putError: Option<Error>): (r: (Result<bool, Error>, Tags))
    ensures r.0.Ok? ==> r.0.value
    ensures r.0.Err? ==> r.1 == current
    ensures readError.None? && putError.None? ==> r == (Ok(true), current + requested)
    ensures readError.Some? && readError.value.ClientError? && putError.None? ==> r == (Ok(true), requested)
    ensures readError.None? && putError.Some? && putError.value.ClientError? ==>
      r.0 == Err(AWSError("Failed to apply tags to S3 bucket " + bucket + ": " + putError.value.Str()))
  {
    if readError.Some? && !readError.value.ClientError? then (Err(readError.value), current)
    else
      var existing := if readError.None? then current else map[];
      assert map[] + requested == requested;
      match putError
      case None => (Ok(true), existing + requested)
      case Some(e) =>
        if e.ClientError? then (Err(AWSError("Failed to apply tags to S3 bucket " + bucket + ": " + e.Str())), current)
        else (Err(e), current)
  }

  /** `apply_tags` with its retry decorator (every exception retried): the outcome, the attempts made and the bucket's tags afterwards. */
  function ApplyTags(bucket: string, current: Tags, requested: Tags, readErrors: nat -> Option<Error>, putErrors: nat -> Option<Error>): (r: (Result<bool, Error>, nat, Tags))
    ensures 1 <= r.1 <= MaxAttempts
    ensures r.0 == ApplyTagsAttempt(bucket, current, requested, readErrors(r.1 - 1), putErrors(r.1 - 1)).0
    ensures r.0.Err? ==> r.2 == current && r.1 == MaxAttempts
    ensures r.0.Ok? ==> r.0.value && r.2 == ApplyTagsAttempt(bucket, current, requested, readErrors(r.1 - 1), putErrors(r.1 - 1)).1
  {
    var attempt := (i: nat) => ApplyTagsAttempt(bucket, current, requested, readErrors(i), putErrors(i)).0;
    var (res, n) := WithRetry(attempt, OnAnyError);
    (res, n, if res.Ok? then ApplyTagsAttempt(bucket, current, requested, readErrors(n - 1), putErrors(n - 1)).1 else current)
  }

  /**
   * When the read of the existing tags fails with a ClientError, the merge base is
   * empty and the write replaces the bucket's tag set: every tag not in the request is lost.
   */
  lemma ReadFailureDropsUnrequestedTags(bucket: string, current: Tags, requested: Tags, readError: Error, k: string)
    requires readError.ClientError?
    requires k in current && k !in requested
    ensures ApplyTagsAttempt(bucket, current, requested, Some(readError), None).0 == Ok(true)
    ensures k !in ApplyTagsAttempt(bucket, current, requested, Some(readError), None).1
    ensures ApplyTagsAttempt(bucket, current, requested, Some(readError), None).1 != MergedWrite(current, requested, true)
  {
  }

  /** With a clean read, a successful write keeps every existing tag the request does not override. */
  lemma CleanWriteKeepsOtherTags(bucket: string, current: Tags, requested: Tags, k: string)
    requires k in current && k !in requested
    ensures ApplyTagsAttempt(bucket, current, requested, None, None).1[k] == current[k]
    ensures forall k' :: k' in requested ==> ApplyTagsAttempt(bucket, current, requested, None, None).1[k'] == requested[k']
  {
  }

  /** The public access block counts as configured only when all four settings are present and true. */
  predicate FullyBlocked(pab: PublicAccessBlock) {
    pab.blockPublicAcls == Some(true) && pab.blockPublicPolicy == Some(true)
    && pab.ignorePublicAcls == Some(true) && pab.restrictPublicBuckets == Some(true)
  }

  /** The points a finding of each severity costs the bucket's score. */
  function Deduction(s: Severity): nat {
    match s
    case Critical => 40
    case High => 30
    case Medium => 20
    case Low => 10
  }

  function Points(f: Finding): int {
    Deduction(f.severity)
  }

  const EncryptionFinding := Finding(High, "Bucket encryption is not enabled", "Enable default encryption with AES256 or AWS KMS")
  const VersioningFinding := Finding(Medium, "Versioning is not enabled", "Enable versioning for data protection and recovery")
  const PublicAccessFinding := Finding(Critical, "Public access block is not fully configured", "Enable all public access block settings to prevent data leaks")
  const LoggingFinding := Finding(Low, "Access logging is not enabled", "Enable access logging for audit and compliance")

  /** The result of `analyze_security_posture`. */
  datatype Posture = Posture(
    bucketName: string, securityScore: int, riskLevel: Severity, findings: seq<Finding>,
    encryption: bool, versioning: bool, publicAccessBlocked: bool, logging: bool)

  /** A finding whose lower-cased text mentions "public". */
  predicate MentionsPublic(f: Finding) {
    Contains(Lower(f.finding), "public")
  }

  /** The findings of a bucket's configuration, in the order they are checked. */
  function PostureFindings(m: Metadata): seq<Finding>
    requires m.S3Meta?
  {
    (if m.encryptionEnabled then [] else [EncryptionFinding])
    + (if m.versioningEnabled then [] else [VersioningFinding])
    + (if FullyBlocked(m.publicAccessBlock) then [] else [PublicAccessFinding])
    + (if m.loggingEnabled then [] else [LoggingFinding])
  }

  /** The score before clamping: 100 less the points of every failed check. */
  function RawScore(m: Metadata): int
    requires m.S3Meta?
  {
    100 - (if m.encryptionEnabled then 0 else 30) - (if m.versioningEnabled then 0 else 20)
    - (if FullyBlocked(m.publicAccessBlock) then 0 else 40) - (if m.loggingEnabled then 0 else 10)
  }

  /** The posture of a bucket's configuration; the risk level reads the unclamped score. */
  function PostureOf(name: string, m: Metadata): (p: Posture)
    requires m.S3Meta?
    ensures 0 <= p.securityScore <= 100
    ensures p.securityScore == 100 <==> |p.findings| == 0
    ensures p.riskLevel == RiskLevel(p.securityScore)
    ensures p.encryption == m.encryptionEnabled && p.versioning == m.versioningEnabled && p.logging == m.loggingEnabled
    ensures p.findings == PostureFindings(m)
  {
    var findings := PostureFindings(m);
    var raw := RawScore(m);
    Posture(name, if raw < 0 then 0 else raw, RiskLevel(raw), findings,
      m.encryptionEnabled, m.versioningEnabled,
      |findings| == 0 || !(exists i :: 0 <= i < |findings| && MentionsPublic(findings[i])),
      m.loggingEnabled)
  }

  /** `analyze_security_posture`: an exception from the metadata reads propagates. */
  function AnalyzeSecurityPosture(name: string, region: string, replies: MetadataReplies): (r: Result<Posture, Error>)
    ensures r.Ok? <==> BucketMetadata(name, region, replies).Ok?
    ensures r.Ok? ==> r.value == PostureOf(name, BucketMetadata(name, region, replies).value)
  {
    var m :- BucketMetadata(name, region, replies);
    Ok(PostureOf(name, m))
  }

  /** The score is exactly 100 less the severity points of the findings reported. */
  lemma ScoreIsDeductionTotal(name: string, m: Metadata)
    requires m.S3Meta?
    ensures PostureOf(name, m).securityScore == 100 - SumOf(PostureOf(name, m).findings, Points)
  {
    var d := Points;
    var a := if m.encryptionEnabled then [] else [EncryptionFinding];
    var b := if m.versioningEnabled then [] else [VersioningFinding];
    var c := if FullyBlocked(m.publicAccessBlock) then [] else [PublicAccessFinding];
    var e := if m.loggingEnabled then [] else [LoggingFinding];
    SumOfAppend(a, b, d);
    SumOfAppend(a + b, c, d);
    SumOfAppend(a + b + c, e, d);
  }

  /**
   * Exactly one finding per failed check: each check's own finding is reported iff
   * that check fails, and nothing else is reported.
   */
  lemma FindingsMatchFailedChecks(m: Metadata)
    requires m.S3Meta?
    ensures var f := PostureFindings(m);
      (EncryptionFinding in f <==> !m.encryptionEnabled)
      && (VersioningFinding in f <==> !m.versioningEnabled)
      && (PublicAccessFinding in f <==> !FullyBlocked(m.publicAccessBlock))
      && (LoggingFinding in f <==> !m.loggingEnabled)
    ensures var f := PostureFindings(m);
      forall i :: 0 <= i < |f| ==> f[i] in {EncryptionFinding, VersioningFinding, PublicAccessFinding, LoggingFinding}
    ensures |PostureFindings(m)|
      == (if m.encryptionEnabled then 0 else 1) + (if m.versioningEnabled then 0 else 1)
       + (if FullyBlocked(m.publicAccessBlock) then 0 else 1) + (if m.loggingEnabled then 0 else 1)
  {
  }

  /** Turning a check's feature on never lowers the score or raises the risk. */
  lemma EnablingFeatureNeverHurts(name: string, m: Metadata, m': Metadata)
    requires m.S3Meta? && m'.S3Meta?
    requires m.encryptionEnabled ==> m'.encryptionEnabled
    requires m.versioningEnabled ==> m'.versioningEnabled
    requires FullyBlocked(m.publicAccessBlock) ==> FullyBlocked(m'.publicAccessBlock)
    requires m.loggingEnabled ==> m'.loggingEnabled
    ensures PostureOf(name, m).securityScore <= PostureOf(name, m').securityScore
    ensures SeverityRank(PostureOf(name, m').riskLevel) <= SeverityRank(PostureOf(name, m).riskLevel)
  {
    RiskLevelMonotone(RawScore(m), RawScore(m'));
  }

  lemma PublicFindingMentionsPublic()
    ensures MentionsPublic(PublicAccessFinding)
  {
    var s := PublicAccessFinding.finding;
    var t := Lower(s);
    assert s[0] == 'P' && s[1] == 'u' && s[2] == 'b' && s[3] == 'l' && s[4] == 'i' && s[5] == 'c';
    assert t[0] == 'p' && t[1] == 'u' && t[2] == 'b' && t[3] == 'l' && t[4] == 'i' && t[5] == 'c';
    ContainsAt(t, "public", 0);
  }

  lemma VersioningFindingSilentOnPublic()
    ensures !MentionsPublic(VersioningFinding)
  {
    VersioningFindingHasNoP();
    NoLowerP(VersioningFinding.finding);
    MissingCharNotContained(Lower(VersioningFinding.finding), "public", 'p');
  }

  lemma LoggingFindingSilentOnPublic()
    ensures !MentionsPublic(LoggingFinding)
  {
    LoggingFindingHasNoP();
    NoLowerP(LoggingFinding.finding);
    MissingCharNotContained(Lower(LoggingFinding.finding), "public", 'p');
  }

  lemma VersioningFindingHasNoP()
    ensures 'p' !in VersioningFinding.finding && 'P' !in VersioningFinding.finding
  {
    var s := VersioningFinding.finding;
    forall i | 0 <= i < |s| ensures s[i] != 'p' && s[i] != 'P' {
    }
  }

  lemma LoggingFindingHasNoP()
    ensures 'p' !in LoggingFinding.finding && 'P' !in LoggingFinding.finding
  {
    var s := LoggingFinding.finding;
    forall i | 0 <= i < |s| ensures s[i] != 'p' && s[i] != 'P' {
    }
  }

  /** The encryption finding's only `p` is the one in "encryption", followed by `t`. */
  lemma EncryptionFindingLetters()
    ensures forall i :: 0 <= i < |EncryptionFinding.finding| && i != 12 ==>
      EncryptionFinding.finding[i] != 'p' && EncryptionFinding.finding[i] != 'P'
    ensures |EncryptionFinding.finding| > 13 && EncryptionFinding.finding[13] == 't'
  {
    var s := EncryptionFinding.finding;
    assert s[..12] == "Bucket encry";
    assert s[13..] == "tion is not enabled";
    forall i | 0 <= i < |s| && i != 12 ensures s[i] != 'p' && s[i] != 'P' {
      if i < 12 {
        assert s[i] == s[..12][i];
      } else {
        assert s[i] == s[13..][i - 13];
      }
    }
  }

  lemma EncryptionFindingSilentOnPublic()
    ensures !MentionsPublic(EncryptionFinding)
  {
    var s := EncryptionFinding.finding;
    var t := Lower(s);
    EncryptionFindingLetters();
    forall i | 0 <= i < |t| - 1 ensures !(t[i] == 'p' && t[i + 1] == 'u') {
      assert t[i] == LowerChar(s[i]) && t[i + 1] == LowerChar(s[i + 1]);
    }
    MissingPairNotContained(t, "public");
  }

  /** A string with neither `p` nor `P` has no `p` once lower-cased. */
  lemma NoLowerP(s: string)
    requires 'p' !in s && 'P' !in s
    ensures 'p' !in Lower(s)
  {
    forall i | 0 <= i < |s| ensures Lower(s)[i] != 'p' {
      assert s[i] in s;
    }
  }

  /** "Public access blocked" is reported exactly when all four block settings are on. */
  lemma PublicAccessBlockedIffFullyBlocked(name: string, m: Metadata)
    requires m.S3Meta?
    ensures PostureOf(name, m).publicAccessBlocked <==> FullyBlocked(m.publicAccessBlock)
  {
    var fs := PostureFindings(m);
    PublicFindingMentionsPublic();
    EncryptionFindingSilentOnPublic();
    VersioningFindingSilentOnPublic();
    LoggingFindingSilentOnPublic();
    if FullyBlocked(m.publicAccessBlock) {
      forall i | 0 <= i < |fs| ensures !MentionsPublic(fs[i]) {
        assert fs[i] in fs;
      }
    } else {
      assert PublicAccessFinding in fs;
    }
  }
}
