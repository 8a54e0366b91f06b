# TagSense tag-governance core in Dafny

TagSense scans AWS accounts for resources without tags, scores their security and cost posture, and tags them in bulk, with an LLM-backed chat assistant on top. This project models the deterministic core of that system and proves properties of the model:

- **the resource model** (`resources.dfy`): resource kinds, a resource with its tag map and kind-specific metadata, the tagged/untagged partition of a scan and its compliance rate, `filter_untagged` and `filter_missing_required_tags`;
- **the five per-kind scanners** (`ec2.dfy`, `lambda.dfy`, `s3.dfy`, `rds.dfy`, `ebs.dfy`), each over an already-fetched provider reply:
  - how a scan turns that reply into a scan result, with its skip, abort and retry rules;
  - the derived metadata;
  - the RDS security score and compliance issues, the S3 security posture, and the EBS cost, opportunities and value score;
  - what each kind's `apply_tags` does to the remote tags (`retry.dfy` holds the shared three-attempt retry decorator, `errors.dfy` the exception family);
- **the bulk tagging engine** (`bulk.dfy`, `scripts.dfy`):
  - one operation per resource, batches with fail-fast, and rollback of completed operations;
  - the reported counters, the scanner cache, and tagging by filter;
  - the bash and Terraform script renderings;
- **multi-region aggregation** (`multi_region.dfy`):
  - target-region selection, the per-region scan and the fold over region results;
  - the region summary, the top-offender ranking and the recommendation rules;
- **the supporting logic**:
  - configuration validation and environment parsing (`config.dfy`);
  - the conversation window (`conversation.dfy`) and the scan context tracker (`context_tracker.dfy`);
  - the two LLM backends' key checks, request building and error classification (`llm_base.dfy`, `anthropic.dfy`, `openai.dfy`);
  - the LLM factory's response cache and primary/fallback decision (`llm_factory.dfy`);
  - the legacy command-line auto-tagger (`auto_tagger.dfy`).

All network calls are inputs rather than calls:

- provider replies are datatypes, or sequences of pages;
- a call that may fail is an outcome oracle indexed by attempt or operation position;
- clocks are parameters.

Each scanner's `apply_tags` maps the resource's current tags to its tags afterwards, so its contract says what one write leaves behind. For the bulk engine, the account's tags are a map from (kind, region, id) to a tag map (`Bulk.Account`). The batches' calls and rollback's restore calls are applied to it in order, which lets `Bulk.RollbackRestoresOriginal` say what a run leaves on each resource. Compliance rates and percentages are exact `real` values. EBS costs are integer thousandths of a dollar. Python dicts whose order matters are association lists (`dicts.dfy`). `wrappers.dfy`, `text.dfy` and `seqs.dfy` hold Option/Result, Python string semantics and sequence helpers.

Where the documentation of the system and its code disagree, the model follows the code:

- The multi-region scan collects its futures by iterating the submission dict. The region results therefore come in target order, not completion order as the comment says. The totals are proved independent of the order anyway.
- `get_llm_factory` is documented to rebuild the factory when new configuration is given. The code returns the existing factory whatever the arguments, and the model does the same.

## Model

| member | source | states |
|---|---|---|
| Retry.WithRetry | tagger_core/ec2_scanner.py:71-76 | the decorator makes between one and three attempts, returns the last attempt's outcome, every earlier attempt failed with a retried exception, and stopping early on a failure means the predicate rejected it |
| Retry.NoRetryOnRejectedError | tagger_core/ec2_scanner.py:74-75 | a first failure the retry predicate rejects is re-raised after exactly one attempt |
| Retry.PersistentFailureExhausts | tagger_core/ec2_scanner.py:72-75 | a call that always fails with a retried exception is attempted exactly three times and re-raises the third exception |
| Retry.WithRetryOver | tagger_core/rds_scanner.py:42-46 | the retried scan of the RDS and EBS scanners makes one to three attempts of the same call, returns the last one, and retries only after failures |
| Retry.WithRetryOf | tagger_core/ec2_scanner.py:183-188 | the retried call (EC2 and Lambda `apply_tags`) makes one to three attempts, each on that attempt's input, returns the last one, and retries only after failures the predicate accepts |
| Retry.AttemptsUntilOk | tagger_core/s3_scanner.py:42-46 | with every exception retried (the S3 scan), one to three attempts are made, an attempt before the last one always failed, and stopping before the third means the last attempt succeeded |
| Errors.ScanFailure | tagger_core/s3_scanner.py:122-135 | a ClientError and an unexpected exception become ResourceScanError and a BotoCoreError becomes AWSError, each with the scanner's message prefix and the original message |
| Resources.ParseResourceType | tagger_core/resource_scanner.py:20-26 | a parsed kind has exactly the given value |
| Resources.KindValueRoundTrip | tagger_core/resource_scanner.py:20-26 | every kind's value parses back to that kind, and a value parses iff some kind has it |
| Resources.TagsOrEmpty | tagger_core/s3_scanner.py:137-156 | a successful tag read gives the pairs as a dict, a ClientError gives no tags, any other exception propagates |
| Resources.TagsFromPairsLastWins | tagger_core/ec2_scanner.py:153-156 | the last entry for a key decides its value in the built dict |
| Resources.TagsFromPairsKeys | tagger_core/ec2_scanner.py:153-156 | a key is in the built dict iff some entry carries it |
| Resources.RiskLevel | tagger_core/s3_scanner.py:386 | CRITICAL below 50, HIGH from 50 below 70, MEDIUM from 70 below 90, LOW from 90, each as an if-and-only-if |
| Resources.RiskLevelMonotone | tagger_core/s3_scanner.py:386 | a higher security score never yields a higher risk level |
| Resources.NewResource | tagger_core/resource_scanner.py:30-50 | the fields are stored as given and a missing metadata argument becomes the empty metadata |
| Resources.TaggedIffSomeKey | tagger_core/resource_scanner.py:52-55 | a resource is tagged iff its tag dict has some key |
| Resources.ToDict | tagger_core/resource_scanner.py:69-78 | the record carries every field, and its resource type string parses back to the resource's kind |
| Resources.ToDictInjective | tagger_core/resource_scanner.py:69-78 | two resources with the same serialised form are equal |
| Resources.Rate | tagger_core/resource_scanner.py:100-105 | the rate is 0 for a zero total, otherwise part times 100 over total, and lies in 0..100 for a part within the total |
| Resources.Partition | tagger_core/ec2_scanner.py:114-130 | the tagged and untagged lists are a permutation-preserving split of the resources by `is_tagged`, and their sizes add up to the total |
| Resources.ComplianceRateBounded | tagger_core/resource_scanner.py:100-105 | the compliance rate of a scan is a percentage, and 0 for an empty scan |
| Resources.FilterUntagged | tagger_core/resource_scanner.py:193-202 | the result holds exactly the untagged input resources |
| Resources.FilterUntaggedProperties | tagger_core/resource_scanner.py:193-202 | filtering is idempotent and distributes over concatenation, so input order is kept |
| Resources.FilterMissingRequiredTagsAsWritten | tagger_core/resource_scanner.py:204-218 | the filter as written succeeds only on an empty list, because reading the property calls its getter without the argument |
| Resources.FilterMissingRequiredTags | tagger_core/resource_scanner.py:57-67 | the result holds exactly the input resources lacking some required key |
| Resources.MissingRequiredTagsDiscrepancy | tagger_core/resource_scanner.py:204-218 | on one untagged instance the written filter raises TypeError while the intended filter returns that instance |
| Ec2.ParseInstance | tagger_core/ec2_scanner.py:141-181 | id, state, region and kind are copied, tags come from the Key/Value list, platform defaults to linux, and the metadata name is present iff a Name tag is, with its value |
| Ec2.MissingTagsIsUntagged | tagger_core/ec2_scanner.py:155 | an instance without a Tags field is untagged |
| Ec2.AllInstances | tagger_core/ec2_scanner.py:108-112 | every instance of every reservation is collected |
| Ec2.AllInstancesAt | tagger_core/ec2_scanner.py:108-112 | the j-th instance of reservation i sits right after all instances of the earlier reservations, so the collection keeps reply order and drops nothing |
| Ec2.AllInstancesCount | tagger_core/ec2_scanner.py:108-112 | the number collected is the sum of the reservations' instance counts |
| Seqs.NonEmpty | tagger_core/ec2_scanner.py:93-105 | a filter is sent iff the optional list is present and non-empty, and then it is that list; the RDS identifier (rds_scanner.py:64-68) and EBS volume-id (ebs_scanner.py:64-75) filters follow the same rule |
| Ec2.ScanAttempt | tagger_core/ec2_scanner.py:90-139 | a failed call re-raises its exception; a reply gives a valid EC2 partition of this region whose resources are the parsed instances in reply order |
| Ec2.Scan | tagger_core/ec2_scanner.py:71-139 | the scan makes one to three attempts with the same filter and returns the last one's result; every attempt before the last raised a ClientError, and an early failure is not a ClientError |
| Ec2.ScanOtherErrorNotRetried | tagger_core/ec2_scanner.py:71-76 | a first failure other than ClientError ends the scan after one attempt |
| Ec2.ApplyTagsAttempt | tagger_core/ec2_scanner.py:208-232 | success always answers True; a dry run's DryRunOperation ClientError counts as success; any other error is re-raised; the tags change to current merged with requested only on a real successful call |
| Ec2.ApplyTags | tagger_core/ec2_scanner.py:183-232 | the outcome is that of the last of one to three `create_tags` attempts, every earlier attempt raised a ClientError, and stopping early on an error means it was not a ClientError; on success the tags are merged unless it is a dry run, a failure leaves them unchanged and is one of the attempts' errors; a real call is a merging write that takes effect iff the call answers True |
| Ec2.CleanFirstCallMerges | tagger_core/ec2_scanner.py:209-222 | a clean first real `create_tags` call answers True after one attempt and leaves the requested tags merged over the current ones |
| Ec2.OtherErrorNotRetried | tagger_core/ec2_scanner.py:183-188 | an error that is not a ClientError is re-raised after one attempt and leaves the tags unchanged |
| Ec2.ApplyTagsMerges | tagger_core/ec2_scanner.py:210-217 | after a successful real call every requested pair is present and every other key keeps its value |
| Ec2.DryRunChangesNothing | tagger_core/ec2_scanner.py:213-217 | a dry run never changes the instance's tags |
| Ec2.UntaggedRunning | tagger_core/ec2_scanner.py:250-257 | the result is the untagged part of the running-only scan, and every returned instance is untagged |
| Ec2.RunningOnlyFilter | tagger_core/ec2_scanner.py:234-240 | the running-only scan sends exactly the filter with the single state running |
| Lambda.ParseFunction | tagger_core/lambda_scanner.py:145-191 | parsing succeeds iff the tag lookup succeeded or failed with a ClientError; the resource has the function's name, kind, region, state active and ARN, and the looked-up tags or none |
| Lambda.FailedTagLookupIsUntagged | tagger_core/lambda_scanner.py:158-163 | a function whose tag lookup failed with a ClientError is kept as untagged |
| Lambda.Scan | tagger_core/lambda_scanner.py:91-143 | the pagination loop computes the functional scan, and a success is a valid Lambda partition of the region |
| Lambda.CollectKeepsFiltered | tagger_core/lambda_scanner.py:104-111 | without failing tag lookups a page contributes exactly its functions passing the runtime filter, parsed, in page order |
| Lambda.WalkMarkerChain | tagger_core/lambda_scanner.py:98-116 | from any call on, each request carries the NextMarker of the page before it |
| Lambda.ScanFollowsMarkers | tagger_core/lambda_scanner.py:95-116 | the first call has no marker and each later call sends the previous page's NextMarker |
| Lambda.ScanWithRetry | tagger_core/lambda_scanner.py:72-77 | the scan makes one to three attempts and returns the last one's result; every attempt before the last raised a ClientError, and it stops early on a failure only for a non-ClientError |
| Lambda.ApplyTagsAttempt | tagger_core/lambda_scanner.py:199-235 | a dry run answers True without a call; a real call merges the tags or re-raises its error unchanged |
| Lambda.ApplyTags | tagger_core/lambda_scanner.py:193-235 | the outcome is that of the last of one to three attempts, every earlier attempt raised a ClientError, and stopping early on an error means it was not a ClientError; a dry run answers True after one attempt and changes nothing, a success merges the requested tags, a failure leaves the tags unchanged; a real call is a merging write that takes effect iff the call answers True |
| Lambda.CleanFirstCallMerges | tagger_core/lambda_scanner.py:219-229 | a clean first real `tag_resource` call answers True after one attempt and leaves the requested tags merged over the current ones |
| Lambda.OtherErrorNotRetried | tagger_core/lambda_scanner.py:193-198 | an error that is not a ClientError is re-raised after one attempt and leaves the tags unchanged |
| Lambda.FunctionsByTag | tagger_core/lambda_scanner.py:282-296 | the result holds exactly the scanned functions whose tag at the key equals the value, and fails iff the scan fails |
| Lambda.RemoveTags | tagger_core/lambda_scanner.py:237-262 | a success drops exactly the listed keys and keeps every other value; a failure is re-raised and changes nothing |
| Lambda.RemoveUndoesApply | tagger_core/lambda_scanner.py:199-262 | removing the keys that a successful apply wrote leaves the same tags as removing them from the original |
| Lambda.RuntimeScansKeep | tagger_core/lambda_scanner.py:264-280 | the Python-only and Node.js-only scans keep exactly the functions whose runtime is listed |
| S3.OrDefault | tagger_core/s3_scanner.py:183-240 | a configuration read's ClientError falls back to the default, any other exception propagates |
| S3.EncryptionPart | tagger_core/s3_scanner.py:183-192 | encryption is enabled with the first rule's algorithm iff the configuration has rules; a ClientError leaves it disabled; a missing first rule raises |
| S3.VersioningPart | tagger_core/s3_scanner.py:194-201 | the status defaults to Disabled and versioning is enabled iff it is Enabled; a ClientError leaves both unset |
| S3.LifecyclePart | tagger_core/s3_scanner.py:211-224 | the rule count and whether some transition goes to INTELLIGENT_TIERING; a ClientError leaves 0 and false |
| S3.BucketMetadata | tagger_core/s3_scanner.py:158-242 | the metadata succeeds iff every part does, and each field is its read's value or its default |
| S3.BucketRegion | tagger_core/s3_scanner.py:70 | the bucket's region is its location constraint, or us-east-1 when that is null or empty |
| S3.ScanBucket | tagger_core/s3_scanner.py:64-100 | a NoSuchBucket or AccessDenied location error skips the bucket, any other exception ends the scan, and a kept bucket is an active S3 resource of its region |
| S3.ScanBuckets | tagger_core/s3_scanner.py:63-100 | the scan succeeds iff no bucket raises an aborting error, and then keeps exactly one resource per kept bucket, at most one per listed bucket |
| S3.ScanBucketsInOrder | tagger_core/s3_scanner.py:63-100 | each kept bucket's resource sits at the position counted by the kept buckets before it, so the scan keeps listing order |
| S3.ScanAttempt | tagger_core/s3_scanner.py:56-135 | a listing failure, and after a good listing a bucket that aborts the scan, are reported through the scan's error translation; otherwise the attempt succeeds with a valid S3 partition, region global, whose resources are exactly the bucket scan's, in listing order |
| S3.OtherLocationErrorAborts | tagger_core/s3_scanner.py:94-100 | a location ClientError other than NoSuchBucket or AccessDenied aborts the whole scan with a ResourceScanError |
| S3.SkippedBucketContributesNothing | tagger_core/s3_scanner.py:96-98 | a skipped bucket leaves the rest of the scan as it was |
| S3.Scan | tagger_core/s3_scanner.py:42-46 | the scan retries every exception, making one to three attempts and returning the last one's result; every attempt before the last failed, and stopping early means success |
| S3.ApplyTagsAttempt | tagger_core/s3_scanner.py:249-288 | a clean read and write merge the request over the current tags; a failed read makes the request the whole tag set; a failed write raises AWSError and changes nothing |
| S3.ApplyTags | tagger_core/s3_scanner.py:244-288 | the decorator retries every exception; a failure uses all three attempts and leaves the tags unchanged |
| S3.ReadFailureDropsUnrequestedTags | tagger_core/s3_scanner.py:146-156 | when the tag read fails with a ClientError the write still succeeds and every existing key outside the request is lost, so the call is not a merging write |
| S3.CleanWriteKeepsOtherTags | tagger_core/s3_scanner.py:264-276 | with a clean read every existing key outside the request keeps its value and every requested key gets the requested value |
| S3.PostureOf | tagger_core/s3_scanner.py:338-394 | the score lies in 0..100, it is 100 iff there are no findings, the risk level follows the score, the compliant features mirror the metadata, and the findings are the list the four checks produce |
| S3.FindingsMatchFailedChecks | tagger_core/s3_scanner.py:338-385 | each check's finding (encryption, versioning, public access, logging) is reported iff that check fails, every finding is one of those four, and there is exactly one finding per failed check |
| S3.AnalyzeSecurityPosture | tagger_core/s3_scanner.py:327-336 | the analysis succeeds iff the metadata reads do, and is then the posture of that metadata |
| S3.ScoreIsDeductionTotal | tagger_core/s3_scanner.py:338-385 | the score is 100 less 30, 20, 40 and 10 points for the HIGH, MEDIUM, CRITICAL and LOW findings reported |
| S3.EnablingFeatureNeverHurts | tagger_core/s3_scanner.py:341-386 | turning a checked feature on never lowers the score nor raises the risk level |
| S3.PublicFindingMentionsPublic | tagger_core/s3_scanner.py:368-372 | the public access finding's lower-cased text contains public |
| S3.PublicAccessBlockedIffFullyBlocked | tagger_core/s3_scanner.py:359-391 | public access is reported blocked exactly when all four block settings are true, since no other finding mentions public |
| Rds.SettingsOf | tagger_core/rds_scanner.py:167-200 | each flag is set iff the description has it true, and an absent backup period or monitoring interval is 0 |
| Rds.SecurityScore | tagger_core/rds_scanner.py:208-239 | the score lies in 0..100, is 100 iff all five scored checks pass, and is at most 60 unencrypted and at most 70 when public |
| Rds.ScoreFloorNeverApplies | tagger_core/rds_scanner.py:217-239 | the unfloored sum of deductions is never negative, so the score equals it, and the score is 0 iff all five scored checks fail |
| Rds.SecurityScoreMonotone | tagger_core/rds_scanner.py:208-239 | improving any scored setting never lowers the score nor raises the risk level |
| Rds.ComplianceIssues | tagger_core/rds_scanner.py:241-316 | at most seven issues, and none only for an instance that passes every reported check |
| Rds.IssuesMatchFailedChecks | tagger_core/rds_scanner.py:250-316 | each of the seven issues is present iff its check fails, Multi-AZ only for an available instance |
| Rds.UnencryptedPresence | tagger_core/rds_scanner.py:252-259 | the encryption issue is present iff storage is unencrypted |
| Rds.PubliclyAccessiblePresence | tagger_core/rds_scanner.py:261-268 | the public access issue is present iff the instance is publicly accessible |
| Rds.ShortBackupRetentionPresence | tagger_core/rds_scanner.py:270-278 | the backup issue with the configured day count is present iff retention is under seven days |
| Rds.SingleAzPresence | tagger_core/rds_scanner.py:280-287 | the Multi-AZ issue is present iff Multi-AZ is off and the status is available |
| Rds.NoDeletionProtectionPresence | tagger_core/rds_scanner.py:289-296 | the deletion protection issue is present iff protection is off |
| Rds.NoEnhancedMonitoringPresence | tagger_core/rds_scanner.py:298-305 | the monitoring issue is present iff the monitoring interval is 0 |
| Rds.NoPerformanceInsightsPresence | tagger_core/rds_scanner.py:307-314 | the Performance Insights issue is present iff insights are off |
| Rds.CriticalRiskHasSevereIssue | tagger_core/rds_scanner.py:208-316 | a CRITICAL risk score always comes with a CRITICAL or HIGH issue |
| Rds.LowRiskHasNoSevereIssue | tagger_core/rds_scanner.py:208-316 | a LOW risk score never comes with a CRITICAL or HIGH issue |
| Rds.NoIssuesMeansLowRisk | tagger_core/rds_scanner.py:208-316 | an instance without issues scores at least 90, and below 100 iff Multi-AZ is off |
| Rds.MetadataOf | tagger_core/rds_scanner.py:158-206 | each settings field of the metadata is the description's value or its default, with the identifiers, the security score and the compliance issues of those settings |
| Rds.BareInstanceScore | tagger_core/rds_scanner.py:181-199 | a description with every field absent scores 30 with the encryption, backup, deletion, monitoring and insights issues |
| Rds.InstanceResource | tagger_core/rds_scanner.py:72-92 | a missing identifier or ARN raises KeyError, the tag read never fails on a ClientError, and a resource carries the identifier, region and the read tags |
| Rds.ItemResource | tagger_core/rds_scanner.py:70-71 | a failed page fetch propagates, an instance becomes its resource |
| Rds.ScanStreamShape | tagger_core/rds_scanner.py:62-103 | the scan succeeds iff every item scans cleanly, and then yields one resource per instance in order |
| Rds.ScanStreamFirstFailure | tagger_core/rds_scanner.py:62-103 | the first failing item decides the scan's exception |
| Rds.ScanAttempt | tagger_core/rds_scanner.py:59-138 | an attempt succeeds iff the stream does, giving a valid RDS partition of the region whose resources are the stream's, in stream order; a failure goes through the scan's error translation |
| Rds.Scan | tagger_core/rds_scanner.py:42-47 | one to three attempts with the same filter, every exception retried, returning the last one's result; every attempt before the last failed, so stopping early means success |
| Rds.ReportOf | tagger_core/rds_scanner.py:394-413 | the report carries the score, its risk level, the issues, one recommendation per issue in order, and enhanced monitoring iff the interval is positive |
| Rds.Recommendations | tagger_core/rds_scanner.py:412 | one recommendation per issue, in issue order |
| Rds.ComplianceReport | tagger_core/rds_scanner.py:380-417 | a failed describe is re-raised, an empty reply raises IndexError, otherwise the report of the first instance |
| Rds.NoRecommendationsMeansLowRisk | tagger_core/rds_scanner.py:397-413 | a report without recommendations has LOW risk |
| Rds.ApplyFailure | tagger_core/rds_scanner.py:375-378 | a ClientError becomes AWSError naming the instance, anything else propagates unchanged |
| Rds.Without | tagger_core/rds_scanner.py:356-360 | removal keeps exactly the keys outside the removed set, with their values |
| Rds.ClearThenAddMerges | tagger_core/rds_scanner.py:347-366 | whether the tag read saw the tags or nothing, removing then adding leaves the old tags merged with the request |
| Rds.ApplyTagsAttempt | tagger_core/rds_scanner.py:336-378 | a success leaves the old tags merged with the request, a missing instance raises AWSError, and a failure leaves either the old tags or none |
| Rds.AddFailureAfterRemovalErasesTags | tagger_core/rds_scanner.py:356-366 | an addition that fails after a successful removal leaves the instance with no tags, which is not what a merging write that failed leaves |
| Rds.ApplyTags | tagger_core/rds_scanner.py:318-323 | a success, on whichever attempt, leaves every requested pair in place, and a failure uses all three attempts |
| Rds.FirstAttemptMerges | tagger_core/rds_scanner.py:318-378 | a successful first attempt ends the call with the old tags merged with the request |
| Rds.RetryAfterPartialFailureLosesTags | tagger_core/rds_scanner.py:318-378 | a first attempt failing after the removal followed by a clean retry leaves only the requested tags |
| Ebs.RatePerGb | tagger_core/ebs_scanner.py:218-228 | the per-GB price lies between the sc1 and io1/io2 rates; gp2, an absent type and any type outside the price table are priced at the gp2 rate, and every other listed type has a rate of its own |
| Ebs.MonthlyCost | tagger_core/ebs_scanner.py:199-242 | the cost is at least size times the rate, and exactly that for a type other than io1, io2 or gp3 |
| Ebs.MonthlyCostMonotone | tagger_core/ebs_scanner.py:228-240 | the cost is never negative and never falls as the volume grows |
| Ebs.Opportunities | tagger_core/ebs_scanner.py:244-310 | the checks raise iff an io1/io2 volume has no IOPS value; otherwise each of the five opportunities is reported iff its condition holds |
| Ebs.OldImpliesOrphaned | tagger_core/ebs_scanner.py:256-308 | an old unattached volume is always reported as orphaned too |
| Ebs.Gp2AlwaysUpgradable | tagger_core/ebs_scanner.py:266-278 | a gp2 volume over 20 GB always shows a positive saving on gp3, so the upgrade is offered |
| Ebs.ValueScore | tagger_core/ebs_scanner.py:312-339 | the score lies in 0..100, is 100 iff the volume is attached, encrypted and not gp2, and is at most 50 when unattached |
| Ebs.ValueScoreMatchesOpportunities | tagger_core/ebs_scanner.py:244-339 | except for a small gp2 volume, the value score is 100 less the penalties of the reported opportunities |
| Ebs.PenaltiesForCost | tagger_core/ebs_scanner.py:244-339 | for a given cost with any offered upgrade, the value score is 100 less the penalties of the opportunities |
| Ebs.VolumeMetadata | tagger_core/ebs_scanner.py:145-197 | reading succeeds iff the size is present and an io1/io2 volume has IOPS; attachment fields come from the first attachment; cost and value score are the estimates |
| Ebs.VolumeResource | tagger_core/ebs_scanner.py:79-97 | a volume without id raises; otherwise the resource has the id, kind, region and the volume's tags |
| Ebs.UnreadableVolumeSkipped | tagger_core/ebs_scanner.py:106-108 | a volume that raises is skipped and the rest of the scan is unchanged |
| Ebs.ScanVolumes | tagger_core/ebs_scanner.py:68-108 | the scan fails iff some page fails, and otherwise yields exactly one resource per readable volume |
| Ebs.ScanVolumesShape | tagger_core/ebs_scanner.py:68-108 | the scan fails iff some page fails; it yields one resource per readable volume, at most one per volume, and each resource is a read volume |
| Ebs.SourceOf | tagger_core/ebs_scanner.py:68-108 | each resource of a successful scan is the resource read from some listed volume |
| Ebs.ScanVolumesInOrder | tagger_core/ebs_scanner.py:68-108 | each readable volume's resource sits at the position counted by the readable volumes before it, so the scan keeps listing order |
| Ebs.ScanAttempt | tagger_core/ebs_scanner.py:60-143 | an attempt succeeds iff no page fails, giving a valid EBS partition of the region whose resources are the readable volumes', in stream order; a failure goes through the scan's error translation |
| Ebs.Scan | tagger_core/ebs_scanner.py:43-48 | one to three attempts with the same filter, every exception retried, returning the last one's result; every attempt before the last failed, so stopping early means success |
| Ebs.ApplyTagsAttempt | tagger_core/ebs_scanner.py:346-379 | the call merges the request over the tags; a ClientError becomes AWSError and any error leaves the tags unchanged |
| Ebs.ApplyTags | tagger_core/ebs_scanner.py:341-379 | the call succeeds iff one of the three attempts' calls goes through, merging the tags; a failure uses all three attempts and changes nothing, so the call is a merging write |
| Ebs.FindOrphanedVolumes | tagger_core/ebs_scanner.py:381-394 | a failed scan propagates, and every returned volume is an unattached scanned volume |
| Ebs.OrphanedComplete | tagger_core/ebs_scanner.py:388-391 | every unattached scanned volume is returned |
| Bulk.SuccessRate | tagger_core/bulk_operations.py:62-67 | 0 for no operations, otherwise the successes times 100 over the total, and a percentage when successes do not exceed the total |
| Bulk.FailedOperations | tagger_core/bulk_operations.py:69-71 | the result holds exactly the failed operations |
| Bulk.SuccessfulOperations | tagger_core/bulk_operations.py:73-75 | the result holds exactly the completed operations |
| Bulk.StatusCountsTotal | tagger_core/bulk_operations.py:29-35 | the counts of the five statuses add up to the number of operations |
| Bulk.NewOperations | tagger_core/bulk_operations.py:158-167 | one pending operation per resource, in input order, carrying the resource's identity, the requested tags and a copy of its current tags |
| Bulk.Attempt | tagger_core/bulk_operations.py:193-221 | an operation is completed iff its call returned True, otherwise failed with "Tagging returned False" or the exception's message; nothing else changes |
| Bulk.RunBatch | tagger_core/bulk_operations.py:193-226 | the batch loop keeps the number of operations |
| Bulk.RunBatchShape | tagger_core/bulk_operations.py:193-226 | a batch changes only its own positions and only their status and error; each is attempted unless an earlier exception ended the batch under fail-fast |
| Bulk.RunBatchCounts | tagger_core/bulk_operations.py:209-221 | the batch's success and failure counters equal the operations it moved to completed and to failed |
| Bulk.RunBatches | tagger_core/bulk_operations.py:189-230 | the outer loop keeps the number of operations |
| Bulk.RunBatchesShape | tagger_core/bulk_operations.py:189-230 | the batches from a start leave earlier positions alone and change only statuses and errors |
| Bulk.BatchStart | tagger_core/bulk_operations.py:189-190 | the batch holding a position starts at a multiple of the batch size at or before it and ends after it |
| Bulk.BatchFailedIff | tagger_core/bulk_operations.py:229-230 | a batch holds a failed operation iff some attempt in it did not return True |
| Bulk.FirstFailure | tagger_core/bulk_operations.py:229-230 | the first position whose attempt did not return True, with every earlier one successful |
| Bulk.RunBatchesKeepsAt | tagger_core/bulk_operations.py:189-230 | a position before the first batch still to run is left as it was |
| Bulk.RunBatchesAt | tagger_core/bulk_operations.py:189-230 | an operation is attempted with its own outcome when it is reached, and otherwise left pending |
| Bulk.RunBatchesAtFirstBatch | tagger_core/bulk_operations.py:193-226 | in the first batch an operation is attempted unless an earlier exception in that batch ended it under fail-fast |
| Bulk.RunBatchesAtAfterFailure | tagger_core/bulk_operations.py:229-230 | under fail-fast, an operation after a batch holding a failure is neither reached nor changed |
| Bulk.RunBatchesExact | tagger_core/bulk_operations.py:189-230 | each operation is attempted with its own outcome when it is reached, and otherwise left pending |
| Bulk.ReachedInFirstBatch | tagger_core/bulk_operations.py:218-226 | in the first batch a position is reached iff there is no fail-fast or nothing before it in the batch raised |
| Bulk.NotReachedAfterFailure | tagger_core/bulk_operations.py:229-230 | under fail-fast no position after a batch with a failure is reached |
| Bulk.ReachedAfterSuccess | tagger_core/bulk_operations.py:229-230 | after a batch that did not stop the run, reaching a position is decided by the following batches alone |
| Bulk.RunBatchesCounts | tagger_core/bulk_operations.py:185-230 | over all batches the counters equal the operations moved to completed and to failed |
| Bulk.CountsMovedChain | tagger_core/bulk_operations.py:189-230 | two rounds of calls one after the other move the sums of their success and failure counts out of pending |
| Bulk.Rollback | tagger_core/bulk_operations.py:256-305 | rollback marks exactly the completed operations whose restore call does not raise as rolled back, made only for non-empty original tags |
| Bulk.RollbackCounts | tagger_core/bulk_operations.py:268-305 | the returned count is the number of operations moved from completed to rolled back |
| Bulk.WritesAt | tagger_core/bulk_operations.py:193-221 | in one round of calls on distinct resources, each resource holds its own operation's request merged over its tags when that call succeeded, and is otherwise untouched |
| Bulk.AttemptedNeverRolledBack | tagger_core/bulk_operations.py:189-230 | the batches leave each operation completed, failed or pending, never rolled back |
| Bulk.AccountAfterAt | tagger_core/bulk_operations.py:189-235 | after a real run a resource holds its request merged in iff its batch call succeeded, then its original tags merged back iff rollback was due, it was marked rolled back and it had original tags |
| Bulk.ReapplyOriginal | tagger_core/bulk_operations.py:286-298 | writing the original tags back over the merged request gives every original key its original value and keeps the keys only the request added; with no original tags the request stays as written |
| Bulk.RollbackRestoresOriginal | tagger_core/bulk_operations.py:189-305 | on an account that holds the scanned tags, a rolled-back resource has its original keys at their original values and keeps the keys only this run added (nothing is restored without original tags); a completed one holds the request merged over its tags; a failed or unattempted one is unchanged |
| Bulk.AllCompleted | tagger_core/bulk_operations.py:169-172 | every operation is marked completed and nothing else changes |
| Bulk.Attempted | tagger_core/bulk_operations.py:189-230 | the batch loop changes only statuses and errors |
| Bulk.BulkTag | tagger_core/bulk_operations.py:132-254 | it fails iff a real run has batch size 0; a dry run reports every operation completed; otherwise one operation per resource and at most one outcome each |
| Bulk.RealRun | tagger_core/bulk_operations.py:185-247 | a real run reports one operation per input, changing only statuses and errors, with successes plus failures within the total |
| Bulk.AttemptedCounts | tagger_core/bulk_operations.py:185-230 | before rollback the counters equal the operations completed and failed, and the rest are pending |
| Bulk.PreRollback | tagger_core/bulk_operations.py:158-230 | the state before rollback has one operation per resource |
| Bulk.ReportedCounters | tagger_core/bulk_operations.py:233-247 | failures are reported as counted, successes are zeroed when rollback was due, rollback runs only then and counts the operations it marked |
| Bulk.WithoutFailFastAllAttempted | tagger_core/bulk_operations.py:189-230 | without fail-fast every operation ends completed or failed by its own outcome |
| Bulk.PreRollbackExact | tagger_core/bulk_operations.py:189-230 | before rollback each operation is attempted when reached and otherwise pending |
| Bulk.RaiseEndsBatch | tagger_core/bulk_operations.py:218-226 | under fail-fast an exception leaves the rest of its batch pending |
| Bulk.FalseDoesNotEndBatch | tagger_core/bulk_operations.py:209-226 | under fail-fast a False return does not end its batch: the next operation is attempted |
| Bulk.ReachedNext | tagger_core/bulk_operations.py:193-226 | within a batch a reached position that does not raise lets the next one be reached |
| Bulk.FailedBatchEndsRun | tagger_core/bulk_operations.py:229-230 | under fail-fast no batch after one holding a failed operation is started |
| Bulk.NegativeBatchSizeDoesNothing | tagger_core/bulk_operations.py:189 | a negative batch size attempts nothing and reports no successes, failures or rollbacks |
| Bulk.MarkAllCompleted | tagger_core/bulk_operations.py:169-172 | the dry-run loop computes the all-completed operations |
| Bulk.ProcessBatch | tagger_core/bulk_operations.py:193-226 | the batch loop with its fail-fast break computes the functional batch and its counters |
| Bulk.ProcessBatches | tagger_core/bulk_operations.py:189-230 | the batch loop with its fail-fast break computes the functional run and its counters |
| Bulk.RollbackLoop | tagger_core/bulk_operations.py:268-305 | the rollback loop computes the functional rollback and its count |
| Bulk.BulkTagResources | tagger_core/bulk_operations.py:132-254 | the imperative engine computes the functional bulk run |
| Bulk.GetScanner | tagger_core/bulk_operations.py:99-130 | the scanner for a kind and region is cached on first use, an existing entry is returned, and other entries stay unchanged |
| Bulk.GetScannerIdempotent | tagger_core/bulk_operations.py:99-130 | asking again for the same kind and region returns the same scanner and leaves the cache alone |
| Bulk.TagByFilter | tagger_core/bulk_operations.py:307-349 | a failed scan propagates; otherwise the bulk run of the resources the filter accepts, in scan order, without fail-fast |
| Bulk.TagUntaggedTargetsUntagged | tagger_core/bulk_operations.py:351-375 | exactly the untagged scanned resources are bulk-tagged, in scan order, one operation each |
| Scripts.GenerateScript | tagger_core/bulk_operations.py:377-398 | bash, python and terraform are accepted and dispatch to their renderer; any other name raises ValueError naming the format |
| Scripts.OpLines | tagger_core/bulk_operations.py:411-438 | an EC2, Lambda or S3 operation contributes its command then an empty line, RDS and EBS only the empty line |
| Scripts.AllOpLines | tagger_core/bulk_operations.py:411-438 | the operations contribute one empty line each plus one command per supported operation |
| Scripts.BashLines | tagger_core/bulk_operations.py:400-441 | the script starts with the shebang and ends with the completion echo, with header, operation lines and footer counted exactly |
| Scripts.AllOpLineAt | tagger_core/bulk_operations.py:411-438 | each line of an operation sits, in list order, right after the lines of the operations before it |
| Scripts.BashOpLines | tagger_core/bulk_operations.py:400-441 | within the whole script each operation's command and empty line follow the header at the place its predecessors leave |
| Scripts.BashLineOfOp | tagger_core/bulk_operations.py:400-441 | the script's lines after the header are the operations' lines |
| Scripts.EscapeString | tagger_core/bulk_operations.py:429 | JSON string escaping yields printable ASCII only |
| Scripts.JsonObjectPrintable | tagger_core/bulk_operations.py:429 | the JSON tags argument of the Lambda command is printable ASCII whatever the tags hold, so it cannot break the command line |
| Scripts.Ec2Positions | tagger_core/bulk_operations.py:510-511 | the positions listed are exactly those of the EC2 operations, in increasing order |
| Scripts.TerraformBlocks | tagger_core/bulk_operations.py:505-520 | one block per EC2 operation, named by its position in the whole list |
| Scripts.TerraformNamesDistinct | tagger_core/bulk_operations.py:510-517 | distinct blocks get distinct resource names |
| MultiRegion.TargetRegions | tagger_core/multi_region_scanner.py:215-220 | all regions when asked for, else the given non-empty list, else the common regions; never empty |
| MultiRegion.CommonRegionsListed | tagger_core/multi_region_scanner.py:88-101 | every common region is one of all the regions |
| MultiRegion.ScanRegion | tagger_core/multi_region_scanner.py:139-194 | a region succeeds and contributes iff its scan did; a failure carries "Failed to scan" with the region and the exception's message |
| MultiRegion.Aggregate | tagger_core/multi_region_scanner.py:256-269 | the aggregation loop computes the five totals as sums over the region results |
| MultiRegion.CountsBalance | tagger_core/multi_region_scanner.py:262-269 | every region counts as exactly one of successful or failed, and the successful ones are those that contribute |
| MultiRegion.FailedRegionAddsNothing | tagger_core/multi_region_scanner.py:262-269 | a region that did not contribute adds one failure and nothing else |
| MultiRegion.AggregatePermutation | tagger_core/multi_region_scanner.py:230-269 | the totals do not depend on the order in which the region results arrive |
| MultiRegion.TotalsBalance | tagger_core/multi_region_scanner.py:262-269 | with partitioned scans the resource total is the tagged plus the untagged total, and the tagged total is within it |
| MultiRegion.ScanResults | tagger_core/multi_region_scanner.py:228-241 | one region result per target region, in target order |
| MultiRegion.Aggregated | tagger_core/multi_region_scanner.py:256-291 | the result carries the region results, the totals as sums and the compliance rate, 0 when nothing was found |
| MultiRegion.ScanAllRegions | tagger_core/multi_region_scanner.py:196-299 | every target region is scanned and gets its own result, one region's failure does not stop the others, and successes plus failures equal the regions scanned |
| MultiRegion.OverallRateBounded | tagger_core/multi_region_scanner.py:272-276 | with partitioned scans the overall compliance rate is a percentage and the totals balance |
| MultiRegion.AllUntaggedShape | tagger_core/multi_region_scanner.py:53-59 | the list has as many resources as the untagged total and is built region by region |
| MultiRegion.AllUntaggedMembers | tagger_core/multi_region_scanner.py:53-59 | a resource is listed iff some contributing region reported it untagged |
| MultiRegion.Entry | tagger_core/multi_region_scanner.py:61-78 | a region's entry holds counts iff it contributed, otherwise its error |
| MultiRegion.RegionSummaryLastWins | tagger_core/multi_region_scanner.py:61-78 | each scanned region has exactly one entry, describing its last result |
| MultiRegion.Insert | tagger_core/multi_region_scanner.py:419-427 | insertion keeps every item and adds exactly one |
| MultiRegion.SortByUntagged | tagger_core/multi_region_scanner.py:419-427 | the sort keeps every item |
| MultiRegion.InsertSorted | tagger_core/multi_region_scanner.py:419-427 | inserting into a sorted list keeps it sorted by descending untagged count |
| MultiRegion.InsertStable | tagger_core/multi_region_scanner.py:419-427 | insertion keeps items of equal count in their order |
| MultiRegion.SortByUntaggedCorrect | tagger_core/multi_region_scanner.py:419-427 | the sort orders by descending untagged count and keeps items of equal count in their original order, as Python's stable reverse sort does |
| MultiRegion.TopOffenders | tagger_core/multi_region_scanner.py:429-452 | at most five offenders, the first ones of the ranking |
| MultiRegion.TopOffendersRanked | tagger_core/multi_region_scanner.py:419-452 | the offenders are non-error entries in non-increasing order of untagged count |
| MultiRegion.TopOffendersComplete | tagger_core/multi_region_scanner.py:419-452 | every non-error entry left out has no more untagged resources than the fifth offender |
| MultiRegion.Recommendations | tagger_core/multi_region_scanner.py:456-505 | each rule's recommendation is present iff its condition holds, with the kind's advice for S3, RDS and EBS only |
| MultiRegion.EmptyScanIsLowCompliance | tagger_core/multi_region_scanner.py:478-482 | a scan that found nothing is always told its compliance is low |
| MultiRegion.MultiRegionReport | tagger_core/multi_region_scanner.py:404-454 | the report's breakdown is the region summary, its counts are the scan's, at most five top offenders ranked by untagged count, and each recommendation is present iff its rule's condition holds |
| Config.ToInt | config/config.py:107-109 | an integer setting parses iff it is an integer literal, to that integer; otherwise the ValueError Python raises names the text |
| Config.ToFloat | config/config.py:106 | the temperature setting parses iff it is a decimal literal, to that value; otherwise the ValueError names the text |
| Config.ParseProvider | config/config.py:18-21 | a provider value is accepted iff it is "openai" or "anthropic", and the provider's value is the text; otherwise a ValueError |
| Config.NewLLMConfig | config/config.py:64-79 | the LLM configuration is accepted unchanged iff the temperature is within 0.0 to 1.0 and the token limit is positive; each violation has its own message, temperature first |
| Config.ParseFallback | config/config.py:92-97 | "none" in any letter case means no fallback; otherwise the lower-cased text must name a provider |
| Config.LLMConfigFromEnv | config/config.py:82-110 | the configuration read from the environment carries the lower-cased backends, the keys as set, caching iff the setting is "true" in any case, and valid ranges; a bad primary backend is the error reported |
| Config.NewAWSConfig | config/config.py:133-142 | the AWS configuration is accepted unchanged iff retries are non-negative, the timeout positive and some region given; each violation has its own message |
| Config.ParseRegions | config/config.py:154-155 | one region per comma-separated piece, each stripped |
| Config.ParseRegionsShape | config/config.py:151-155 | the region list is never empty, its pieces rejoin to the setting and none holds a comma |
| Config.AWSConfigFromEnv | config/config.py:145-164 | the regions default to the default region and are split; the configuration fails only on the numeric settings |
| Config.LogLevelByName | config/config.py:24-30 | a lookup by name finds the level with that name, otherwise a KeyError naming it |
| Config.LogLevelByNameComplete | config/config.py:24-30 | every level is found by its own name |
| Config.NewAppConfig | config/config.py:182-190 | the application configuration is accepted unchanged iff the log format is "text" or "json" and the history length is at least 1 |
| Config.AppConfigFromEnv | config/config.py:193-209 | the level is the upper-cased setting's, the format is lower-cased, debug iff "true" in any case, the history length at least 1 |
| Config.TagSenseConfigFromEnv | config/config.py:223-233 | the whole configuration is read iff each of its three parts is, and the first part to fail gives the error |
| Config.ValidateWarnings | config/config.py:235-260 | one warning for a primary backend without key, then one for a fallback without key; none exactly when every backend in use has a key |
| Config.GetConfig | config/config.py:294-314 | the cached configuration is returned unless there is none or a reload is asked for; a fresh one is cached only when reading it succeeded |
| Config.GetConfigCached | config/config.py:294-314 | once cached, later calls without reload return the same configuration whatever the environment holds |
| Conversation.NewManager | memory/conversation_manager.py:75-83 | a new manager has no turns, the given limit and the session start it was created at |
| Conversation.ToDict | memory/conversation_manager.py:30-37 | a serialised turn always carries its metadata and the turn's fields |
| Conversation.FromDict | memory/conversation_manager.py:40-47 | a turn read back has the record's role, content and time, and empty metadata when the record has none |
| Conversation.FromDictToDict | memory/conversation_manager.py:30-47 | serialising a turn and reading it back gives the same turn |
| Conversation.ToDictFromDict | memory/conversation_manager.py:30-47 | reading a record and serialising it again gives the record back, with a missing metadata entry filled in as empty |
| Conversation.ExportTurns | memory/conversation_manager.py:178-188 | the export holds one record per turn, in order |
| Conversation.ImportTurns | memory/conversation_manager.py:190-198 | the import holds one turn per record, in order |
| Conversation.ImportExport | memory/conversation_manager.py:178-198 | importing an export restores the turns exactly |
| Conversation.AddTurn | memory/conversation_manager.py:85-117 | a turn is added iff its role is user, assistant or system, otherwise the ValueError naming the role; the limit and session start are kept |
| Conversation.TrimWithinLimit | memory/conversation_manager.py:109-111 | a history within the limit is not trimmed |
| Conversation.TrimKeepsSystemAndNewest | memory/conversation_manager.py:110-117 | trimming keeps every system turn, first, followed by the newest other turns in order; the count is the limit when the system turns are fewer, and Python's negative-slice rule decides the rest |
| Conversation.AddTurnKeepsNewest | memory/conversation_manager.py:85-117 | the turn just added survives trimming when it is a system turn or the system turns fit the limit |
| Conversation.TrimKeepsLast | memory/conversation_manager.py:109-117 | the last turn survives trimming when it is a system turn or the system turns fit the limit |
| Conversation.GetHistoryPartition | memory/conversation_manager.py:119-131 | with system turns the history is the whole list; without, it is exactly the non-system turns, and with the system ones they make up the list |
| Conversation.GetRecent | memory/conversation_manager.py:133-142 | an empty history gives no recent turns |
| Conversation.GetRecentShape | memory/conversation_manager.py:133-142 | the recent turns are a suffix: the last n for positive n, all for zero, all but the first -n for negative n |
| Conversation.FormatForLLM | memory/conversation_manager.py:162-171 | one role/content pair per turn, in order |
| Conversation.Clear | memory/conversation_manager.py:173-176 | clearing leaves a manager as new, with the same limit and a new session start |
| Conversation.AddTurnLength | memory/conversation_manager.py:85-117 | when the system turns stay below the limit, adding a turn grows the history by one up to the limit |
| ContextTracker.RecordScan | memory/context_tracker.py:88-136 | a recorded scan is appended after the earlier history, and its region and profile join the sets seen |
| ContextTracker.ScansOfType | memory/context_tracker.py:150-152 | the filtered scans are all of the asked type |
| ContextTracker.GetLatestScan | memory/context_tracker.py:138-154 | no scan before any is recorded; without a type filter, the last recorded scan |
| ContextTracker.LastOfTypeSpec | memory/context_tracker.py:150-152 | the latest scan of a type exists iff a scan of that type was recorded, and no later scan has that type |
| ContextTracker.LatestScanOfType | memory/context_tracker.py:138-154 | with a type filter the latest scan is the last scan of that type, present iff one was recorded |
| ContextTracker.EmptyConsistent | memory/context_tracker.py:81-86 | a new tracker's sets and inventory agree with its empty history |
| ContextTracker.RecordScanConsistent | memory/context_tracker.py:120-136 | after a recording, the sets are those of the history and each type's inventory entry holds the latest scan of that type, overwritten rather than accumulated |
| ContextTracker.RecordScanInventoryOrder | memory/context_tracker.py:125-136 | each type appears once in the inventory; a new type is added after the others, a known one keeps its place |
| ContextTracker.Clear | memory/context_tracker.py:244-249 | a cleared tracker has no history and is consistent |
| ContextTracker.GetStatistics | memory/context_tracker.py:211-242 | the short form iff nothing was scanned; otherwise the scan count, the sets, the inventory with its types in order, the resource and untagged totals summed over every inventory entry, and a compliance percentage that is the tagged share of the totals, 0 when the total is 0 |
| ContextTracker.KeysOf | memory/context_tracker.py:232 | the inventory's types in order |
| ContextTracker.SaneTotals | memory/context_tracker.py:224-225 | when every entry has between none and all of its resources untagged, so do the sums |
| ContextTracker.StatisticsPctBounded | memory/context_tracker.py:233-240 | the overall compliance percentage lies between 0 and 100 for sane entries |
| ContextTracker.SampleIds | memory/context_tracker.py:203-204 | at most five ids are shown, the first ones |
| ContextTracker.SampleLine | memory/context_tracker.py:203-207 | the sample line is empty iff the scan has no ids; it lists all ids when there are at most five, else the first five followed by "(and N more)" with N the rest |
| ContextTracker.SampleAccounts | memory/context_tracker.py:203-207 | the shown ids and the ones counted as more make up every id, and the remark appears iff there are more than five |
| ContextTracker.GetContextForPrompt | memory/context_tracker.py:184-209 | empty before any scan; otherwise a block about the latest scan opening with its region and type and closing with its sample line |
| LlmBase.SimpleMessages | llm_backends/anthropic_backend.py:249-261 | a system message only for a non-empty system prompt, then exactly one user message |
| LlmBase.SimpleMessagesCarryPrompt | llm_backends/openai_backend.py:224-238 | the user message ends with the prompt, is the prompt itself without context, and opens with the context block otherwise |
| LlmBase.ClassifyFailure | llm_backends/openai_backend.py:176-202 | the SDK's rate-limit exception becomes a rate-limit error, its other exceptions an authentication, unknown-model or generic error by message, anything else a generic error; all but the unknown-model error quote the original message |
| LlmBase.TranslatedNeverRetried | llm_backends/anthropic_backend.py:121-227 | since every exception leaving generate is already translated, the retry decorator never retries: exactly one attempt |
| LlmBase.Pairs | llm_backends/openai_backend.py:141-145 | one role/content pair per message, in order |
| LlmBase.ResolveKey | llm_backends/anthropic_backend.py:90-92 | an explicit key is used as given; without one, the environment's key if it is set, for either backend's variable (openai_backend.py:62-92 does the same) |
| LlmBase.ValidateKey | llm_backends/anthropic_backend.py:104-119 | a key is accepted iff it is present, non-empty and starts with the backend's prefix ("sk-ant-" here, "sk-" in openai_backend.py:94-109); a missing key and a malformed one have their own messages |
| AnthropicBackend.New | llm_backends/anthropic_backend.py:67-102 | without the library the constructor fails with its message; otherwise it succeeds iff the resolved key is valid, storing the settings and the key |
| AnthropicBackend.ConstructedIsAvailable | llm_backends/anthropic_backend.py:275-284 | every backend that could be constructed reports itself available |
| AnthropicBackend.LastSystemAppend | llm_backends/anthropic_backend.py:156-158 | the last system prompt of two lists run together is the second's if it has one, else the first's |
| AnthropicBackend.SplitSystemSpec | llm_backends/anthropic_backend.py:151-165 | the message loop ends with the last system message's content and every other message forwarded, in order |
| AnthropicBackend.BuildRequestSpec | llm_backends/anthropic_backend.py:151-182 | the request forwards exactly the non-system messages in order and carries the last system content as the system prompt iff that is non-empty |
| AnthropicBackend.UsageOf | llm_backends/anthropic_backend.py:184-191 | usage is reported iff the reply has it, with the total the sum of input and output tokens |
| AnthropicBackend.Attempt | llm_backends/anthropic_backend.py:127-227 | every failure of one attempt leaves as a translated error |
| AnthropicBackend.Generate | llm_backends/anthropic_backend.py:121-227 | generate succeeds iff the first SDK call returns some content, giving its first text, model and usage uncached; every failure is an LLM error classified from the first call's exception |
| AnthropicBackend.GenerateSimple | llm_backends/anthropic_backend.py:229-265 | generate_simple succeeds iff generate on its message list does, with the first text as answer |
| AnthropicBackend.GetProvider | llm_backends/anthropic_backend.py:267-273 | the provider is "anthropic" |
| OpenAIBackend.AnthropicKeyAccepted | llm_backends/openai_backend.py:106-109 | the prefix check is loose: an Anthropic-style key passes it |
| OpenAIBackend.New | llm_backends/openai_backend.py:62-92 | the constructor succeeds iff the resolved key is valid, storing the settings and the key |
| OpenAIBackend.ConstructedIsAvailable | llm_backends/openai_backend.py:250-256 | every backend that could be constructed reports itself available |
| OpenAIBackend.BuildRequest | llm_backends/openai_backend.py:139-151 | the request carries the model, temperature and token limit, and every message in order |
| OpenAIBackend.UsageOf | llm_backends/openai_backend.py:159-166 | usage is reported iff the reply has it, with the three counts as given |
| OpenAIBackend.Attempt | llm_backends/openai_backend.py:117-202 | every failure of one attempt leaves as a translated error |
| OpenAIBackend.Generate | llm_backends/openai_backend.py:111-202 | generate succeeds iff the first SDK call returns some choice, giving its first text, model and usage uncached; every failure is an LLM error classified from the first call's exception |
| OpenAIBackend.GenerateSimple | llm_backends/openai_backend.py:204-240 | generate_simple succeeds iff generate on its message list does, with the first text as answer |
| OpenAIBackend.GetProvider | llm_backends/openai_backend.py:242-248 | the provider is "openai" |
| OpenAIBackend.ListModels | llm_backends/openai_backend.py:258-273 | a failing listing gives the static model list; otherwise exactly the listed ids that contain "gpt" |
| OpenAIBackend.ListModelsStable | llm_backends/openai_backend.py:258-270 | filtering the listing again changes nothing |
| LlmFactory.CreateBackend | llm_backends/factory.py:180-202 | a backend is built for "openai" or "anthropic" in any letter case, succeeding iff that backend's constructor does; any other name is a ValueError |
| LlmFactory.CreateBackendCaseInsensitive | llm_backends/factory.py:190-202 | creating by a name and by its lower-cased form give the same outcome |
| LlmFactory.BackendGenerate | llm_backends/factory.py:239-241 | a backend's answer is fresh and names its provider; its failures are LLM errors |
| LlmFactory.CacheGet | llm_backends/factory.py:70-94 | a lookup answers iff the entry for the request is fresh, giving the stored content; a miss deletes the entry |
| LlmFactory.CacheSet | llm_backends/factory.py:96-107 | storing adds the request's entry and leaves which other entries exist unchanged |
| LlmFactory.CacheClear | llm_backends/factory.py:109-112 | after clearing nothing is fresh |
| LlmFactory.CacheSetGet | llm_backends/factory.py:70-107 | a stored answer is served back until the time-to-live has passed, and not after |
| LlmFactory.CacheSetOthers | llm_backends/factory.py:70-107 | storing under one request leaves what every other request is served unchanged |
| LlmFactory.CacheKeyIsContent | llm_backends/factory.py:48-68 | requests with the same roles, contents, model and temperature share their cache entry |
| LlmFactory.NewFactory | llm_backends/factory.py:140-178 | a factory is built iff its primary backend is; a fallback that cannot be built is dropped, and the cache is empty with the given time-to-live iff enabled |
| LlmFactory.Generate | llm_backends/factory.py:204-288 | no backend is called iff the cache holds a fresh answer, which is returned as cached; otherwise the primary's answer, the fallback tried only when the primary failed with neither a rate-limit nor an authentication error and a fallback is asked for and present, and both errors reported together when both fail |
| LlmFactory.GenerateCachesAnswer | llm_backends/factory.py:243-277 | a successful fresh answer is cached under the model and temperature of the backend that gave it |
| LlmFactory.GenerateThenHit | llm_backends/factory.py:223-252 | asking again within the time-to-live after the primary gave a non-empty answer is served from the cache without calling any backend |
| LlmFactory.GenerateSimple | llm_backends/factory.py:290-325 | generate_simple succeeds iff generate on its message list does, with the answer's content |
| LlmFactory.ClearCache | llm_backends/factory.py:335-342 | clearing keeps the cache setting and leaves no request served from the cache |
| LlmFactory.ResolveFallback | llm_backends/factory.py:369-372 | an explicit fallback is used as given; otherwise the environment's, unless it says "none" in any letter case |
| LlmFactory.GetLlmFactory | llm_backends/factory.py:345-390 | the process-wide factory is built from the resolved settings on the first call and returned unchanged afterwards, whatever the arguments |
| LlmFactory.FactoryIsSingleton | llm_backends/factory.py:379-390 | once a factory exists, every later call returns that same factory |
| AutoTagger.Infos | tagger_core/auto_tagger.py:19-22 | one id/state record per instance, in order |
| AutoTagger.InfosAppend | tagger_core/auto_tagger.py:14-22 | the records of two instance lists run together are the records of each, in order |
| AutoTagger.UntaggedOfSpec | tagger_core/auto_tagger.py:15-22 | one reservation's listing is exactly its instances without tags, reduced to id and state |
| AutoTagger.FindUntaggedSpec | tagger_core/auto_tagger.py:10-24 | the listing is exactly the instances without tags over all reservations in order, reduced to id and state |
| AutoTagger.ParseTag | tagger_core/auto_tagger.py:46-51 | an absent or empty option gives no key and value; a non-empty one is rejected iff it has no '=', with the format message |
| AutoTagger.ParseTagRoundTrip | tagger_core/auto_tagger.py:49-51 | the split is at the first '=': key, '=' and value rebuild the option, and the key holds no '=' |
| AutoTagger.FormatThenParse | tagger_core/auto_tagger.py:49-51 | a key without '=' and any value come back out of KEY=VALUE |
| AutoTagger.ApplyTagPayload | tagger_core/auto_tagger.py:26-30 | a tagging call names one instance and carries one key/value pair |
| AutoTagger.MainAsWritten | tagger_core/auto_tagger.py:32-86 | a malformed tag is the error; a run completes only when nothing is untagged, and then tags nothing |
| AutoTagger.MainAsWrittenFailsOnUntagged | tagger_core/auto_tagger.py:58-68 | a well-formed run that finds an untagged instance always stops with an AttributeError |
| AutoTagger.ApplyAll | tagger_core/auto_tagger.py:70-73 | the loop completes iff no call fails, with one call per instance in order; otherwise it stops with the first failing call's error |
| AutoTagger.Main | tagger_core/auto_tagger.py:32-86 | a malformed tag is the error; a completed run records the region and exactly the untagged listing |
| AutoTagger.MainSpec | tagger_core/auto_tagger.py:58-73 | without the flag or with nothing to tag no call is made; with the flag a key and value are required and a completed run made one call per untagged instance, in order, each with that pair |
| AutoTagger.MainTagsAll | tagger_core/auto_tagger.py:45-73 | when no call fails, a run with the flag and a full tag completes |

## Left out

- **boto3 and botocore calls** (sessions, clients, paginators, CloudWatch): they are not modelled as calls. Their replies are input datatypes and their failures are outcome oracles, because the model has no network.
- **Scheduling.** The thread pool of `scan_all_regions` and the asyncio scheduling of `scan_all_regions_async` are dropped. The async variant runs the same per-region scans and aggregation, so `MultiRegion.ScanAllRegions` stands for both.
- Ec2.ParseInstance: the instance's `InstanceId`, its `State.Name` and every tag's `Key` and `Value` are mandatory fields of the reply datatype. The code indexes them directly (tagger_core/ec2_scanner.py:150-151, 156), so a reply without one raises KeyError, which is not a ClientError and ends the scan unretried. The model does not represent such replies.
- Lambda.ParseFunction: `FunctionName` and `FunctionArn` are mandatory fields of the reply datatype. The code indexes them directly (tagger_core/lambda_scanner.py:154-155), so a reply without one raises KeyError and ends the scan unretried. The model does not represent such replies.
- **Elapsed-time figures.** The `time.time()` durations in results and log lines are dropped.
- **tenacity waits.** The exponential waits between attempts are not modelled; only the attempt count and the retry predicate are.
- **Copied metadata fields.** The `Metadata` record omits fields that the scanners copy unchanged from the provider reply into a resource's `metadata` dict and that nothing in the core reads again:
  - EC2: `launch_time` (tagger_core/ec2_scanner.py:161);
  - Lambda: `code_size`, `last_modified` and `role` (tagger_core/lambda_scanner.py:170-174);
  - RDS (tagger_core/rds_scanner.py:168-199): `db_instance_class`, `engine_version`, `allocated_storage`, `storage_type`, `iops`, `master_username`, `db_name`, `endpoint`, `port`, `availability_zone`, `kms_key_id`, `preferred_backup_window`, `preferred_maintenance_window`, `latest_restorable_time`, `auto_minor_version_upgrade`, `vpc_security_groups`, `db_subnet_group`, `parameter_group`, `option_group`, `enhanced_monitoring_arn`, `iam_database_authentication` and `instance_create_time`;
  - EBS: `state`, `kms_key_id`, `snapshot_id`, `availability_zone`, `create_time` and `multi_attach_enabled` (tagger_core/ebs_scanner.py:169-180). The creation time is still used, through the volume's age;
  - S3: `creation_date`, which the code always sets to None (tagger_core/s3_scanner.py:171).
- **Clock readings** are parameters: EBS volume age, conversation and scan timestamps, and the cache's current time. A single `now` serves both the cache lookup and the cache store of one `generate` call, although the code reads the clock twice.
- **Timestamp rendering.** The ISO-8601 rendering of timestamps is not modelled.
- **Float presentation** is not modelled: `round(..., 2)`, the `.1f` and `.2f` renderings and the "$X/month" cost strings. Rates are exact reals and costs are integer thousandths of a dollar.
- **EBS helpers.** `calculate_potential_savings` parses the "$X/month" cost strings back to floats, and `get_bucket_size_estimate` reads CloudWatch; both are left out.
- **The md5 and JSON cache key.** The response cache is keyed by the request content itself (roles, contents, model, temperature). The key therefore has no hash collisions, which the digest would in principle have.
- **JSON text** is left out: `json.dumps` in the script generator and in the JSON exports, and `import_json` parsing. The turn lists they carry are modelled (`Conversation.ExportTurns`, `Conversation.ImportTurns`).
- **Presentation-only text** is left out: `get_summary`, `get_context_summary`, `TagSenseConfig.summary` and the `__repr__`/`__str__` methods.
- **Output of the command-line tools.** The auto-tagger's console output, its JSON log file and its UTC timestamp are left out, and so is the Python script text of `generate_tagging_script`.
- **Other parts of the repository**, outside the tag-governance core: `app.py` (the Streamlit user interface), `tagger_core/logging_config.py`, `tagger_core/llm_client.py` and `prompts/system_prompts.py`.
- **Trivial accessors.** `get_active_backend` and `reset_config` are not modelled separately: one returns the factory's primary backend, the other empties the configuration cache.
- **Extra `generate` arguments.** The `**kwargs` passed through to a backend's `generate` are ignored.
- **String semantics.** Letter case is ASCII only in `lower`/`upper`. `strip()` removes ASCII whitespace only (space, tab, newline, carriage return, vertical tab, form feed), where Python also strips `\x1c`–`\x1f`, `\x85`, `\xa0` and the other Unicode spaces. `int()` and `float()` accept plain decimal notation only: no underscores, exponents, `inf` or `nan`.
- **Exception text.** `str()` of a botocore ClientError is carried as one message string rather than rendered from the error response.
- **Mismatches in the code, modelled as written:**
  - The EC2 scan makes one unpaginated `describe_instances` call, so only its first page is seen.
  - The bulk engine passes a Lambda function's name to `LambdaScanner.apply_tags`, which expects an ARN. The model treats the resource id as whatever the scanner's tagging call receives.
  - The S3, RDS and EBS scanners import `ResourceScanError` from `tagger_core/exceptions.py`, which does not define it. The model treats it as one more exception kind.
- **Unreachable handlers**, which the model omits; for each the code shows the exception cannot arrive:
  - The RDS scan's per-instance `except ClientError: continue`: the tag fetch inside it catches its own ClientError.
  - The multi-region loop's `except` around `future.result()`: `_scan_region` catches every exception.
  - The `ValueError` of `_get_scanner_class`: every resource kind has a scanner.
  - The factory's path for a non-LLM error from the primary backend: both backends translate every exception into the LLM error family (`LlmBase.ClassifyFailure`).
- **Lambda.FunctionsByTag** is stated over one scan attempt's listing, and the function listing is assumed finite.
- **Scripts.GenerateScript** does not prove that the bash script splits back into the lines it was built from. Each operation's lines are placed by `Scripts.BashOpLines`, and JSON escaping is proved printable.
- **Config.NewLLMConfig** leaves out the `, got <value>` part of the temperature message, because Python's float rendering is not modelled. The token-limit message is exact.
- **ContextTracker.GetContextForPrompt** takes the `.1f` percentage rendering as a parameter. Its contract fixes the opening lines (region and type) and the closing sample line, not the three figure lines between them.
- **Bulk.RollbackRestoresOriginal** covers EC2, EBS and Lambda resources only. Their `apply_tags` is a merging write that takes effect iff the call answers True (`Resources.MergedWrite`). S3 and RDS writes are not merging: `S3.ReadFailureDropsUnrequestedTags` and `Rds.AddFailureAfterRemovalErasesTags` show calls that lose tags, so a run over them can leave other tags behind. It also assumes each resource appears once in the input and the account still holds the tags the scan read. The outcome oracles are taken to agree with the writes: an outcome of True means that resource's write took effect.
- **MultiRegion.Recommendations** produces one constructor per rule, with the resource kind where the advice depends on it, rather than the recommendation prose. Its contract fixes which rules fire, not the wording of the text.
- **Config.ToFloat** accepts decimal notation only, as noted above for `float()`.

## Findings

| source | as written | input that shows it | evidently intended | confidence | as-written member | corrected member |
|---|---|---|---|---|---|---|
| tagger_core/resource_scanner.py:57-67 | `has_required_tags` is a `@property` that takes an argument, so `r.has_required_tags(required_tags)` in `filter_missing_required_tags` raises TypeError | any non-empty resource list, e.g. one EC2 instance without tags and required key "Owner" (`Resources.MissingRequiredTagsDiscrepancy`) | a plain method: keep exactly the resources lacking some required key | not executed | Resources.FilterMissingRequiredTagsAsWritten | Resources.FilterMissingRequiredTags |
| tagger_core/auto_tagger.py:66-68 | `args.apply-tag` parses as `args.apply - tag`; `args` has no `apply`, so the branch raises AttributeError | any run that finds an untagged instance, with or without `--apply-tag` (`AutoTagger.MainAsWrittenFailsOnUntagged`) | `args.apply_tag`: tag only when the flag is given, and then require a key and a value | not executed | AutoTagger.MainAsWritten | AutoTagger.Main |
