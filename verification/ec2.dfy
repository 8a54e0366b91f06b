/**
 * The EC2 scanner: parsing `describe_instances` output into resources, the state
 * filter, the scan's tagged/untagged partition, and `create_tags` with dry-run.
 */
module Ec2 {
  import opened Wrappers
  import opened Errors
  import opened Retry
  import opened Resources
  import opened Seqs

  /** One instance of a `describe_instances` reply; an absent field is None. */
  datatype InstanceDesc = InstanceDesc(
    instanceId: string, stateName: string, tags: Option<seq<(string, string)>>,
    instanceType: Option<string>, availabilityZone: Option<string>, vpcId: Option<string>,
    subnetId: Option<string>, privateIp: Option<string>, publicIp: Option<string>, platform: Option<string>)

  datatype Reservation = Reservation(instances: seq<InstanceDesc>)

  /** The reply to one `describe_instances` call (a single page: the scan does not paginate). */
  datatype DescribeReply = DescribeReply(reservations: seq<Reservation>)

  /** `_parse_instance`: one instance as a resource of this scanner's region. */
  function ParseInstance(region: string, d: InstanceDesc): (r: AWSResource)
    ensures r.resourceId == d.instanceId && r.kind == EC2 && r.region == region && r.state == d.stateName
    ensures r.tags == TagsFromPairs(d.tags.GetOr([]))
    ensures r.metadata.Ec2Meta? && r.metadata.platform == d.platform.GetOr("linux")
    ensures r.metadata.name.Some? <==> "Name" in r.tags
    ensures r.metadata.name.Some? ==> r.metadata.name.value == r.tags["Name"]
  {
    var tags := TagsFromPairs(d.tags.GetOr([]));
    var name := if "Name" in tags then Some(tags["Name"]) else None;
    AWSResource(d.instanceId, EC2, region, tags,
      d.stateName,
      Ec2Meta(d.instanceType, d.availabilityZone, d.vpcId, d.subnetId, d.privateIp, d.publicIp,
        d.platform.GetOr("linux"), name))
  }

  /** An instance without a `Tags` field is untagged. */
  lemma MissingTagsIsUntagged(region: string, d: InstanceDesc)
    requires d.tags.None?
    ensures !ParseInstance(region, d).IsTagged()
  {
  }

  /** The instances of all reservations, in reply order. */
  function AllInstances(rs: seq<Reservation>): (xs: seq<InstanceDesc>)
    ensures forall i :: 0 <= i < |rs| ==> forall j :: 0 <= j < |rs[i].instances| ==> rs[i].instances[j] in xs
  {
    if |rs| == 0 then [] else rs[0].instances + AllInstances(rs[1..])
  }

  lemma {:induction false} AllInstancesCount(rs: seq<Reservation>)
    ensures |AllInstances(rs)| == SumCounts(rs)
  {
    if |rs| > 0 {
      AllInstancesCount(rs[1..]);
    }
  }

  function SumCounts(rs: seq<Reservation>): nat {
    if |rs| == 0 then 0 else |rs[0].instances| + SumCounts(rs[1..])
  }

  /**
   * The `j`-th instance of reservation `i` comes right after the instances of the
   * reservations before it. With the count above, the list is exactly the
   * reservations' instances, reservation after reservation, each in reply order.
   */
  lemma {:induction false} AllInstancesAt(rs: seq<Reservation>, i: nat, j: nat)
    requires i < |rs| && j < |rs[i].instances|
    ensures SumCounts(rs[..i]) + j < |AllInstances(rs)|
    ensures AllInstances(rs)[SumCounts(rs[..i]) + j] == rs[i].instances[j]
  {
    var xs := AllInstances(rs);
    var tail := rs[1..];
    assert xs == rs[0].instances + AllInstances(tail);
    if i == 0 {
      assert rs[..0] == [];
    } else {
      assert tail[i - 1] == rs[i];
      assert rs[..i][0] == rs[0] && rs[..i][1..] == tail[..i - 1];
      var c := SumCounts(tail[..i - 1]);
      assert SumCounts(rs[..i]) == |rs[0].instances| + c;
      AllInstancesAt(tail, i - 1, j);
      assert xs[|rs[0].instances| + c + j] == AllInstances(tail)[c + j];
    }
  }

  /** One attempt of `scan`: the reply, or the exception the call raised, which propagates unchanged. */
  function ScanAttempt(region: string, reply: Result<DescribeReply, Error>): (r: Result<ScanResult, Error>)
    ensures reply.Err? ==> r == Err(reply.error)
    ensures reply.Ok? ==> r.Ok? && r.value.Valid() && r.value.kind == EC2 && r.value.region == region
    ensures reply.Ok? ==> r.value.totalResources == |AllInstances(reply.value.reservations)|
    ensures reply.Ok? ==> forall i :: 0 <= i < |r.value.resources| ==>
      r.value.resources[i] == ParseInstance(region, AllInstances(reply.value.reservations)[i])
  {
    match reply
    case Err(e) => Err(e)
    case Ok(rep) =>
      var xs := AllInstances(rep.reservations);
      Ok(Partition(EC2, region, seq(|xs|, i requires 0 <= i < |xs| => ParseInstance(region, xs[i]))))
  }

  /** The filters of a request: the state filter, if one is sent, and which attempt it is. */
  type ReplyOracle = (Option<seq<string>>, nat) -> Result<DescribeReply, Error>

  /**
   * `scan` with its retry decorator: `replies(f, i)` is what the i-th attempt's
   * call, sent with filter `f`, returns; a ClientError is retried, up to three attempts.
   * The `instance-state-name` filter is sent only when the state list is present
   * and non-empty.
   */
  function Scan(region: string, stateFilter: Option<seq<string>>, replies: ReplyOracle): (r: (Result<ScanResult, Error>, nat))
    ensures 1 <= r.1 <= MaxAttempts
    ensures r.0 == ScanAttempt(region, replies(NonEmpty(stateFilter), r.1 - 1))
    ensures r.1 < MaxAttempts && r.0.Err? ==> !r.0.error.ClientError?
    ensures forall i :: 0 <= i < r.1 - 1 ==>
      replies(NonEmpty(stateFilter), i).Err? && replies(NonEmpty(stateFilter), i).error.ClientError?
  {
    var f := NonEmpty(stateFilter);
    var attempt := (i: nat) => ScanAttempt(region, replies(f, i));
    var r := WithRetry(attempt, OnClientError);
    assert forall i :: 0 <= i < r.1 - 1 ==> attempt(i) == ScanAttempt(region, replies(f, i));
    r
  }

  /** A non-ClientError failure is not retried. */
  lemma ScanOtherErrorNotRetried(region: string, stateFilter: Option<seq<string>>, replies: ReplyOracle)
    requires replies(NonEmpty(stateFilter), 0).Err? && !replies(NonEmpty(stateFilter), 0).error.ClientError?
    ensures Scan(region, stateFilter, replies) == (Err(replies(NonEmpty(stateFilter), 0).error), 1)
  {
    var f := NonEmpty(stateFilter);
    NoRetryOnRejectedError((i: nat) => ScanAttempt(region, replies(f, i)), OnClientError);
  }

  /**
   * One attempt of `apply_tags`: `callError` is what `create_tags` raised, if
   * anything. Returns the outcome and the instance's tags afterwards.
   */
  function ApplyTagsAttempt(current: Tags, requested: Tags, dryRun: bool, callError: Option<Error>): (r: (Result<bool, Error>, Tags))
    ensures r.0.Ok? ==> r.0.value
    ensures callError.None? ==> r.0 == Ok(true)
    ensures callError.Some? ==> (r.0.Ok? <==> dryRun && callError.value == ClientError("DryRunOperation", callError.value.message))
    ensures r.0.Err? ==> r.0.error == callError.value
    ensures r.1 == if callError.None? && !dryRun then current + requested else current
  {
    match callError
    case None => (Ok(true), if dryRun then current else current + requested)
    case Some(e) =>
      if dryRun && e.ClientError? && e.code == "DryRunOperation" then (Ok(true), current)
      else (Err(e), current)
  }

  /**
   * `apply_tags` with its retry decorator (only ClientErrors are retried);
   * `callErrors(i)` is the i-th attempt's `create_tags` outcome. Returns the
   * outcome, the attempts made and the instance's tags afterwards.
   */
  function ApplyTags(current: Tags, requested: Tags, dryRun: bool, callErrors: nat -> Option<Error>): (r: (Result<bool, Error>, nat, Tags))
    ensures 1 <= r.1 <= MaxAttempts
    ensures r.0 == ApplyTagsAttempt(current, requested, dryRun, callErrors(r.1 - 1)).0
    ensures forall i :: 0 <= i < r.1 - 1 ==>
      ApplyTagsAttempt(current, requested, dryRun, callErrors(i)).0.Err?
      && ApplyTagsAttempt(current, requested, dryRun, callErrors(i)).0.error.ClientError?
    ensures r.1 < MaxAttempts && r.0.Err? ==> !r.0.error.ClientError?
    ensures r.0.Ok? ==> r.0.value
    ensures dryRun || r.0.Err? ==> r.2 == current
    ensures !dryRun && r.0.Ok? ==> r.2 == current + requested
    ensures r.0.Err? ==> exists i :: 0 <= i < MaxAttempts && callErrors(i) == Some(r.0.error)
    ensures !dryRun ==> r.2 == MergedWrite(current, requested, r.0 == Ok(true))
  {
    var (out, n) := WithRetryOf((e: Option<Error>) => ApplyTagsAttempt(current, requested, dryRun, e).0, callErrors, OnClientError);
    (out, n, ApplyTagsAttempt(current, requested, dryRun, callErrors(n - 1)).1)
  }

  /** A clean first `create_tags` call answers True on the first attempt and merges the tags. */
  lemma CleanFirstCallMerges(current: Tags, requested: Tags, callErrors: nat -> Option<Error>)
    requires callErrors(0).None?
    ensures ApplyTags(current, requested, false, callErrors) == (Ok(true), 1, current + requested)
  {
  }

  /** An error other than a ClientError is re-raised at once, with the tags unchanged. */
  lemma OtherErrorNotRetried(current: Tags, requested: Tags, dryRun: bool, callErrors: nat -> Option<Error>)
    requires callErrors(0).Some? && !callErrors(0).value.ClientError?
    ensures ApplyTags(current, requested, dryRun, callErrors) == (Err(callErrors(0).value), 1, current)
  {
    NoRetryOnRejectedError((i: nat) => ApplyTagsAttempt(current, requested, dryRun, callErrors(i)).0, OnClientError);
  }

  /** A successful non-dry call leaves every requested pair in place and keeps the other keys. */
  lemma ApplyTagsMerges(current: Tags, requested: Tags, callErrors: nat -> Option<Error>)
    requires ApplyTags(current, requested, false, callErrors).0.Ok?
    ensures var after := ApplyTags(current, requested, false, callErrors).2;
      after == current + requested
      && (forall k :: k in requested ==> k in after && after[k] == requested[k])
      && (forall k :: k in current && k !in requested ==> k in after && after[k] == current[k])
  {
  }

  /** A dry run never changes the instance's tags. */
  lemma DryRunChangesNothing(current: Tags, requested: Tags, callErrors: nat -> Option<Error>)
    ensures ApplyTags(current, requested, true, callErrors).2 == current
  {
  }

  /** `get_untagged_running_instances`: the untagged part of a scan filtered to running instances. */
  function UntaggedRunning(region: string, replies: ReplyOracle): (r: Result<seq<AWSResource>, Error>)
    ensures var s := Scan(region, Some(["running"]), replies).0;
      (r.Ok? <==> s.Ok?) && (r.Ok? ==> r.value == FilterUntagged(s.value.resources))
    ensures r.Ok? ==> forall i :: 0 <= i < |r.value| ==> !r.value[i].IsTagged()
  {
    match Scan(region, Some(["running"]), replies).0
    case Err(e) => Err(e)
    case Ok(s) => Ok(s.untaggedResources)
  }

  /** The running-only scan sends exactly the filter `instance-state-name = [running]`. */
  lemma RunningOnlyFilter()
    ensures NonEmpty(Some(["running"])) == Some(["running"])
  {
  }
}
