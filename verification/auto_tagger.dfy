/**
 * The legacy command-line tagger (tagger_core/auto_tagger.py): listing the
 * EC2 instances without tags, parsing `--tag KEY=VALUE`, the payload of
 * `apply_tag`, and the decision logic of `main`, both as written (where
 * `args.apply-tag` is a subtraction) and as evidently intended.
 *
 * The `describe_instances` reply is an input (`Reservations`/`Instances`
 * missing are the empty list), `create_tags` is an outcome oracle, and the
 * console output and the JSON log file are not modelled.
 */
module AutoTagger {
  import opened Wrappers
  import opened Errors
  import opened Text
  import opened Seqs
  import opened Ec2

  /** `{"InstanceId": ..., "State": ...}` of an untagged instance. */
  datatype UntaggedInfo = UntaggedInfo(instanceId: string, state: string)

  /** `not instance.get("Tags", [])`: no Tags field, or an empty list. */
  predicate HasNoTags(d: InstanceDesc) {
    d.tags.None? || |d.tags.value| == 0
  }

  function InfoOf(d: InstanceDesc): UntaggedInfo {
    UntaggedInfo(d.instanceId, d.stateName)
  }

  /** The inner loop of `find_untagged_instances`, over one reservation's instances. */
  function UntaggedOf(instances: seq<InstanceDesc>): seq<UntaggedInfo> {
    if |instances| == 0 then []
    else (if HasNoTags(instances[0]) then [InfoOf(instances[0])] else []) + UntaggedOf(instances[1..])
  }

  /** `find_untagged_instances`: both loops, in reservation and instance order. */
  function FindUntaggedInstances(reservations: seq<Reservation>): seq<UntaggedInfo> {
    if |reservations| == 0 then []
    else UntaggedOf(reservations[0].instances) + FindUntaggedInstances(reservations[1..])
  }

  function Infos(ds: seq<InstanceDesc>): (r: seq<UntaggedInfo>)
    ensures |r| == |ds| && forall i :: 0 <= i < |ds| ==> r[i] == InfoOf(ds[i])
  {
    if |ds| == 0 then [] else [InfoOf(ds[0])] + Infos(ds[1..])
  }

  lemma {:induction false} InfosAppend(a: seq<InstanceDesc>, b: seq<InstanceDesc>)
    ensures Infos(a + b) == Infos(a) + Infos(b)
  {
    assert |Infos(a + b)| == |Infos(a) + Infos(b)|;
    forall i | 0 <= i < |a| + |b| ensures Infos(a + b)[i] == (Infos(a) + Infos(b))[i] {
      if i < |a| {
        assert (a + b)[i] == a[i];
      } else {
        assert (a + b)[i] == b[i - |a|];
      }
    }
  }

  lemma {:induction false} UntaggedOfSpec(instances: seq<InstanceDesc>)
    ensures UntaggedOf(instances) == Infos(Filter(instances, HasNoTags))
  {
    if |instances| > 0 {
      UntaggedOfSpec(instances[1..]);
      InfosAppend(if HasNoTags(instances[0]) then [instances[0]] else [], Filter(instances[1..], HasNoTags));
    }
  }

  /**
   * The listing is exactly the instances without tags, taken over all
   * reservations in order, reduced to their id and state.
   */
  lemma {:induction false} FindUntaggedSpec(reservations: seq<Reservation>)
    ensures FindUntaggedInstances(reservations) == Infos(Filter(AllInstances(reservations), HasNoTags))
  {
    if |reservations| > 0 {
      var first, rest := reservations[0].instances, reservations[1..];
      FindUntaggedSpec(rest);
      UntaggedOfSpec(first);
      FilterAppend(first, AllInstances(rest), HasNoTags);
      InfosAppend(Filter(first, HasNoTags), Filter(AllInstances(rest), HasNoTags));
    }
  }

  const TagFormatError := "Tag must be in KEY=VALUE format, e.g. Environment=Dev"

  /** The parsed `--tag`: key and value, both None when the option is absent or empty. */
  datatype TagArg = TagArg(key: Option<string>, value: Option<string>)

  /** The `--tag` parsing of `main`: a value without '=' is rejected, else it is split at the first '='. */
  function ParseTag(tag: Option<string>): (r: Result<TagArg, Error>)
    ensures (tag.None? || tag.value == "") ==> r == Ok(TagArg(None, None))
    ensures tag.Some? && tag.value != "" ==> (r.Err? <==> '=' !in tag.value)
    ensures r.Err? ==> r.error == ValueError(TagFormatError)
    ensures r.Ok? && tag.Some? && tag.value != "" ==> r.value.key.Some? && r.value.value.Some?
  {
    if tag.None? || tag.value == "" then Ok(TagArg(None, None))
    else if '=' !in tag.value then Err(ValueError(TagFormatError))
    else
      var (k, v) := SplitOnce(tag.value, '=');
      Ok(TagArg(Some(k), Some(v)))
  }

  /**
   * Parsing splits at the first '=' only: joining key and value back with
   * '=' restores the option, the key holds no '=', and the value keeps any
   * later ones.
   */
  lemma ParseTagRoundTrip(tag: string)
    requires '=' in tag
    ensures ParseTag(Some(tag)).Ok?
    ensures ParseTag(Some(tag)).value.key.value + "=" + ParseTag(Some(tag)).value.value.value == tag
    ensures '=' !in ParseTag(Some(tag)).value.key.value
  {
    var (k, v) := SplitOnce(tag, '=');
    assert k + "=" + v == k + ['='] + v;
  }

  /** Any key without '=' and any value come back out of `KEY=VALUE`. */
  lemma FormatThenParse(key: string, value: string)
    requires '=' !in key
    ensures ParseTag(Some(key + "=" + value)) == Ok(TagArg(Some(key), Some(value)))
  {
    var s := key + "=" + value;
    assert s[|key|] == '=';
    var (k, v) := SplitOnce(s, '=');
    assert k + ['='] + v == key + ['='] + value;
    assert k == s[..|k|] && key == s[..|key|];
    assert v == s[|k| + 1..] && value == s[|key| + 1..];
  }

  /** The `create_tags` call of `apply_tag`. */
  datatype CreateTagsRequest = CreateTagsRequest(resources: seq<string>, tags: seq<(string, string)>)

  /** `apply_tag(client, instance_id, key, value)`: one instance, one Key/Value pair. */
  function ApplyTagPayload(instanceId: string, key: string, value: string): (r: CreateTagsRequest)
    ensures |r.resources| == 1 && r.resources[0] == instanceId
    ensures |r.tags| == 1 && r.tags[0] == (key, value)
  {
    CreateTagsRequest([instanceId], [(key, value)])
  }

  /** The command line of `main`, after `argparse`. */
  datatype Args = Args(region: string, profile: string, tag: Option<string>, applyTag: bool)

  /** What a run writes to the log file (the timestamp left out) and the tagging calls it made. */
  datatype Run = Run(region: string, profile: string, untagged: seq<UntaggedInfo>, applied: seq<CreateTagsRequest>)

  /** Python's error for `args.apply`: the `--apply-tag` destination is `apply_tag`. */
  const NoApplyAttribute := "'Namespace' object has no attribute 'apply'"
  const ApplyNeedsTag := "--apply-tag requires --tag KEY=VALUE"

  /**
   * `main()` as written. `args.apply-tag` reads `args.apply`, which does not
   * exist, so as soon as an untagged instance is found the run stops with
   * an AttributeError, whether or not `--apply-tag` was given.
   */
  function MainAsWritten(args: Args, reply: DescribeReply): (r: Result<Run, Error>)
    ensures ParseTag(args.tag).Err? ==> r == Err(ParseTag(args.tag).error)
    ensures r.Ok? ==> |r.value.untagged| == 0 && r.value.applied == []
  {
    var tag :- ParseTag(args.tag);
    var untagged := FindUntaggedInstances(reply.reservations);
    if |untagged| > 0 then Err(AttributeError(NoApplyAttribute))
    else Ok(Run(args.region, args.profile, untagged, []))
  }

  /** The discrepancy: a well-formed run that finds an untagged instance always fails. */
  lemma MainAsWrittenFailsOnUntagged(args: Args, reply: DescribeReply)
    requires ParseTag(args.tag).Ok?
    requires |FindUntaggedInstances(reply.reservations)| > 0
    ensures MainAsWritten(args, reply) == Err(AttributeError(NoApplyAttribute))
  {
  }

  /**
   * Tagging every untagged instance in turn, with `failure(id)` the error
   * `create_tags` raises for an instance, if any: the first failing call
   * ends the loop with its error.
   */
  function ApplyAll(untagged: seq<UntaggedInfo>, key: string, value: string, failure: string -> Option<Error>): (r: Result<seq<CreateTagsRequest>, Error>)
    ensures r.Ok? <==> forall i :: 0 <= i < |untagged| ==> failure(untagged[i].instanceId).None?
    ensures r.Ok? ==> |r.value| == |untagged| && forall i :: 0 <= i < |untagged| ==> r.value[i] == ApplyTagPayload(untagged[i].instanceId, key, value)
    ensures r.Err? ==> exists i :: (0 <= i < |untagged| && failure(untagged[i].instanceId) == Some(r.error)
      && forall j :: 0 <= j < i ==> failure(untagged[j].instanceId).None?)
  {
    if |untagged| == 0 then Ok([])
    else
      var id := untagged[0].instanceId;
      if failure(id).Some? then Err(failure(id).value)
      else
        var rest := ApplyAll(untagged[1..], key, value, failure);
        assert forall i :: 1 <= i < |untagged| ==> untagged[1..][i - 1] == untagged[i];
        if rest.Err? then
          assert exists i :: (1 <= i < |untagged| && failure(untagged[i].instanceId) == Some(rest.error)
            && forall j :: 0 <= j < i ==> failure(untagged[j].instanceId).None?);
          Err(rest.error)
        else Ok([ApplyTagPayload(id, key, value)] + rest.value)
  }

  /**
   * `main()` as intended (`args.apply_tag`): with the flag, a key and a value
   * are required and every untagged instance is tagged with that one pair.
   */
  function Main(args: Args, reply: DescribeReply, failure: string -> Option<Error>): (r: Result<Run, Error>)
    ensures ParseTag(args.tag).Err? ==> r == Err(ParseTag(args.tag).error)
    ensures r.Ok? ==> r.value.untagged == FindUntaggedInstances(reply.reservations) && r.value.region == args.region
  {
    var tag :- ParseTag(args.tag);
    var untagged := FindUntaggedInstances(reply.reservations);
    if |untagged| > 0 && args.applyTag then
      if tag.key.None? || tag.key.value == "" || tag.value.None? || tag.value.value == "" then Err(ValueError(ApplyNeedsTag))
      else
        var applied :- ApplyAll(untagged, tag.key.value, tag.value.value, failure);
        Ok(Run(args.region, args.profile, untagged, applied))
    else Ok(Run(args.region, args.profile, untagged, []))
  }

  /**
   * The intended run: without the flag (or with nothing to tag) it tags
   * nothing and succeeds; with it, it needs a non-empty key and value, and a
   * successful run made one `create_tags` call per untagged instance, in
   * order, each carrying exactly that pair.
   */
  lemma MainSpec(args: Args, reply: DescribeReply, failure: string -> Option<Error>)
    requires ParseTag(args.tag).Ok?
    ensures
      var untagged := FindUntaggedInstances(reply.reservations);
      var tag := ParseTag(args.tag).value;
      var r := Main(args, reply, failure);
      && (!args.applyTag || |untagged| == 0 ==> r == Ok(Run(args.region, args.profile, untagged, [])))
      && (args.applyTag && |untagged| > 0 && (args.tag.None? || args.tag.value == "") ==> r == Err(ValueError(ApplyNeedsTag)))
      && (args.applyTag && r.Ok? && |untagged| > 0 ==>
            |r.value.applied| == |untagged|
            && forall i :: 0 <= i < |untagged| ==>
                 r.value.applied[i] == ApplyTagPayload(untagged[i].instanceId, tag.key.value, tag.value.value))
  {
  }

  /** When no call fails, the intended run with the flag and a full tag succeeds. */
  lemma MainTagsAll(args: Args, reply: DescribeReply, failure: string -> Option<Error>)
    requires ParseTag(args.tag).Ok? && args.applyTag
    requires
      var tag := ParseTag(args.tag).value;
      tag.key.Some? && tag.key.value != "" && tag.value.Some? && tag.value.value != ""
    requires forall id :: failure(id).None?
    ensures Main(args, reply, failure).Ok?
  {
  }
}
