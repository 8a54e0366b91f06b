/**
 * The Lambda scanner: the marker-paginated `list_functions` loop with the runtime
 * filter, `_parse_function` with its separate tag lookup, `apply_tags` and
 * `get_functions_by_tag`.
 */
module Lambda {
  import opened Wrappers
  import opened Errors
  import opened Retry
  import opened Seqs
  import opened Resources

  /**
   * One function of a `list_functions` page. `tagsReply` is the outcome of the
   * `list_tags` call the parser makes for it.
   */
  datatype FunctionDesc = FunctionDesc(
    functionName: string, functionArn: string, runtime: Option<string>, handler: Option<string>,
    memorySize: Option<int>, timeout: Option<int>, description: Option<string>,
    architectures: Option<seq<string>>, packageType: Option<string>, tagsReply: Result<Tags, Error>)

  datatype Page = Page(functions: seq<FunctionDesc>, nextMarker: Option<string>)

  /** Python truthiness of an optional string: present and non-empty. */
  predicate Truthy(m: Option<string>) {
    m.Some? && |m.value| > 0
  }

  /**
   * The reply to the k-th `list_functions` call. The service's listing is the given
   * sequence; past its end it answers with an empty last page.
   */
  function PageAt(pages: seq<Result<Page, Error>>, k: nat): Result<Page, Error> {
    if k < |pages| then pages[k] else Ok(Page([], None))
  }

  /** The runtime filter: no filter (None or empty) keeps everything, otherwise the runtime must be listed. */
  predicate Keep(runtimeFilter: Option<seq<string>>, f: FunctionDesc) {
    runtimeFilter.None? || |runtimeFilter.value| == 0 || (f.runtime.Some? && f.runtime.value in runtimeFilter.value)
  }

  /**
   * `_parse_function`: a failed tag lookup with a ClientError gives no tags; any
   * other exception propagates and ends the scan.
   */
  function ParseFunction(region: string, f: FunctionDesc): (r: Result<AWSResource, Error>)
    ensures r.Ok? <==> f.tagsReply.Ok? || f.tagsReply.error.ClientError?
    ensures r.Err? ==> r.error == f.tagsReply.error
    ensures r.Ok? ==> (r.value.resourceId == f.functionName && r.value.kind == Lambda
      && r.value.region == region && r.value.state == "active"
      && r.value.metadata.LambdaMeta? && r.value.metadata.arn == f.functionArn)
    ensures r.Ok? ==> r.value.tags == if f.tagsReply.Ok? then f.tagsReply.value else map[]
  {
    var tags :- if f.tagsReply.Ok? then Ok(f.tagsReply.value)
                else if f.tagsReply.error.ClientError? then Ok(map[])
                else Err(f.tagsReply.error);
    Ok(AWSResource(f.functionName, Lambda, region, tags, "active",
      LambdaMeta(f.functionArn, f.runtime, f.handler, f.memorySize, f.timeout,
        f.description.GetOr(""), f.architectures.GetOr([]), f.packageType.GetOr("Zip"))))
  }

  /** A function whose tag lookup failed with a ClientError counts as untagged. */
  lemma FailedTagLookupIsUntagged(region: string, f: FunctionDesc)
    requires f.tagsReply.Err? && f.tagsReply.error.ClientError?
    ensures ParseFunction(region, f).Ok? && !ParseFunction(region, f).value.IsTagged()
  {
  }

  /** The kept functions of one page from position j on, parsed and appended to `acc`. */
  function CollectFrom(region: string, runtimeFilter: Option<seq<string>>, fs: seq<FunctionDesc>, j: nat, acc: seq<AWSResource>): Result<seq<AWSResource>, Error>
    requires j <= |fs|
    decreases |fs| - j
  {
    if j == |fs| then Ok(acc)
    else if !Keep(runtimeFilter, fs[j]) then CollectFrom(region, runtimeFilter, fs, j + 1, acc)
    else match ParseFunction(region, fs[j])
      case Err(e) => Err(e)
      case Ok(r) => CollectFrom(region, runtimeFilter, fs, j + 1, acc + [r])
  }

  /**
   * The pagination loop from call k on, sent with `marker`: returns the collected
   * functions (or the exception) and the markers of all calls made, in order.
   */
  function WalkFrom(region: string, runtimeFilter: Option<seq<string>>, pages: seq<Result<Page, Error>>, k: nat,
                    marker: Option<string>, acc: seq<AWSResource>, requests: seq<Option<string>>): (r: (Result<seq<AWSResource>, Error>, seq<Option<string>>))
    decreases |pages| - k
  {
    var reqs := requests + [marker];
    match PageAt(pages, k)
    case Err(e) => (Err(e), reqs)
    case Ok(page) =>
      match CollectFrom(region, runtimeFilter, page.functions, 0, acc)
      case Err(e) => (Err(e), reqs)
      case Ok(acc') =>
        if !Truthy(page.nextMarker) then (Ok(acc'), reqs)
        else WalkFrom(region, runtimeFilter, pages, k + 1, page.nextMarker, acc', reqs)
  }

  /** One attempt of `scan`: the whole pagination loop, then the tagged/untagged partition. */
  function ScanAttempt(region: string, runtimeFilter: Option<seq<string>>, pages: seq<Result<Page, Error>>): (r: (Result<ScanResult, Error>, seq<Option<string>>))
  {
    var (fns, requests) := WalkFrom(region, runtimeFilter, pages, 0, None, [], []);
    match fns
    case Err(e) => (Err(e), requests)
    case Ok(rs) => (Ok(Partition(Lambda, region, rs)), requests)
  }

  /**
   * The scan loop as the scanner runs it: one `list_functions` call per iteration,
   * the runtime filter and parser applied to each function of the page.
   */
  method Scan(region: string, runtimeFilter: Option<seq<string>>, pages: seq<Result<Page, Error>>)
    returns (result: Result<ScanResult, Error>, requests: seq<Option<string>>)
    ensures (result, requests) == ScanAttempt(region, runtimeFilter, pages)
    ensures result.Ok? ==> result.value.Valid() && result.value.kind == Lambda && result.value.region == region
  {
    var functions: seq<AWSResource> := [];
    var marker: Option<string> := None;
    var k: nat := 0;
    requests := [];
    while true
      invariant WalkFrom(region, runtimeFilter, pages, 0, None, [], []) == WalkFrom(region, runtimeFilter, pages, k, marker, functions, requests)
      decreases |pages| - k
    {
      requests := requests + [marker];
      var reply := PageAt(pages, k);
      if reply.Err? {
        return Err(reply.error), requests;
      }
      var page := reply.value;
      var j := 0;
      var acc := functions;
      while j < |page.functions|
        invariant j <= |page.functions|
        invariant CollectFrom(region, runtimeFilter, page.functions, 0, functions) == CollectFrom(region, runtimeFilter, page.functions, j, acc)
      {
        var f := page.functions[j];
        if Keep(runtimeFilter, f) {
          var parsed := ParseFunction(region, f);
          if parsed.Err? {
            return Err(parsed.error), requests;
          }
          acc := acc + [parsed.value];
        }
        j := j + 1;
      }
      functions := acc;
      if !Truthy(page.nextMarker) {
        break;
      }
      marker := page.nextMarker;
      k := k + 1;
    }
    result := Ok(Partition(Lambda, region, functions));
  }

  /** The runtime filter as a predicate value. */
  function KeepBy(runtimeFilter: Option<seq<string>>): FunctionDesc -> bool {
    (f: FunctionDesc) => Keep(runtimeFilter, f)
  }

  /** No function's tag lookup fails with anything but a ClientError. */
  predicate ParsesCleanly(region: string, fs: seq<FunctionDesc>) {
    forall i :: 0 <= i < |fs| ==> ParseFunction(region, fs[i]).Ok?
  }

  /** The parsed resources of functions that all parse. */
  function ParseAll(region: string, fs: seq<FunctionDesc>): (rs: seq<AWSResource>)
    requires ParsesCleanly(region, fs)
    ensures |rs| == |fs|
  {
    if |fs| == 0 then [] else [ParseFunction(region, fs[0]).value] + ParseAll(region, fs[1..])
  }

  lemma ParsesCleanlyFiltered(region: string, fs: seq<FunctionDesc>, p: FunctionDesc -> bool)
    requires ParsesCleanly(region, fs)
    ensures ParsesCleanly(region, Filter(fs, p))
  {
    var kept := Filter(fs, p);
    forall i | 0 <= i < |kept| ensures ParseFunction(region, kept[i]).Ok? {
      assert kept[i] in fs;
    }
  }

  /** The functions after position j parse cleanly too, and filtering from j keeps or drops `fs[j]` first. */
  lemma CleanFrom(region: string, runtimeFilter: Option<seq<string>>, fs: seq<FunctionDesc>, j: nat)
    requires j < |fs|
    requires ParsesCleanly(region, fs[j..])
    ensures ParseFunction(region, fs[j]).Ok?
    ensures ParsesCleanly(region, fs[j + 1..])
    ensures ParsesCleanly(region, Filter(fs[j + 1..], KeepBy(runtimeFilter)))
    ensures Filter(fs[j..], KeepBy(runtimeFilter))
      == (if Keep(runtimeFilter, fs[j]) then [fs[j]] else []) + Filter(fs[j + 1..], KeepBy(runtimeFilter))
  {
    var tail := fs[j + 1..];
    assert fs[j..][1..] == tail;
    assert fs[j..][0] == fs[j];
    assert ParsesCleanly(region, tail) by {
      forall i | 0 <= i < |tail| ensures ParseFunction(region, tail[i]).Ok? {
        assert tail[i] == fs[j..][i + 1];
      }
    }
    ParsesCleanlyFiltered(region, tail, KeepBy(runtimeFilter));
  }

  /** A kept function contributes its parsed resource ahead of the rest of the page. */
  lemma KeptStep(region: string, runtimeFilter: Option<seq<string>>, fs: seq<FunctionDesc>, j: nat, acc: seq<AWSResource>)
    requires j < |fs| && Keep(runtimeFilter, fs[j])
    requires ParsesCleanly(region, fs[j..])
    ensures ParseFunction(region, fs[j]).Ok?
    ensures ParsesCleanly(region, Filter(fs[j..], KeepBy(runtimeFilter)))
    ensures ParsesCleanly(region, Filter(fs[j + 1..], KeepBy(runtimeFilter)))
    ensures acc + ParseAll(region, Filter(fs[j..], KeepBy(runtimeFilter)))
      == (acc + [ParseFunction(region, fs[j]).value]) + ParseAll(region, Filter(fs[j + 1..], KeepBy(runtimeFilter)))
  {
    var keep := KeepBy(runtimeFilter);
    CleanFrom(region, runtimeFilter, fs, j);
    ParsesCleanlyFiltered(region, fs[j..], keep);
    var rest := Filter(fs[j + 1..], keep);
    var r := ParseFunction(region, fs[j]).value;
    assert Filter(fs[j..], keep) == [fs[j]] + rest;
    assert ([fs[j]] + rest)[1..] == rest;
    assert ParseAll(region, [fs[j]] + rest) == [r] + ParseAll(region, rest);
    assert acc + ([r] + ParseAll(region, rest)) == (acc + [r]) + ParseAll(region, rest);
  }

  /** Without failing tag lookups a page contributes exactly its kept functions, in page order. */
  lemma {:induction false} CollectKeepsFiltered(region: string, runtimeFilter: Option<seq<string>>, fs: seq<FunctionDesc>, j: nat, acc: seq<AWSResource>)
    requires j <= |fs|
    requires ParsesCleanly(region, fs[j..])
    ensures ParsesCleanly(region, Filter(fs[j..], KeepBy(runtimeFilter)))
    ensures CollectFrom(region, runtimeFilter, fs, j, acc) == Ok(acc + ParseAll(region, Filter(fs[j..], KeepBy(runtimeFilter))))
    decreases |fs| - j
  {
    var keep := KeepBy(runtimeFilter);
    ParsesCleanlyFiltered(region, fs[j..], keep);
    if j == |fs| {
      assert fs[j..] == [];
      assert Filter(fs[j..], keep) == [];
      assert acc + ParseAll(region, []) == acc;
    } else {
      CleanFrom(region, runtimeFilter, fs, j);
      if Keep(runtimeFilter, fs[j]) {
        var r := ParseFunction(region, fs[j]).value;
        assert CollectFrom(region, runtimeFilter, fs, j, acc) == CollectFrom(region, runtimeFilter, fs, j + 1, acc + [r]);
        CollectKeepsFiltered(region, runtimeFilter, fs, j + 1, acc + [r]);
        KeptStep(region, runtimeFilter, fs, j, acc);
      } else {
        assert CollectFrom(region, runtimeFilter, fs, j, acc) == CollectFrom(region, runtimeFilter, fs, j + 1, acc);
        assert Filter(fs[j..], keep) == Filter(fs[j + 1..], keep);
        CollectKeepsFiltered(region, runtimeFilter, fs, j + 1, acc);
      }
    }
  }

  /** The marker chain: `requests` starts with no marker and each later call carries the previous page's NextMarker. */
  predicate MarkerChain(pages: seq<Result<Page, Error>>, requests: seq<Option<string>>) {
    |requests| >= 1 && requests[0] == None
    && forall j :: 1 <= j < |requests| ==>
         PageAt(pages, j - 1).Ok? && Truthy(PageAt(pages, j - 1).value.nextMarker)
         && requests[j] == PageAt(pages, j - 1).value.nextMarker
  }

  lemma {:induction false} WalkMarkerChain(region: string, runtimeFilter: Option<seq<string>>, pages: seq<Result<Page, Error>>, k: nat,
                                           marker: Option<string>, acc: seq<AWSResource>, requests: seq<Option<string>>)
    requires |requests| == k
    requires k == 0 ==> marker == None
    requires k > 0 ==> (MarkerChain(pages, requests) && PageAt(pages, k - 1).Ok?
      && Truthy(PageAt(pages, k - 1).value.nextMarker) && marker == PageAt(pages, k - 1).value.nextMarker)
    ensures MarkerChain(pages, WalkFrom(region, runtimeFilter, pages, k, marker, acc, requests).1)
    decreases |pages| - k
  {
    var reqs := requests + [marker];
    assert MarkerChain(pages, reqs);
    var reply := PageAt(pages, k);
    if reply.Ok? {
      var page := reply.value;
      var c := CollectFrom(region, runtimeFilter, page.functions, 0, acc);
      if c.Ok? && Truthy(page.nextMarker) {
        WalkMarkerChain(region, runtimeFilter, pages, k + 1, page.nextMarker, c.value, reqs);
      }
    }
  }

  /** Every scan attempt's calls follow the marker chain, and the last page reached ends it. */
  lemma ScanFollowsMarkers(region: string, runtimeFilter: Option<seq<string>>, pages: seq<Result<Page, Error>>)
    ensures MarkerChain(pages, ScanAttempt(region, runtimeFilter, pages).1)
  {
    WalkMarkerChain(region, runtimeFilter, pages, 0, None, [], []);
  }

  /** `scan` with its retry decorator; `listings(i)` is the listing the i-th attempt sees. */
  function ScanWithRetry(region: string, runtimeFilter: Option<seq<string>>, listings: nat -> seq<Result<Page, Error>>): (r: (Result<ScanResult, Error>, nat))
    ensures 1 <= r.1 <= MaxAttempts
    ensures r.0 == ScanAttempt(region, runtimeFilter, listings(r.1 - 1)).0
    ensures r.1 < MaxAttempts && r.0.Err? ==> !r.0.error.ClientError?
    ensures forall i :: 0 <= i < r.1 - 1 ==>
      ScanAttempt(region, runtimeFilter, listings(i)).0.Err? && ScanAttempt(region, runtimeFilter, listings(i)).0.error.ClientError?
  {
    var attempt := (i: nat) => ScanAttempt(region, runtimeFilter, listings(i)).0;
    var r := WithRetry(attempt, OnClientError);
    assert forall i :: 0 <= i < r.1 - 1 ==> attempt(i) == ScanAttempt(region, runtimeFilter, listings(i)).0;
    r
  }

  /**
   * `apply_tags`: with `dry_run` no call is made and the answer is True; otherwise
   * `tag_resource` merges the tags (its outcome is `callError`).
   */
  function ApplyTagsAttempt(current: Tags, requested: Tags, dryRun: bool, callError: Option<Error>): (r: (Result<bool, Error>, Tags))
    ensures dryRun ==> r == (Ok(true), current)
    ensures !dryRun && callError.None? ==> r == (Ok(true), current + requested)
    ensures !dryRun && callError.Some? ==> r == (Err(callError.value), current)
  {
    if dryRun then (Ok(true), current)
    else match callError
      case None => (Ok(true), current + requested)
      case Some(e) => (Err(e), current)
  }

  /**
   * `apply_tags` with its retry decorator: only ClientErrors are retried.
   * Returns the outcome, the attempts made and the function's tags afterwards.
   */
  function ApplyTags(current: Tags, requested: Tags, dryRun: bool, callErrors: nat -> Option<Error>): (r: (Result<bool, Error>, nat, Tags))
    ensures 1 <= r.1 <= MaxAttempts
    ensures r.0 == ApplyTagsAttempt(current, requested, dryRun, callErrors(r.1 - 1)).0
    ensures forall i :: 0 <= i < r.1 - 1 ==>
      ApplyTagsAttempt(current, requested, dryRun, callErrors(i)).0.Err?
      && ApplyTagsAttempt(current, requested, dryRun, callErrors(i)).0.error.ClientError?
    ensures r.1 < MaxAttempts && r.0.Err? ==> !r.0.error.ClientError?
    ensures dryRun ==> r == (Ok(true), 1, current)
    ensures !dryRun && r.0.Ok? ==> r.2 == current + requested
    ensures r.0.Err? ==> r.2 == current
    ensures !dryRun ==> r.2 == MergedWrite(current, requested, r.0 == Ok(true))
  {
    var (out, n) := WithRetryOf((e: Option<Error>) => ApplyTagsAttempt(current, requested, dryRun, e).0, callErrors, OnClientError);
    (out, n, ApplyTagsAttempt(current, requested, dryRun, callErrors(n - 1)).1)
  }

  /** A clean first `tag_resource` call answers True on the first attempt and merges the tags. */
  lemma CleanFirstCallMerges(current: Tags, requested: Tags, callErrors: nat -> Option<Error>)
    requires callErrors(0).None?
    ensures ApplyTags(current, requested, false, callErrors) == (Ok(true), 1, current + requested)
  {
  }

  /** An error other than a ClientError is re-raised at once, with the tags unchanged. */
  lemma OtherErrorNotRetried(current: Tags, requested: Tags, callErrors: nat -> Option<Error>)
    requires callErrors(0).Some? && !callErrors(0).value.ClientError?
    ensures ApplyTags(current, requested, false, callErrors) == (Err(callErrors(0).value), 1, current)
  {
    NoRetryOnRejectedError((i: nat) => ApplyTagsAttempt(current, requested, false, callErrors(i)).0, OnClientError);
  }

  /** The function carries tag `key` with value `value`. */
  predicate HasTag(r: AWSResource, key: string, value: string) {
    key in r.tags && r.tags[key] == value
  }

  /** `get_functions_by_tag`: the scanned functions whose tag at `key` equals `value`. */
  function FunctionsByTag(region: string, pages: seq<Result<Page, Error>>, key: string, value: string): (r: Result<seq<AWSResource>, Error>)
    ensures var s := ScanAttempt(region, None, pages).0;
      (r.Ok? <==> s.Ok?)
      && (r.Ok? ==> ((forall i :: 0 <= i < |r.value| ==> HasTag(r.value[i], key, value) && r.value[i] in s.value.resources)
                 && (forall i :: 0 <= i < |s.value.resources| && HasTag(s.value.resources[i], key, value) ==> s.value.resources[i] in r.value)))
  {
    match ScanAttempt(region, None, pages).0
    case Err(e) => Err(e)
    case Ok(s) => Ok(Filter(s.resources, (f: AWSResource) => HasTag(f, key, value)))
  }

  /**
   * `remove_tags`: `untag_resource` drops the listed keys (its outcome is
   * `callError`); a failure is re-raised and changes nothing.
   */
  function RemoveTags(current: Tags, keys: seq<string>, callError: Option<Error>): (r: (Result<bool, Error>, Tags))
    ensures callError.Some? ==> r == (Err(callError.value), current)
    ensures callError.None? ==> r.0 == Ok(true)
    ensures callError.None? ==> forall k :: k in r.1 <==> k in current && k !in keys
    ensures callError.None? ==> forall k :: k in r.1 ==> r.1[k] == current[k]
  {
    if callError.Some? then (Err(callError.value), current)
    else (Ok(true), map k | k in current && k !in keys :: current[k])
  }

  /**
   * Removing exactly the keys a successful `apply_tags` wrote leaves what
   * removing them from the original tags leaves: the write is undone except
   * for the values it overwrote.
   */
  lemma RemoveUndoesApply(current: Tags, requested: Tags, keys: seq<string>, callErrors: nat -> Option<Error>)
    requires forall k :: k in requested <==> k in keys
    requires ApplyTags(current, requested, false, callErrors).0.Ok?
    ensures RemoveTags(ApplyTags(current, requested, false, callErrors).2, keys, None).1 == RemoveTags(current, keys, None).1
  {
  }

  const PythonRuntimes: seq<string> := ["python3.9", "python3.10", "python3.11", "python3.12"]
  const NodejsRuntimes: seq<string> := ["nodejs18.x", "nodejs20.x"]

  /** `scan_python_only` and `scan_nodejs_only` keep exactly the functions with a listed runtime. */
  lemma RuntimeScansKeep(f: FunctionDesc)
    ensures Keep(Some(PythonRuntimes), f) <==> f.runtime.Some? && f.runtime.value in PythonRuntimes
    ensures Keep(Some(NodejsRuntimes), f) <==> f.runtime.Some? && f.runtime.value in NodejsRuntimes
  {
  }
}
