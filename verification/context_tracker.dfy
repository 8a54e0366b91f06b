/**
 * The AWS environment context kept for the chat assistant
 * (memory/context_tracker.py): the history of recorded scans, the regions and
 * profiles seen, and a per-resource-type inventory holding the figures of
 * the latest scan of each type.
 *
 * The clock is a parameter (`now`), and the `.1f` rendering of the
 * compliance percentage is a parameter (`formatPct`).
 */
module ContextTracker {
  import opened Wrappers
  import opened Text
  import opened Dicts

  type Timestamp = int

  /** One recorded scan. */
  datatype ScanRecord = ScanRecord(
    timestamp: Timestamp,
    region: string,
    profile: string,
    resourceType: string,
    totalResources: int,
    untaggedResources: int,
    resourceIds: seq<string>,
    metadata: map<string, string>)

  /** The inventory figures for one resource type. */
  datatype InventoryEntry = InventoryEntry(total: int, untagged: int, lastScan: Timestamp)

  /** The tracker's state; the inventory is a dict keyed by resource type. */
  datatype Tracker = Tracker(
    history: seq<ScanRecord>,
    regions: set<string>,
    profiles: set<string>,
    inventory: Items<InventoryEntry>)

  const EmptyTracker := Tracker([], {}, {}, [])

  /** The inventory entry a scan leaves behind. */
  function EntryOf(s: ScanRecord): InventoryEntry {
    InventoryEntry(s.totalResources, s.untaggedResources, s.timestamp)
  }

  /** `record_scan(...)` at time `now`: missing ids and metadata become empty. */
  function RecordScan(
    t: Tracker, region: string, profile: string, resourceType: string,
    total: int, untagged: int, ids: Option<seq<string>>, metadata: Option<map<string, string>>,
    now: Timestamp): (r: Tracker)
    ensures |r.history| == |t.history| + 1 && r.history[..|t.history|] == t.history
    ensures r.regions == t.regions + {region} && r.profiles == t.profiles + {profile}
  {
    var scan := ScanRecord(now, region, profile, resourceType, total, untagged, ids.GetOr([]), metadata.GetOr(map[]));
    Tracker(t.history + [scan], t.regions + {region}, t.profiles + {profile}, Put(t.inventory, resourceType, EntryOf(scan)))
  }

  /** The latest scan of type `x` in the history: the reference definition, read from the end. */
  function LastOfType(h: seq<ScanRecord>, x: string): Option<ScanRecord> {
    if |h| == 0 then None
    else if h[|h| - 1].resourceType == x then Some(h[|h| - 1])
    else LastOfType(h[..|h| - 1], x)
  }

  /** `[s for s in h if s.resource_type == x]`. */
  function ScansOfType(h: seq<ScanRecord>, x: string): (r: seq<ScanRecord>)
    ensures forall i :: 0 <= i < |r| ==> r[i].resourceType == x
  {
    if |h| == 0 then []
    else ScansOfType(h[..|h| - 1], x) + (if h[|h| - 1].resourceType == x then [h[|h| - 1]] else [])
  }

  /** `get_latest_scan(resource_type)`; an empty type name counts as no filter. */
  function GetLatestScan(t: Tracker, resourceType: Option<string>): (r: Option<ScanRecord>)
    ensures |t.history| == 0 ==> r.None?
    ensures |t.history| > 0 && (resourceType.None? || resourceType.value == "") ==> r == Some(t.history[|t.history| - 1])
  {
    if |t.history| == 0 then None
    else if resourceType.Some? && resourceType.value != "" then
      var filtered := ScansOfType(t.history, resourceType.value);
      if |filtered| > 0 then Some(filtered[|filtered| - 1]) else None
    else Some(t.history[|t.history| - 1])
  }

  /** The last element of a filter is the last element that passes it. */
  lemma {:induction false} FilterLast(h: seq<ScanRecord>, x: string)
    ensures
      var filtered := ScansOfType(h, x);
      LastOfType(h, x) == if |filtered| > 0 then Some(filtered[|filtered| - 1]) else None
  {
    if |h| > 0 {
      FilterLast(h[..|h| - 1], x);
    }
  }

  /** The reference definition finds a scan of the type exactly when one exists, and no later one. */
  lemma {:induction false} LastOfTypeSpec(h: seq<ScanRecord>, x: string)
    ensures LastOfType(h, x).Some? <==> exists i :: 0 <= i < |h| && h[i].resourceType == x
    ensures LastOfType(h, x).Some? ==>
      exists i :: 0 <= i < |h| && h[i] == LastOfType(h, x).value && h[i].resourceType == x
        && forall j :: i < j < |h| ==> h[j].resourceType != x
  {
    if |h| > 0 {
      var n := |h| - 1;
      var front := h[..n];
      LastOfTypeSpec(front, x);
      if h[n].resourceType != x {
        assert forall i :: 0 <= i < n ==> front[i] == h[i];
        if LastOfType(h, x).Some? {
          var i :| 0 <= i < n && front[i] == LastOfType(h, x).value && front[i].resourceType == x
            && forall j :: i < j < n ==> front[j].resourceType != x;
          assert h[i] == LastOfType(h, x).value && forall j :: i < j < |h| ==> h[j].resourceType != x;
        }
      }
    }
  }

  /**
   * With a type filter, the latest scan is the last recorded scan of that
   * type, and there is one exactly when a scan of the type was recorded.
   */
  lemma LatestScanOfType(t: Tracker, x: string)
    requires x != ""
    ensures GetLatestScan(t, Some(x)) == LastOfType(t.history, x)
    ensures GetLatestScan(t, Some(x)).Some? <==> exists i :: 0 <= i < |t.history| && t.history[i].resourceType == x
  {
    FilterLast(t.history, x);
    LastOfTypeSpec(t.history, x);
  }

  /** The regions seen in a history. */
  function RegionsOf(h: seq<ScanRecord>): set<string> {
    set i | 0 <= i < |h| :: h[i].region
  }

  function ProfilesOf(h: seq<ScanRecord>): set<string> {
    set i | 0 <= i < |h| :: h[i].profile
  }

  /**
   * What the tracker's fields mean in terms of its history: the region and
   * profile sets are those of the scans, and the inventory holds, for each
   * type, the entry of the latest scan of that type.
   */
  ghost predicate Consistent(t: Tracker) {
    && t.regions == RegionsOf(t.history)
    && t.profiles == ProfilesOf(t.history)
    && DistinctKeys(t.inventory)
    && forall x :: Lookup(t.inventory, x) == InventoryOf(t.history, x)
  }

  function InventoryOf(h: seq<ScanRecord>, x: string): Option<InventoryEntry> {
    match LastOfType(h, x)
    case None => None
    case Some(s) => Some(EntryOf(s))
  }

  lemma EmptyConsistent()
    ensures Consistent(EmptyTracker)
  {
  }

  /** Appending a scan adds its region and profile to the sets of the history. */
  lemma AppendSets(h: seq<ScanRecord>, s: ScanRecord)
    ensures RegionsOf(h + [s]) == RegionsOf(h) + {s.region}
    ensures ProfilesOf(h + [s]) == ProfilesOf(h) + {s.profile}
  {
    var h' := h + [s];
    assert forall i :: 0 <= i < |h| ==> h'[i] == h[i];
    assert h'[|h|] == s;
  }

  /**
   * Recording a scan keeps the tracker consistent with its history: in
   * particular the inventory entry of a type is overwritten by every new
   * scan of that type, never accumulated.
   */
  lemma RecordScanConsistent(
    t: Tracker, region: string, profile: string, resourceType: string,
    total: int, untagged: int, ids: Option<seq<string>>, metadata: Option<map<string, string>>,
    now: Timestamp)
    requires Consistent(t)
    ensures Consistent(RecordScan(t, region, profile, resourceType, total, untagged, ids, metadata, now))
  {
    var r := RecordScan(t, region, profile, resourceType, total, untagged, ids, metadata, now);
    var scan := r.history[|r.history| - 1];
    assert r.history == t.history + [scan];
    AppendSets(t.history, scan);
    PutDistinct(t.inventory, resourceType, EntryOf(scan));
    forall x ensures Lookup(r.inventory, x) == InventoryOf(r.history, x) {
      PutLookup(t.inventory, resourceType, EntryOf(scan), x);
      assert r.history[..|r.history| - 1] == t.history;
    }
  }

  /** Recording keeps each type once in the inventory, in first-seen order. */
  lemma RecordScanInventoryOrder(
    t: Tracker, region: string, profile: string, resourceType: string,
    total: int, untagged: int, ids: Option<seq<string>>, metadata: Option<map<string, string>>,
    now: Timestamp)
    requires Consistent(t)
    ensures
      var inv := RecordScan(t, region, profile, resourceType, total, untagged, ids, metadata, now).inventory;
      (if HasKey(t.inventory, resourceType) then |inv| == |t.inventory| else |inv| == |t.inventory| + 1 && inv[..|t.inventory|] == t.inventory)
  {
    PutShape(t.inventory, resourceType, InventoryEntry(total, untagged, now));
  }

  /** `clear()`. */
  function Clear(t: Tracker): (r: Tracker)
    ensures Consistent(r) && |r.history| == 0
  {
    EmptyTracker
  }

  /** `len(tracker)`: the number of recorded scans. */
  function Len(t: Tracker): nat {
    |t.history|
  }

  /** Sum of the `total` figures of the inventory. */
  function TotalOf(inv: Items<InventoryEntry>): int {
    if |inv| == 0 then 0 else inv[0].1.total + TotalOf(inv[1..])
  }

  /** Sum of the `untagged` figures of the inventory. */
  function UntaggedOf(inv: Items<InventoryEntry>): int {
    if |inv| == 0 then 0 else inv[0].1.untagged + UntaggedOf(inv[1..])
  }

  /** `(total - untagged) / total * 100` when `total > 0`, else 0 (exact arithmetic). */
  function CompliancePct(total: int, untagged: int): real {
    if total > 0 then (total - untagged) as real / total as real * 100.0 else 0.0
  }

  /** The result of `get_statistics()`; `NoScans` is the short dict returned before any scan. */
  datatype Statistics =
    | NoScans
    | Stats(
        totalScans: nat,
        regions: set<string>,
        profiles: set<string>,
        resourceTypes: seq<string>,
        inventory: Items<InventoryEntry>,
        totalResources: int,
        totalUntagged: int,
        compliancePct: real)

  /** `get_statistics()`. */
  function GetStatistics(t: Tracker): (r: Statistics)
    ensures r.NoScans? <==> |t.history| == 0
    ensures r.Stats? ==> r.totalScans == |t.history| && r.regions == t.regions && r.profiles == t.profiles
    ensures r.Stats? ==> |r.resourceTypes| == |t.inventory| && forall i :: 0 <= i < |t.inventory| ==> r.resourceTypes[i] == t.inventory[i].0
    ensures r.Stats? ==> r.inventory == t.inventory
    ensures r.Stats? ==> r.totalResources == TotalOf(t.inventory) && r.totalUntagged == UntaggedOf(t.inventory)
    ensures r.Stats? && r.totalResources > 0 ==>
      r.compliancePct * (r.totalResources as real) == ((r.totalResources - r.totalUntagged) as real) * 100.0
    ensures r.Stats? && r.totalResources <= 0 ==> r.compliancePct == 0.0
  {
    if |t.history| == 0 then NoScans
    else
      var total := TotalOf(t.inventory);
      var untagged := UntaggedOf(t.inventory);
      Stats(|t.history|, t.regions, t.profiles, KeysOf(t.inventory), t.inventory, total, untagged, CompliancePct(total, untagged))
  }

  /** `list(d.keys())`. */
  function KeysOf(inv: Items<InventoryEntry>): (ks: seq<string>)
    ensures |ks| == |inv| && forall i :: 0 <= i < |inv| ==> ks[i] == inv[i].0
  {
    if |inv| == 0 then [] else [inv[0].0] + KeysOf(inv[1..])
  }

  predicate SaneEntries(inv: Items<InventoryEntry>) {
    forall i :: 0 <= i < |inv| ==> 0 <= inv[i].1.untagged <= inv[i].1.total
  }

  /** When every entry has between none and all of its resources untagged, so do the totals. */
  lemma {:induction false} SaneTotals(inv: Items<InventoryEntry>)
    requires SaneEntries(inv)
    ensures 0 <= UntaggedOf(inv) <= TotalOf(inv)
  {
    if |inv| > 0 {
      assert SaneEntries(inv[1..]) by {
        forall i | 0 <= i < |inv| - 1 ensures 0 <= inv[1..][i].1.untagged <= inv[1..][i].1.total {
          assert inv[1..][i] == inv[i + 1];
        }
      }
      SaneTotals(inv[1..]);
    }
  }

  /** The overall compliance percentage is a percentage whenever the entries are sane. */
  lemma StatisticsPctBounded(t: Tracker)
    requires |t.history| > 0 && SaneEntries(t.inventory)
    ensures 0.0 <= GetStatistics(t).compliancePct <= 100.0
  {
    SaneTotals(t.inventory);
    var total, untagged := TotalOf(t.inventory), UntaggedOf(t.inventory);
    if total > 0 {
      assert (total - untagged) as real <= total as real;
      assert (total - untagged) as real / total as real <= 1.0;
    }
  }

  /** At most five of the ids are shown. */
  function SampleIds(ids: seq<string>): (r: seq<string>)
    ensures |r| <= 5 && |r| <= |ids| && r == ids[..|r|]
    ensures |r| == if |ids| <= 5 then |ids| else 5
  {
    if |ids| <= 5 then ids else ids[..5]
  }

  /** The sample-ids line and its " (and N more)" remark. */
  function SampleLine(ids: seq<string>): (r: string)
    ensures |ids| == 0 <==> r == ""
    ensures 0 < |ids| <= 5 ==> r == "\nSample Resource IDs: " + Join(ids, ", ")
    ensures |ids| > 5 ==>
      var more := " (and " + NatToString(|ids| - 5) + " more)";
      && StartsWith(r, "\nSample Resource IDs: " + Join(ids[..5], ", "))
      && |more| <= |r| && r[|r| - |more|..] == more
  {
    if |ids| == 0 then ""
    else
      "\nSample Resource IDs: " + Join(SampleIds(ids), ", ")
      + (if |ids| > 5 then " (and " + NatToString(|ids| - 5) + " more)" else "")
  }

  /** The shown ids and the count in the remark together account for every id. */
  lemma SampleAccounts(ids: seq<string>)
    ensures SampleIds(ids) + ids[|SampleIds(ids)|..] == ids
    ensures |ids| > 5 <==> |SampleIds(ids)| < |ids|
  {
  }

  /**
   * `get_context_for_prompt()`, with `formatPct` rendering the percentage to
   * one decimal: empty before any scan, otherwise a block about the latest
   * scan that opens with its region and type and closes with its sample ids.
   */
  function GetContextForPrompt(t: Tracker, formatPct: real -> string): (r: string)
    ensures |t.history| == 0 <==> r == ""
    ensures |t.history| > 0 ==>
      var latest := t.history[|t.history| - 1];
      && StartsWith(r, "Recent AWS Scan Context:\n- Region: " + latest.region + "\n- Resource Type: " + latest.resourceType + "\n")
      && |SampleLine(latest.resourceIds)| <= |r|
      && r[|r| - |SampleLine(latest.resourceIds)|..] == SampleLine(latest.resourceIds)
  {
    if |t.history| == 0 then ""
    else
      var latest := t.history[|t.history| - 1];
      var opening := "Recent AWS Scan Context:\n- Region: " + latest.region + "\n- Resource Type: " + latest.resourceType + "\n";
      var figures := "- Total Resources: " + IntToString(latest.totalResources)
        + "\n- Untagged Resources: " + IntToString(latest.untaggedResources)
        + "\n- Tagging Compliance: " + formatPct(CompliancePct(latest.totalResources, latest.untaggedResources)) + "%\n";
      var closing := SampleLine(latest.resourceIds);
      var r := opening + (figures + closing);
      assert r[..|opening|] == opening;
      assert r[|r| - |closing|..] == closing;
      r
  }
}
