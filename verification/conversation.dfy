/**
 * The chat session memory (memory/conversation_manager.py): a sliding window
 * of role-tagged turns that keeps every system turn and drops the oldest
 * user/assistant turns once the window is full.
 *
 * Clock readings are parameters (`now`); a timestamp is an opaque integer
 * whose ISO-8601 rendering is not modelled.
 */
module Conversation {
  import opened Wrappers
  import opened Errors
  import opened Seqs

  type Timestamp = int
  type Metadata = map<string, string>

  /** One turn of the conversation. */
  datatype Turn = Turn(role: string, content: string, timestamp: Timestamp, metadata: Metadata)

  /** The serialised form of a turn; `metadata` may be missing when read back. */
  datatype TurnRecord = TurnRecord(role: string, content: string, timestamp: Timestamp, metadata: Option<Metadata>)

  /** The conversation manager's state. */
  datatype Manager = Manager(maxHistory: int, turns: seq<Turn>, sessionStart: Timestamp)

  const ValidRoles: seq<string> := ["user", "assistant", "system"]

  predicate IsSystem(t: Turn) { t.role == "system" }
  predicate NotSystem(t: Turn) { t.role != "system" }

  function SystemTurns(turns: seq<Turn>): seq<Turn> { Filter(turns, IsSystem) }
  function OtherTurns(turns: seq<Turn>): seq<Turn> { Filter(turns, NotSystem) }

  /** A fresh manager with no turns. */
  function NewManager(maxHistory: int, now: Timestamp): (m: Manager)
    ensures m.turns == [] && m.maxHistory == maxHistory && m.sessionStart == now
  {
    Manager(maxHistory, [], now)
  }

  /** `turn.to_dict()`. */
  function ToDict(t: Turn): (d: TurnRecord)
    ensures d.metadata.Some?
  {
    TurnRecord(t.role, t.content, t.timestamp, Some(t.metadata))
  }

  /** `ConversationTurn.from_dict(data)`: a missing metadata entry becomes `{}`. */
  function FromDict(d: TurnRecord): (t: Turn)
    ensures t.role == d.role && t.content == d.content && t.timestamp == d.timestamp
    ensures d.metadata.None? ==> t.metadata == map[]
  {
    Turn(d.role, d.content, d.timestamp, d.metadata.GetOr(map[]))
  }

  /** Serialising a turn and reading it back gives the same turn. */
  lemma FromDictToDict(t: Turn)
    ensures FromDict(ToDict(t)) == t
  {
  }

  /** Reading a record back and serialising it again loses only a missing metadata entry. */
  lemma ToDictFromDict(d: TurnRecord)
    ensures d.metadata.Some? ==> ToDict(FromDict(d)) == d
    ensures d.metadata.None? ==> ToDict(FromDict(d)) == d.(metadata := Some(map[]))
  {
  }

  /** The turns list written by `export_json`, without the JSON text. */
  function ExportTurns(turns: seq<Turn>): (ds: seq<TurnRecord>)
    ensures |ds| == |turns|
    ensures forall i :: 0 <= i < |turns| ==> ds[i] == ToDict(turns[i])
  {
    if |turns| == 0 then [] else [ToDict(turns[0])] + ExportTurns(turns[1..])
  }

  /** The turns list rebuilt by `import_json`. */
  function ImportTurns(ds: seq<TurnRecord>): (turns: seq<Turn>)
    ensures |turns| == |ds|
    ensures forall i :: 0 <= i < |ds| ==> turns[i] == FromDict(ds[i])
  {
    if |ds| == 0 then [] else [FromDict(ds[0])] + ImportTurns(ds[1..])
  }

  /** Importing what was exported restores the turns exactly. */
  lemma ImportExport(turns: seq<Turn>)
    ensures ImportTurns(ExportTurns(turns)) == turns
  {
    var back := ImportTurns(ExportTurns(turns));
    forall i | 0 <= i < |turns| ensures back[i] == turns[i] {
      FromDictToDict(turns[i]);
    }
  }

  /**
   * The trimming step of `add_turn`: once the list is longer than
   * `maxHistory`, the system turns move to the front and only the newest
   * `maxHistory - #system` other turns are kept, under Python's slice rules
   * (`others[-(maxHistory - #system):]`).
   */
  function Trim(turns: seq<Turn>, maxHistory: int): seq<Turn> {
    if |turns| > maxHistory then
      SystemTurns(turns) + PySliceFrom(OtherTurns(turns), |SystemTurns(turns)| - maxHistory)
    else turns
  }

  /** `add_turn(role, content, metadata)` at time `now`. */
  function AddTurn(m: Manager, role: string, content: string, metadata: Option<Metadata>, now: Timestamp): (r: Result<Manager, Error>)
    ensures r.Ok? <==> role in ValidRoles
    ensures r.Err? ==> r.error == ValueError("Invalid role: " + role + ". Must be 'user', 'assistant', or 'system'")
    ensures r.Ok? ==> r.value.maxHistory == m.maxHistory && r.value.sessionStart == m.sessionStart
  {
    if role !in ValidRoles then
      Err(ValueError("Invalid role: " + role + ". Must be 'user', 'assistant', or 'system'"))
    else
      var turn := Turn(role, content, now, metadata.GetOr(map[]));
      Ok(m.(turns := Trim(m.turns + [turn], m.maxHistory)))
  }

  /** A list within the limit is left alone. */
  lemma TrimWithinLimit(turns: seq<Turn>, maxHistory: int)
    requires |turns| <= maxHistory
    ensures Trim(turns, maxHistory) == turns
  {
  }

  /** System turns that precede a non-system suffix. */
  lemma FilterSplit(sys: seq<Turn>, kept: seq<Turn>)
    requires forall i :: 0 <= i < |sys| ==> IsSystem(sys[i])
    requires forall i :: 0 <= i < |kept| ==> NotSystem(kept[i])
    ensures SystemTurns(sys + kept) == sys
    ensures OtherTurns(sys + kept) == kept
  {
    FilterAppend(sys, kept, IsSystem);
    FilterAppend(sys, kept, NotSystem);
    FilterAllPass(sys, IsSystem);
    FilterAllPass(kept, NotSystem);
    FilterNonePass(kept, IsSystem);
    FilterNonePass(sys, NotSystem);
  }

  /** No element passes, so nothing is kept. */
  lemma {:induction false} FilterNonePass(s: seq<Turn>, p: Turn -> bool)
    requires forall i :: 0 <= i < |s| ==> !p(s[i])
    ensures Filter(s, p) == []
  {
    if |s| > 0 {
      FilterNonePass(s[1..], p);
    }
  }

  /** Every element of a suffix of an all-non-system list is non-system. */
  lemma SliceNotSystem(others: seq<Turn>, a: int)
    requires forall i :: 0 <= i < |others| ==> NotSystem(others[i])
    ensures forall i :: 0 <= i < |PySliceFrom(others, a)| ==> NotSystem(PySliceFrom(others, a)[i])
  {
    var kept := PySliceFrom(others, a);
    PySliceFromShape(others, a);
    forall i | 0 <= i < |kept| ensures NotSystem(kept[i]) {
      assert kept[i] == others[|others| - |kept| + i];
    }
  }

  /** After trimming, the system turns are the old ones and the others are the kept slice. */
  lemma TrimSplit(turns: seq<Turn>, maxHistory: int)
    requires |turns| > maxHistory
    ensures SystemTurns(Trim(turns, maxHistory)) == SystemTurns(turns)
    ensures OtherTurns(Trim(turns, maxHistory)) == PySliceFrom(OtherTurns(turns), |SystemTurns(turns)| - maxHistory)
    ensures Trim(turns, maxHistory) == SystemTurns(turns) + OtherTurns(Trim(turns, maxHistory))
  {
    var sys := SystemTurns(turns);
    var others := OtherTurns(turns);
    var kept := PySliceFrom(others, |sys| - maxHistory);
    assert Trim(turns, maxHistory) == sys + kept;
    SliceNotSystem(others, |sys| - maxHistory);
    FilterSplit(sys, kept);
  }

  /**
   * Trimming keeps every system turn, in order, ahead of a suffix of the
   * other turns, and how long that suffix is depends on how the system
   * turns compare with the limit.
   */
  lemma TrimKeepsSystemAndNewest(turns: seq<Turn>, maxHistory: int)
    requires |turns| > maxHistory
    ensures SystemTurns(Trim(turns, maxHistory)) == SystemTurns(turns)
    ensures
      var others := OtherTurns(turns);
      var kept := OtherTurns(Trim(turns, maxHistory));
      && Trim(turns, maxHistory) == SystemTurns(turns) + kept
      && kept == others[|others| - |kept|..]
    ensures |SystemTurns(turns)| < maxHistory ==> |Trim(turns, maxHistory)| == maxHistory
    ensures |SystemTurns(turns)| == maxHistory ==> OtherTurns(Trim(turns, maxHistory)) == OtherTurns(turns)
    ensures
      var sys := |SystemTurns(turns)|;
      var others := |OtherTurns(turns)|;
      (sys > maxHistory ==>
        |OtherTurns(Trim(turns, maxHistory))| == (if sys - maxHistory <= others then others - (sys - maxHistory) else 0))
  {
    var sys := SystemTurns(turns);
    var others := OtherTurns(turns);
    var kept := PySliceFrom(others, |sys| - maxHistory);
    TrimSplit(turns, maxHistory);
    assert OtherTurns(Trim(turns, maxHistory)) == kept;
    PySliceFromShape(others, |sys| - maxHistory);
    SplitCount(turns);
  }

  /** Every turn is a system turn or another one. */
  lemma SplitCount(turns: seq<Turn>)
    ensures |SystemTurns(turns)| + |OtherTurns(turns)| == |turns|
  {
    FilterPartition(turns, IsSystem, NotSystem);
  }

  /**
   * The turn just added survives trimming whenever the system turns do not
   * exceed the limit (or it is itself a system turn).
   */
  lemma AddTurnKeepsNewest(m: Manager, role: string, content: string, metadata: Option<Metadata>, now: Timestamp)
    requires role in ValidRoles
    requires role == "system" || |SystemTurns(m.turns + [Turn(role, content, now, metadata.GetOr(map[]))])| <= m.maxHistory
    ensures Turn(role, content, now, metadata.GetOr(map[])) in AddTurn(m, role, content, metadata, now).value.turns
  {
    var turn := Turn(role, content, now, metadata.GetOr(map[]));
    TrimKeepsLast(m.turns, turn, m.maxHistory);
  }

  /** The last turn survives trimming when it is a system turn or the system turns fit. */
  lemma TrimKeepsLast(turns: seq<Turn>, turn: Turn, maxHistory: int)
    requires IsSystem(turn) || |SystemTurns(turns + [turn])| <= maxHistory
    ensures turn in Trim(turns + [turn], maxHistory)
  {
    var all := turns + [turn];
    if |all| > maxHistory {
      TrimSplit(all, maxHistory);
      if IsSystem(turn) {
        assert all[|all| - 1] == turn;
        assert turn in SystemTurns(all);
      } else {
        LastKept(turns, turn, maxHistory);
      }
    } else {
      assert all[|all| - 1] == turn;
    }
  }

  /** A non-system turn appended last is the last of the kept slice whenever the slice is not empty. */
  lemma LastKept(turns: seq<Turn>, turn: Turn, maxHistory: int)
    requires NotSystem(turn)
    requires |SystemTurns(turns + [turn])| <= maxHistory
    ensures turn in PySliceFrom(OtherTurns(turns + [turn]), |SystemTurns(turns + [turn])| - maxHistory)
  {
    var others := OtherTurns(turns + [turn]);
    var a := |SystemTurns(turns + [turn])| - maxHistory;
    FilterAppend(turns, [turn], NotSystem);
    assert Filter([turn], NotSystem) == [turn];
    assert others[|others| - 1] == turn;
    PySliceFromShape(others, a);
    var kept := PySliceFrom(others, a);
    assert kept[|kept| - 1] == others[|others| - 1];
  }

  /** `get_history(include_system)`. */
  function GetHistory(m: Manager, includeSystem: bool): seq<Turn> {
    if includeSystem then m.turns else OtherTurns(m.turns)
  }

  /**
   * Without system turns the history is the turns in order minus exactly
   * the system ones; with them it is the whole list.
   */
  lemma GetHistoryPartition(m: Manager)
    ensures GetHistory(m, true) == m.turns
    ensures forall i :: 0 <= i < |GetHistory(m, false)| ==> !IsSystem(GetHistory(m, false)[i])
    ensures forall i :: 0 <= i < |m.turns| && !IsSystem(m.turns[i]) ==> m.turns[i] in GetHistory(m, false)
    ensures |GetHistory(m, false)| + |SystemTurns(m.turns)| == |m.turns|
    ensures multiset(GetHistory(m, false)) + multiset(SystemTurns(m.turns)) == multiset(m.turns)
  {
    FilterPartition(m.turns, IsSystem, NotSystem);
  }

  /** `get_recent(n)`: `turns[-n:]` on a non-empty list. */
  function GetRecent(m: Manager, n: int): (r: seq<Turn>)
    ensures |m.turns| == 0 ==> r == []
  {
    if |m.turns| == 0 then [] else PySliceFrom(m.turns, -n)
  }

  /**
   * The recent turns are a suffix of the list: the last `n` when `n` is
   * positive, all of them when `n` is zero (Python's `[-0:]`), and all but
   * the first `-n` when `n` is negative.
   */
  lemma GetRecentShape(m: Manager, n: int)
    ensures GetRecent(m, n) == m.turns[|m.turns| - |GetRecent(m, n)|..]
    ensures n == 0 ==> GetRecent(m, n) == m.turns
    ensures n > 0 ==> |GetRecent(m, n)| == (if n <= |m.turns| then n else |m.turns|)
    ensures n < 0 ==> |GetRecent(m, n)| == (if -n <= |m.turns| then |m.turns| + n else 0)
  {
    PySliceFromShape(m.turns, -n);
  }

  /** `format_for_llm()`: one role/content pair per turn, in order. */
  function FormatForLLM(m: Manager): (msgs: seq<(string, string)>)
    ensures |msgs| == |m.turns|
    ensures forall i :: 0 <= i < |m.turns| ==> msgs[i] == (m.turns[i].role, m.turns[i].content)
  {
    Map(m.turns, (t: Turn) => (t.role, t.content))
  }

  /** `clear()` at time `now`: no turns and a new session start; the limit is kept. */
  function Clear(m: Manager, now: Timestamp): (r: Manager)
    ensures r == NewManager(m.maxHistory, now)
  {
    m.(turns := [], sessionStart := now)
  }

  /** `len(manager)`. */
  function Len(m: Manager): nat {
    |m.turns|
  }

  /** A successful `add_turn` grows the list by one, or trims it back to the limit. */
  lemma AddTurnLength(m: Manager, role: string, content: string, metadata: Option<Metadata>, now: Timestamp)
    requires role in ValidRoles
    requires |SystemTurns(m.turns + [Turn(role, content, now, metadata.GetOr(map[]))])| < m.maxHistory
    ensures Len(AddTurn(m, role, content, metadata, now).value) == (if Len(m) + 1 <= m.maxHistory then Len(m) + 1 else m.maxHistory)
  {
    var all := m.turns + [Turn(role, content, now, metadata.GetOr(map[]))];
    if |all| > m.maxHistory {
      TrimKeepsSystemAndNewest(all, m.maxHistory);
    }
  }
}
