/**
 * The hydration store (ViewModel/WaterData.swift): today's drink records,
 * newest first, the daily goal, and the persisted encoding of the records.
 *
 * Outside inputs are parameters: the current instant (`Date()`), the fresh
 * identifier (`UUID()`), the calendar's "is this date today" test
 * (`Calendar.current.isDateInToday`) and the values found in the two
 * persisted slots at start-up.
 */
module WaterStore {
  import opened Wrappers
  import opened DrinkLogs
  import opened LogCodec

  /** The goal used when none has been persisted. */
  const DEFAULT_GOAL: Int64 := 2000

  // ---------------------------------------------------------------------
  // Derived quantities

  /** Sum of the amounts, folded from the left like `reduce(0) { $0 + $1.amount }`. */
  function Total(logs: seq<DrinkLog>): int
  {
    if logs == [] then 0 else Total(logs[..|logs| - 1]) + logs[|logs| - 1].amount as int
  }

  /** The total of a concatenation is the sum of the totals. */
  lemma {:induction false} TotalConcat(a: seq<DrinkLog>, b: seq<DrinkLog>)
    ensures Total(a + b) == Total(a) + Total(b)
  {
    if b != [] {
      var b' := b[..|b| - 1];
      assert (a + b)[..|a + b| - 1] == a + b';
      TotalConcat(a, b');
    } else {
      assert a + b == a;
    }
  }

  /** Putting a record in front adds exactly its amount to the total. */
  lemma TotalPrepend(log: DrinkLog, logs: seq<DrinkLog>)
    ensures Total([log] + logs) == log.amount as int + Total(logs)
  {
    TotalConcat([log], logs);
    assert [log][..0] == [];
  }

  /** A ratio `num / den` with `den > 0`. */
  datatype Fraction = Fraction(num: int, den: int)

  /**
   * The fraction of the goal reached: 0 when the goal is 0, otherwise
   * `min(1, total / goal)`. The source does not clamp from below, so a
   * negative total against a positive goal gives a negative fraction.
   */
  function ProgressOf(total: int, goal: int): (p: Fraction)
    ensures p.den > 0
    // never above 1
    ensures p.num <= p.den
    ensures goal == 0 ==> p.num == 0
    // capped at 1 exactly when the goal is reached
    ensures goal > 0 ==> (p.num == p.den <==> total >= goal)
    ensures goal < 0 ==> (p.num == p.den <==> total <= goal)
    // otherwise it is the ratio itself, and never more than it
    ensures goal != 0 ==> p.num == p.den || p.num * goal == total * p.den
    ensures goal > 0 ==> p.num * goal <= total * p.den
    ensures goal < 0 ==> p.num * goal >= total * p.den
    // not clamped below
    ensures goal > 0 && total < 0 ==> p.num < 0
  {
    if goal == 0 then Fraction(0, 1)
    else
      var (n, d) := if goal > 0 then (total, goal) else (-total, -goal);
      if n >= d then Fraction(1, 1) else Fraction(n, d)
  }

  // ---------------------------------------------------------------------
  // Persistence and the daily reset, on values

  /** The persisted slot after `saveLogs`: the new encoding, or the old data if encoding fails. */
  function Persisted(prior: Data, logs: seq<DrinkLog>): (d: Data)
    ensures Encodable(logs) ==> Decode(d) == Some(logs)
    ensures !Encodable(logs) ==> d == prior
  {
    if Encodable(logs) then DecodeEncode(logs); Encode(logs).value else prior
  }

  /** The list after `loadLogs`: the decoded list, or the old list if decoding fails. */
  function Restored(prior: seq<DrinkLog>, data: Data): (logs: seq<DrinkLog>)
    ensures Decode(data).None? ==> logs == prior
    ensures Decode(data).Some? ==> logs == Decode(data).value
    // in the word model, a successful load yields records that save back to the very same data
    ensures Decode(data).Some? ==> Encodable(logs) && Persisted(data, logs) == data
  {
    match Decode(data)
    case None => prior
    case Some(decoded) => EncodeDecode(data); decoded
  }

  /** The records and the persisted slot together. */
  datatype Snapshot = Snapshot(logs: seq<DrinkLog>, data: Data)

  /** The reset is due when there is a most recent record and it is not dated today. */
  predicate ResetDue(logs: seq<DrinkLog>, isToday: Date -> bool) {
    logs != [] && !isToday(logs[0].date)
  }

  /** The effect of `checkAndResetLogs`. */
  function ResetStep(s: Snapshot, isToday: Date -> bool): (r: Snapshot)
    // afterwards no stale record is at the front
    ensures r.logs == [] || isToday(r.logs[0].date)
    // the list is cleared exactly when its first record is from another day
    ensures r.logs == [] <==> s.logs == [] || !isToday(s.logs[0].date)
    ensures r.logs != [] ==> r == s
    ensures s.logs == [] ==> r == s
    // a clearing reset persists the empty list
    ensures s.logs != [] && r.logs == [] ==> Decode(r.data) == Some([])
  {
    if ResetDue(s.logs, isToday) then Snapshot([], Persisted(s.data, [])) else s
  }

  /** Checking twice has the same effect as checking once. */
  lemma ResetIdempotent(s: Snapshot, isToday: Date -> bool)
    ensures ResetStep(ResetStep(s, isToday), isToday) == ResetStep(s, isToday)
  {
  }

  /** Only the first record matters: two lists with the same first date reset alike. */
  lemma ResetLooksAtHeadOnly(s: Snapshot, t: Snapshot, isToday: Date -> bool)
    requires s.logs != [] && t.logs != [] && s.logs[0].date == t.logs[0].date
    ensures ResetStep(s, isToday).logs == [] <==> ResetStep(t, isToday).logs == []
  {
  }

  // ---------------------------------------------------------------------
  // The store

  class WaterData {
    /** Daily goal in millilitres (persisted under "targetGoal"). */
    var targetGoal: Int64
    /** Today's records, newest first. */
    var dailyLogs: seq<DrinkLog>
    /** The persisted encoding of the records (slot "dailyLogsData"). */
    var dailyLogsData: Data

    function State(): Snapshot
      reads this
    {
      Snapshot(dailyLogs, dailyLogsData)
    }

    /** `totalToday`. */
    function TotalToday(): (t: int)
      reads this
      ensures dailyLogs == [] ==> t == 0
    {
      Total(dailyLogs)
    }

    /** `progress`, as an exact fraction. */
    function Progress(): (p: Fraction)
      reads this
      ensures p.den > 0 && p.num <= p.den
      ensures targetGoal == 0 ==> p.num == 0
      ensures targetGoal > 0 ==> (p.num == p.den <==> TotalToday() >= targetGoal as int)
      ensures targetGoal < 0 ==> (p.num == p.den <==> TotalToday() <= targetGoal as int)
      ensures targetGoal > 0 && TotalToday() < 0 ==> p.num < 0
    {
      ProgressOf(TotalToday(), targetGoal as int)
    }

    /**
     * `init()`: the stored properties start from the persisted slots (goal
     * 2000 and empty data when absent), then the records are loaded and the
     * day is checked.
     */
    constructor (storedGoal: Option<Int64>, storedData: Option<Data>, isToday: Date -> bool)
      ensures targetGoal == storedGoal.GetOr(DEFAULT_GOAL)
      ensures State() == ResetStep(Snapshot(Restored([], storedData.GetOr([])), storedData.GetOr([])), isToday)
      ensures dailyLogs == [] || isToday(dailyLogs[0].date)
    {
      targetGoal := storedGoal.GetOr(DEFAULT_GOAL);
      dailyLogs := [];
      dailyLogsData := storedData.GetOr([]);
      new;
      LoadLogs();
      CheckAndResetLogs(isToday);
    }

    /** `addLog(amount:)`: a new record at the front, then save. Any amount is accepted. */
    method AddLog(amount: Int64, now: Date, id: Uuid)
      modifies this`dailyLogs, this`dailyLogsData
      ensures dailyLogs == [DrinkLog(id, now, amount)] + old(dailyLogs)
      ensures |dailyLogs| == |old(dailyLogs)| + 1
      ensures dailyLogs[0].amount == amount && dailyLogs[0].date == now
      ensures forall i :: 0 <= i < |old(dailyLogs)| ==> dailyLogs[i + 1] == old(dailyLogs)[i]
      ensures TotalToday() == old(TotalToday()) + amount as int
      ensures dailyLogsData == Persisted(old(dailyLogsData), dailyLogs)
      ensures now.At? && Encodable(old(dailyLogs)) ==> Decode(dailyLogsData) == Some(dailyLogs)
      ensures old(DistinctIds(dailyLogs)) && IdFresh(id, old(dailyLogs)) ==> DistinctIds(dailyLogs)
    {
      var newLog := DrinkLog(id, now, amount);
      TotalPrepend(newLog, dailyLogs);
      if DistinctIds(dailyLogs) && IdFresh(id, dailyLogs) {
        PrependFreshKeepsDistinct(newLog, dailyLogs);
      }
      dailyLogs := [newLog] + dailyLogs;
      SaveLogs();
    }

    /** `checkAndResetLogs()`: clear and save when the most recent record is not from today. */
    method CheckAndResetLogs(isToday: Date -> bool)
      modifies this`dailyLogs, this`dailyLogsData
      ensures State() == ResetStep(old(State()), isToday)
      ensures dailyLogs == [] || isToday(dailyLogs[0].date)
    {
      if dailyLogs == [] {
        return;
      }
      var lastLogDate := dailyLogs[0].date;
      if !isToday(lastLogDate) {
        dailyLogs := [];
        SaveLogs();
      }
    }

    /**
     * The "delete all records" action of the settings screen
     * (View/SettingsView.swift): empty the list, then save.
     */
    method ClearAll()
      modifies this`dailyLogs, this`dailyLogsData
      ensures dailyLogs == [] && TotalToday() == 0
      ensures Decode(dailyLogsData) == Some([])
    {
      dailyLogs := [];
      SaveLogs();
    }

    /** `saveLogs()`: encode the list into the slot; on failure the slot keeps its old data. */
    method SaveLogs()
      modifies this`dailyLogsData
      ensures dailyLogsData == Persisted(old(dailyLogsData), dailyLogs)
    {
      var encoded := Encode(dailyLogs);
      if encoded.Some? {
        dailyLogsData := encoded.value;
      }
    }

    /** `loadLogs()`: decode the slot into the list; on failure the list is left as it was. */
    method LoadLogs()
      modifies this`dailyLogs
      ensures dailyLogs == Restored(old(dailyLogs), dailyLogsData)
    {
      var decoded := Decode(dailyLogsData);
      if decoded.Some? {
        dailyLogs := decoded.value;
      }
    }
  }

  /**
   * A day of use as a caller sees it: fresh start, two quick-add presses,
   * then the settings screen's "delete all".
   */
  method DailyScenario(isToday: Date -> bool)
  {
    var store := new WaterData(None, None, isToday);
    assert store.dailyLogs == [] && store.targetGoal == 2000;
    store.AddLog(200, At(100), 1);
    store.AddLog(500, At(200), 2);
    assert store.dailyLogs[0].amount == 500 && store.dailyLogs[1].amount == 200;
    assert store.TotalToday() == 700;
    assert store.Progress() == Fraction(700, 2000);
    assert DistinctIds(store.dailyLogs);
    store.ClearAll();
    assert store.TotalToday() == 0 && store.Progress() == Fraction(0, 2000);
  }
}
