/** The dedup keys of wakeups (control/planner.py, control/dispatcher.py): joined strings whose parts may hold the separator. */
module WakeupKeys {
  import opened Wrappers
  import opened FiniteTables
  import opened Outbox
  import Text

  function Name(u: UnitId): string {
    u.run + [':'] + u.key
  }

  function Suffix(attempt: nat): string {
    ":retry" + [':'] + Text.Decimal(attempt)
  }

  function DedupKey(k: DispatchKey): string {
    match k
    case FirstDispatch(u) => Name(u)
    case RetryDispatch(u, attempt) => Name(u) + Suffix(attempt)
  }

  /** The unit is called like the retry of another one. */
  predicate Shadows(u: UnitId, v: UnitId, attempt: nat) {
    Name(u) == Name(v) + Suffix(attempt)
  }

  lemma RetriesNameTheirUnit(u: UnitId, m: nat, v: UnitId, n: nat)
    ensures Name(u) + Suffix(m) == Name(v) + Suffix(n) <==> Name(u) == Name(v) && m == n
  {
    if Name(u) + Suffix(m) == Name(v) + Suffix(n) {
      var a, b := Name(u) + ":retry", Name(v) + ":retry";
      assert Name(u) + Suffix(m) == a + [':'] + Text.Decimal(m);
      assert Name(v) + Suffix(n) == b + [':'] + Text.Decimal(n);
      Text.SplitAtLastSeparator(a, b, Text.Decimal(m), Text.Decimal(n), ':');
      Text.DecimalIsInjective(m, n);
      assert Name(u) == a[..|a| - 6] && Name(v) == b[..|b| - 6];
    }
  }

  /**
   Exactly which wakeups share an outbox row: two first ones of units whose joined names agree, two retries of such
   units after the same attempt, and a first one with the retry its unit is called like.
   */
  lemma WakeupsConverge(j: DispatchKey, k: DispatchKey)
    ensures DedupKey(j) == DedupKey(k) <==>
            match (j, k)
            case (FirstDispatch(u), FirstDispatch(v)) => Name(u) == Name(v)
            case (RetryDispatch(u, m), RetryDispatch(v, n)) => Name(u) == Name(v) && m == n
            case (FirstDispatch(u), RetryDispatch(v, n)) => Shadows(u, v, n)
            case (RetryDispatch(u, m), FirstDispatch(v)) => Shadows(v, u, m)
  {
    if j.RetryDispatch? && k.RetryDispatch? {
      RetriesNameTheirUnit(j.unit, j.attempt, k.unit, k.attempt);
    }
  }

  lemma SamePrefix(a: string, x: string, y: string)
    requires a + x == a + y
    ensures x == y
  {
    assert x == (a + x)[|a|..] && y == (a + y)[|a|..];
  }

  /** Within one run the name is the unit's; a run whose id holds no separator shares no name with such a run either. */
  lemma NamesAreUnits(u: UnitId, v: UnitId)
    requires u.run == v.run || (':' !in u.run && ':' !in v.run)
    ensures Name(u) == Name(v) <==> u == v
  {
    if Name(u) == Name(v) {
      if u.run == v.run {
        SamePrefix(u.run + [':'], u.key, v.key);
      } else {
        Text.SplitAtSeparator(u.run, v.run, u.key, v.key, ':');
      }
    }
  }

  /** So within a run only a unit called like another one's retry takes its row, whatever the keys hold otherwise. */
  lemma {:induction false} WakeupsOfOneRun(j: DispatchKey, k: DispatchKey)
    requires j.unit.run == k.unit.run
    ensures DedupKey(j) == DedupKey(k) <==>
            || j == k
            || (j.FirstDispatch? && k.RetryDispatch? && j.unit.key == k.unit.key + Suffix(k.attempt))
            || (k.FirstDispatch? && j.RetryDispatch? && k.unit.key == j.unit.key + Suffix(j.attempt))
  {
    WakeupsConverge(j, k);
    NamesAreUnits(j.unit, k.unit);
    if j.FirstDispatch? && k.RetryDispatch? {
      ShadowsByKey(j.unit, k.unit, k.attempt);
    }
    if k.FirstDispatch? && j.RetryDispatch? {
      ShadowsByKey(k.unit, j.unit, j.attempt);
    }
  }

  lemma ShadowsByKey(u: UnitId, v: UnitId, attempt: nat)
    requires u.run == v.run
    ensures Shadows(u, v, attempt) <==> u.key == v.key + Suffix(attempt)
  {
    var front := u.run + [':'];
    assert Name(v) + Suffix(attempt) == front + (v.key + Suffix(attempt));
    if Shadows(u, v, attempt) {
      SamePrefix(front, u.key, v.key + Suffix(attempt));
    }
  }

  function WakeupRow(k: DispatchKey): MessageKey {
    MessageKey("unit_dispatch", DedupKey(k))
  }

  /** For instance unit "u:retry:1" keeps the first retry of unit "u" from ever getting a row of its own. */
  lemma RetryCanLoseItsWakeup(b: Box, run: RunId, destination: string, envelope: string)
    requires WakeupRow(FirstDispatch(UnitId(run, "u:retry:1"))) in b.rows
    ensures InsertRow(b, WakeupRow(RetryDispatch(UnitId(run, "u"), 1)), destination, envelope, None).rows == b.rows
  {
    var first, retry := FirstDispatch(UnitId(run, "u:retry:1")), RetryDispatch(UnitId(run, "u"), 1);
    assert Text.Decimal(1) == "1";
    assert "u" + Suffix(1) == "u:retry:1";
    WakeupsOfOneRun(first, retry);
    var k := WakeupRow(retry);
    assert b.rows[k := b.rows[k]] == b.rows;
  }
}
