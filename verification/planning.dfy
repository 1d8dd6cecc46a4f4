/** Planned units and the check every plan passes (finite/contracts.py). */
module Planning {
  import opened Wrappers

  type Positive = n: int | n >= 1 witness 1

  type Timeout = n: int | 1 <= n <= 3600 witness 300

  /** A unit of a plan; its constructor enforces the bounds of the two numbers. */
  datatype ExecutionUnit<+P> = ExecutionUnit(key: string, payload: P, timeout: Timeout, maxAttempts: Positive)

  /** What is stored of a planned unit to recognise it again. */
  datatype PlanningRecord = PlanningRecord(ordinal: nat, key: string, digest: string)

  datatype PlanError =
    | PlanCancelled
    | DuplicateUnitKey(key: string, firstDigest: string, nextDigest: string)
    | PlanDrift(expectedCount: nat, actualCount: nat)

  predicate NameStart(c: char) {
    'A' <= c <= 'Z' || 'a' <= c <= 'z' || '0' <= c <= '9'
  }

  predicate NameChar(c: char) {
    NameStart(c) || c == '.' || c == '_' || c == ':' || c == '/' || c == '-'
  }

  /** The names the unit constructor accepts for its key. */
  predicate IsContractName(s: string) {
    s != [] && NameStart(s[0]) && forall i :: 0 <= i < |s| ==> NameChar(s[i])
  }

  function Records<P>(units: seq<ExecutionUnit<P>>, digest: P -> string): (rs: seq<PlanningRecord>)
    ensures |rs| == |units|
  {
    if units == [] then [] else Records(units[..|units| - 1], digest) + [RecordAt(units, |units| - 1, digest)]
  }

  function RecordAt<P>(units: seq<ExecutionUnit<P>>, i: nat, digest: P -> string): PlanningRecord
    requires i < |units|
  {
    PlanningRecord(i, units[i].key, digest(units[i].payload))
  }

  lemma {:induction false} RecordsAreByPosition<P>(units: seq<ExecutionUnit<P>>, digest: P -> string, i: nat)
    requires i < |units|
    ensures Records(units, digest)[i] == PlanningRecord(i, units[i].key, digest(units[i].payload))
  {
    if i < |units| - 1 {
      RecordsAreByPosition(units[..|units| - 1], digest, i);
    }
  }

  predicate DistinctUnitKeys<P>(units: seq<ExecutionUnit<P>>) {
    forall i, j :: 0 <= i < j < |units| ==> units[i].key != units[j].key
  }

  /** Unit `j` is the first whose key repeats an earlier one. */
  predicate FirstRepeat<P>(units: seq<ExecutionUnit<P>>, i: nat, j: nat) {
    i < j < |units| && units[i].key == units[j].key && DistinctUnitKeys(units[..j])
  }

  predicate Accepted<P>(units: seq<ExecutionUnit<P>>, digest: P -> string, expected: Option<seq<PlanningRecord>>) {
    DistinctUnitKeys(units) && (expected.Some? ==> Records(units, digest) == expected.value)
  }

  /** None of the first `n` readings of the token said cancelled. */
  ghost predicate NotCancelled(cancelled: nat -> bool, n: nat) {
    forall c: nat :: c < n ==> !cancelled(c)
  }

  /** The first problem a plan has: reading `j + 1` of the token belongs to unit `j`, the last one to the end. */
  ghost predicate Explains<P>(units: seq<ExecutionUnit<P>>, digest: P -> string,
                              expected: Option<seq<PlanningRecord>>, cancelled: nat -> bool, error: PlanError) {
    match error
    case PlanCancelled =>
      exists c: nat :: c <= |units| + 1 && cancelled(c) && NotCancelled(cancelled, c) && (c > 0 ==> DistinctUnitKeys(units[..c - 1]))
    case DuplicateUnitKey(key, first, next) =>
      exists i: nat, j: nat :: FirstRepeat(units, i, j) && NotCancelled(cancelled, j + 2) &&
        key == units[j].key && first == digest(units[i].payload) && next == digest(units[j].payload)
    case PlanDrift(wanted, got) =>
      DistinctUnitKeys(units) && NotCancelled(cancelled, |units| + 2) && expected.Some? &&
        Records(units, digest) != expected.value && wanted == |expected.value| && got == |units|
  }

  /** A plan has such a problem exactly when it is not accepted. */
  lemma {:induction false} RefusedHasAReason<P>(units: seq<ExecutionUnit<P>>, digest: P -> string,
                                                expected: Option<seq<PlanningRecord>>, cancelled: nat -> bool,
                                                error: PlanError)
    requires Explains(units, digest, expected, cancelled, error)
    ensures !(Accepted(units, digest, expected) && NotCancelled(cancelled, |units| + 2))
  {
  }

  /** The keys met so far with their digests. */
  ghost predicate Seen<P>(units: seq<ExecutionUnit<P>>, digest: P -> string, seen: map<string, string>) {
    && (forall i :: 0 <= i < |units| ==> units[i].key in seen && seen[units[i].key] == digest(units[i].payload))
    && (forall k :: k in seen ==> exists i :: 0 <= i < |units| && units[i].key == k)
  }

  lemma {:induction false} KeysSeen<P>(units: seq<ExecutionUnit<P>>, digest: P -> string,
                                       seen: map<string, string>, unit: ExecutionUnit<P>)
    requires Seen(units, digest, seen) && unit.key !in seen
    ensures Seen(units + [unit], digest, seen[unit.key := digest(unit.payload)])
  {
    var more := units + [unit];
    assert more[..|units|] == units;
    var seen2 := seen[unit.key := digest(unit.payload)];
    forall k | k in seen2 ensures exists i :: 0 <= i < |more| && more[i].key == k {
      if k == unit.key {
        assert more[|units|].key == k;
      } else {
        var i :| 0 <= i < |units| && units[i].key == k;
        assert more[i].key == k;
      }
    }
  }

  lemma {:induction false} SeenOneMore<P>(units: seq<ExecutionUnit<P>>, digest: P -> string,
                                          seen: map<string, string>, unit: ExecutionUnit<P>)
    requires Seen(units, digest, seen) && DistinctUnitKeys(units) && unit.key !in seen
    ensures Seen(units + [unit], digest, seen[unit.key := digest(unit.payload)])
    ensures DistinctUnitKeys(units + [unit])
    ensures Records(units + [unit], digest) == Records(units, digest) + [PlanningRecord(|units|, unit.key, digest(unit.payload))]
  {
    KeysSeen(units, digest, seen, unit);
    assert (units + [unit])[..|units|] == units;
  }

  lemma {:induction false} RepeatFound<P>(units: seq<ExecutionUnit<P>>, digest: P -> string,
                                          expected: Option<seq<PlanningRecord>>, cancelled: nat -> bool,
                                          seen: map<string, string>, j: nat)
    requires j < |units| && Seen(units[..j], digest, seen) && DistinctUnitKeys(units[..j])
    requires NotCancelled(cancelled, j + 2)
    requires units[j].key in seen
    ensures Explains(units, digest, expected, cancelled, DuplicateUnitKey(units[j].key, seen[units[j].key], digest(units[j].payload)))
  {
    var i :| 0 <= i < j && units[..j][i].key == units[j].key;
    assert FirstRepeat(units, i, j);
  }

  /** What the loop has after `j` units without a problem. */
  ghost predicate Consumed<P>(planned: seq<ExecutionUnit<P>>, digest: P -> string, cancelled: nat -> bool, j: nat,
                              records: seq<PlanningRecord>, seen: map<string, string>) {
    && j <= |planned| && records == Records(planned[..j], digest) && DistinctUnitKeys(planned[..j])
    && Seen(planned[..j], digest, seen) && NotCancelled(cancelled, j + 1)
  }

  lemma {:induction false} ConsumeOne<P>(planned: seq<ExecutionUnit<P>>, digest: P -> string, cancelled: nat -> bool,
                                         j: nat, records: seq<PlanningRecord>, seen: map<string, string>)
    requires Consumed(planned, digest, cancelled, j, records, seen)
    requires j < |planned| && !cancelled(j + 1) && planned[j].key !in seen
    ensures var unit := planned[j];
            Consumed(planned, digest, cancelled, j + 1, records + [PlanningRecord(|records|, unit.key, digest(unit.payload))],
                     seen[unit.key := digest(unit.payload)])
  {
    assert planned[..j + 1] == planned[..j] + [planned[j]];
    SeenOneMore(planned[..j], digest, seen, planned[j]);
  }

  lemma {:induction false} ConsumeFails<P>(planned: seq<ExecutionUnit<P>>, digest: P -> string,
                                           expected: Option<seq<PlanningRecord>>, cancelled: nat -> bool, j: nat,
                                           records: seq<PlanningRecord>, seen: map<string, string>)
    requires Consumed(planned, digest, cancelled, j, records, seen) && j < |planned|
    ensures cancelled(j + 1) ==> Explains(planned, digest, expected, cancelled, PlanCancelled)
    ensures !cancelled(j + 1) && planned[j].key in seen ==>
              Explains(planned, digest, expected, cancelled, DuplicateUnitKey(planned[j].key, seen[planned[j].key], digest(planned[j].payload)))
  {
    if cancelled(j + 1) {
    } else if planned[j].key in seen {
      RepeatFound(planned, digest, expected, cancelled, seen, j);
    }
  }

  /** The loop over the planner's units: it records them, or stops at the first problem of one of them. */
  method Materialize<P>(planned: seq<ExecutionUnit<P>>, digest: P -> string, cancelled: nat -> bool,
                        ghost expected: Option<seq<PlanningRecord>>)
    returns (error: Option<PlanError>, records: seq<PlanningRecord>)
    requires !cancelled(0)
    ensures error.Some? ==> Explains(planned, digest, expected, cancelled, error.value)
    ensures error.None? ==>
              records == Records(planned, digest) && DistinctUnitKeys(planned) && NotCancelled(cancelled, |planned| + 1)
  {
    var seen := map[];
    records := [];
    for j := 0 to |planned|
      invariant Consumed(planned, digest, cancelled, j, records, seen)
    {
      ConsumeFails(planned, digest, expected, cancelled, j, records, seen);
      if cancelled(j + 1) {
        return Some(PlanCancelled), records;
      }
      var unit := planned[j];
      if unit.key in seen {
        return Some(DuplicateUnitKey(unit.key, seen[unit.key], digest(unit.payload))), records;
      }
      ConsumeOne(planned, digest, cancelled, j, records, seen);
      seen := seen[unit.key := digest(unit.payload)];
      records := records + [PlanningRecord(|records|, unit.key, digest(unit.payload))];
    }
    assert planned[..|planned|] == planned;
    error := None;
  }

  /** The planner's units, or the first problem of the plan. */
  method ValidatePlan<P>(planned: seq<ExecutionUnit<P>>, digest: P -> string, expected: Option<seq<PlanningRecord>>,
                         cancelled: nat -> bool)
    returns (result: Result<seq<ExecutionUnit<P>>, PlanError>)
    ensures result.Success? ==>
              result.value == planned && Accepted(planned, digest, expected) && NotCancelled(cancelled, |planned| + 2)
    ensures result.Failure? ==> Explains(planned, digest, expected, cancelled, result.error)
  {
    if cancelled(0) {
      return Failure(PlanCancelled);
    }
    var error, records := Materialize(planned, digest, cancelled, expected);
    if error.Some? {
      return Failure(error.value);
    }
    if cancelled(|planned| + 1) {
      assert planned[..|planned|] == planned;
      return Failure(PlanCancelled);
    }
    if expected.Some? && records != expected.value {
      return Failure(PlanDrift(|expected.value|, |records|));
    }
    result := Success(planned);
  }

  predicate SameUnits<P>(a: seq<ExecutionUnit<P>>, b: seq<ExecutionUnit<P>>, digest: P -> string) {
    |a| == |b| && forall i :: 0 <= i < |b| ==> a[i].key == b[i].key && digest(a[i].payload) == digest(b[i].payload)
  }

  /**
   A planner retry passes against the stored records exactly when it emits the same units in the same order, as
   far as the digest tells payloads apart.
   */
  lemma {:induction false} DriftIsExact<P>(stored: seq<ExecutionUnit<P>>, replanned: seq<ExecutionUnit<P>>,
                                           digest: P -> string)
    requires DistinctUnitKeys(stored)
    ensures Accepted(replanned, digest, Some(Records(stored, digest))) <==> SameUnits(replanned, stored, digest)
  {
    var rs, ss := Records(replanned, digest), Records(stored, digest);
    if |replanned| == |stored| {
      forall i | 0 <= i < |ss| ensures rs[i] == RecordAt(replanned, i, digest) && ss[i] == RecordAt(stored, i, digest) {
        RecordsAreByPosition(replanned, digest, i);
        RecordsAreByPosition(stored, digest, i);
      }
      if SameUnits(replanned, stored, digest) {
        assert rs == ss;
      } else {
        var i :| 0 <= i < |ss| && !(replanned[i].key == stored[i].key && digest(replanned[i].payload) == digest(stored[i].payload));
        assert rs[i] != ss[i];
      }
    }
  }
}
