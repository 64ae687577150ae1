/** The migration runner: versions in order, a checksum for each recorded version, and a connection that
    may be lost after any statement.  A migration is seen here as the database objects its statements
    make, so that what survives a lost connection and what a rerun meets can be told apart. */
module MigrationRunner {

  /** How a statement behaves when its object is there already. */
  datatype Guard =
    | Bare     // DDL that MySQL then refuses: ADD COLUMN, CREATE TABLE without IF NOT EXISTS
    | Tolerant // DDL that then does nothing: CREATE TABLE IF NOT EXISTS, MODIFY to the same type
    | Checked  // DDL that the program only sends after reading information_schema
    | Data     // a row statement that may be repeated

  datatype Step = Step(makes: string, guard: Guard)

  /** `inTransaction` marks the general path of `apply`; the resume functions commit each statement. */
  datatype Migration = Migration(version: nat, checksum: string, inTransaction: bool, steps: seq<Step>)

  datatype Store = Store(objects: set<string>, recorded: map<nat, string>)
  datatype Outcome = Done | Interrupted | Rejected | Mismatch
  datatype Run = Run(store: Store, budget: nat, outcome: Outcome)

  function Objects(steps: seq<Step>): set<string> {
    set k | 0 <= k < |steps| :: steps[k].makes
  }

  /** The rest of one migration from step k.  `pending` is what an open transaction still holds back;
      a DDL statement commits it first, even if it is then refused; a lost connection drops it. */
  function ApplyFrom(m: Migration, k: nat, store: Store, pending: set<string>, budget: nat): Run
    requires k <= |m.steps|
    decreases |m.steps| - k
  {
    if k == |m.steps| then
      if budget == 0 then Run(store, 0, Interrupted)
      else Run(Store(store.objects + pending, store.recorded[m.version := m.checksum]), budget - 1, Done)
    else
      var step := m.steps[k];
      if step.guard == Checked && step.makes in store.objects then ApplyFrom(m, k + 1, store, pending, budget)
      else if budget == 0 then Run(store, 0, Interrupted)
      else if step.guard == Bare && step.makes in store.objects + pending then Run(store.(objects := store.objects + pending), budget, Rejected)
      else if step.guard == Data && m.inTransaction then ApplyFrom(m, k + 1, store, pending + {step.makes}, budget - 1)
      else ApplyFrom(m, k + 1, store.(objects := store.objects + pending + {step.makes}), {}, budget - 1)
  }

  function RunFrom(items: seq<Migration>, i: nat, store: Store, budget: nat): Run
    requires i <= |items|
    decreases |items| - i
  {
    if i == |items| then Run(store, budget, Done)
    else if items[i].version in store.recorded then
      if store.recorded[items[i].version] != items[i].checksum then Run(store, budget, Mismatch)
      else RunFrom(items, i + 1, store, budget)
    else
      var r := ApplyFrom(items[i], 0, store, {}, budget);
      if r.outcome != Done then r else RunFrom(items, i + 1, r.store, r.budget)
  }

  function AfterRuns(items: seq<Migration>, store: Store, budgets: seq<nat>): Store
    decreases |budgets|
  {
    if budgets == [] then store else AfterRuns(items, RunFrom(items, 0, store, budgets[0]).store, budgets[1..])
  }

  // ---------------------------------------------------------------- transactions and guards

  /** Rows written in a transaction are there together with the version's record, or not at all. */
  lemma {:induction false} RowsComeTogether(m: Migration, k: nat, store: Store, pending: set<string>, budget: nat)
    requires k <= |m.steps| && m.inTransaction && forall i :: k <= i < |m.steps| ==> m.steps[i].guard == Data
    ensures var r := ApplyFrom(m, k, store, pending, budget);
      && (r.outcome != Done ==> r.store == store)
      && (r.outcome == Done ==>
            r.store.objects == store.objects + pending + Objects(m.steps[k..]) && r.store.recorded == store.recorded[m.version := m.checksum])
    decreases |m.steps| - k
  {
    if k == |m.steps| {
      assert m.steps[k..] == [];
    } else {
      RowsComeTogether(m, k + 1, store, pending + {m.steps[k].makes}, if budget == 0 then 0 else budget - 1);
      assert m.steps[k..] == [m.steps[k]] + m.steps[k + 1..];
      ObjectsOfFirst(m.steps[k], m.steps[k + 1..]);
    }
  }

  /** Where the program asks first and everything is there, nothing is sent but the record. */
  lemma {:induction false} PresentIsOnlyRecorded(m: Migration, k: nat, store: Store, budget: nat)
    requires k <= |m.steps| && forall i :: k <= i < |m.steps| ==> m.steps[i].guard == Checked && m.steps[i].makes in store.objects
    ensures ApplyFrom(m, k, store, {}, budget) ==
      if budget == 0 then Run(store, 0, Interrupted) else Run(store.(recorded := store.recorded[m.version := m.checksum]), budget - 1, Done)
    decreases |m.steps| - k
  {
    if k == |m.steps| { assert store.objects + {} == store.objects; } else { PresentIsOnlyRecorded(m, k + 1, store, budget); }
  }

  /** Where MySQL refuses a DDL statement, the rows written before it in the same transaction stay, and the version is not
      recorded. */
  lemma {:induction false} RefusalKeepsRows(m: Migration, k: nat, end: nat, store: Store, pending: set<string>, budget: nat)
    requires k <= end < |m.steps| && m.inTransaction && budget > end - k
    requires forall i :: k <= i < end ==> m.steps[i].guard == Data
    requires m.steps[end].guard == Bare && m.steps[end].makes in store.objects + pending + Objects(m.steps[k..end])
    ensures ApplyFrom(m, k, store, pending, budget)
         == Run(store.(objects := store.objects + pending + Objects(m.steps[k..end])), budget - (end - k), Rejected)
    decreases end - k
  {
    if k == end {
      assert m.steps[k..end] == [];
      assert store.objects + pending + {} == store.objects + pending;
    } else {
      RefusalKeepsRows(m, k + 1, end, store, pending + {m.steps[k].makes}, budget - 1);
      assert m.steps[k..end] == [m.steps[k]] + m.steps[k + 1..end];
      ObjectsOfFirst(m.steps[k], m.steps[k + 1..end]);
      assert store.objects + (pending + {m.steps[k].makes}) + Objects(m.steps[k + 1..end])
          == store.objects + pending + Objects(m.steps[k..end]);
    }
  }

  lemma ObjectsOfFirst(first: Step, rest: seq<Step>)
    ensures Objects([first] + rest) == {first.makes} + Objects(rest)
  {
    var steps := [first] + rest;
    assert steps[0] == first;
    forall o | o in Objects(rest) ensures o in Objects(steps) {
      var j :| 0 <= j < |rest| && rest[j].makes == o;
      assert steps[j + 1].makes == o;
    }
  }

  // ---------------------------------------------------------------- the recorded versions are a prefix

  /** `load` sorts by version; two files of one version would answer for each other. */
  predicate Ordered(items: seq<Migration>) {
    forall i, j :: 0 <= i < j < |items| ==> items[i].version < items[j].version
  }

  /** Exactly the first n versions are recorded, with their checksums, and all they make is there. */
  predicate PrefixRecorded(items: seq<Migration>, n: nat, store: Store) {
    && n <= |items|
    && (forall i :: 0 <= i < n ==> items[i].version in store.recorded && store.recorded[items[i].version] == items[i].checksum)
    && (forall i :: n <= i < |items| ==> items[i].version !in store.recorded)
    && (forall i :: 0 <= i < n ==> Objects(items[i].steps) <= store.objects)
  }

  lemma {:induction false} ApplyKeeps(m: Migration, k: nat, store: Store, pending: set<string>, budget: nat)
    requires k <= |m.steps| && Objects(m.steps[..k]) <= store.objects + pending
    ensures var r := ApplyFrom(m, k, store, pending, budget);
      && store.objects <= r.store.objects && r.budget <= budget && r.outcome != Mismatch
      && (r.outcome != Done ==> r.store.recorded == store.recorded)
      && (r.outcome == Done ==> r.store.recorded == store.recorded[m.version := m.checksum] && Objects(m.steps) <= r.store.objects)
    decreases |m.steps| - k
  {
    if k == |m.steps| {
      assert m.steps[..k] == m.steps;
    } else {
      var step := m.steps[k];
      assert Objects(m.steps[..k + 1]) <= Objects(m.steps[..k]) + {step.makes};
      if step.guard == Checked && step.makes in store.objects {
        ApplyKeeps(m, k + 1, store, pending, budget);
      } else if budget == 0 || (step.guard == Bare && step.makes in store.objects + pending) {
      } else if step.guard == Data && m.inTransaction {
        ApplyKeeps(m, k + 1, store, pending + {step.makes}, budget - 1);
      } else {
        ApplyKeeps(m, k + 1, store.(objects := store.objects + pending + {step.makes}), {}, budget - 1);
      }
    }
  }

  /** A run cut off anywhere leaves a prefix recorded, never a shorter one; what is made stays made;
      and a run that ends well has recorded everything. */
  lemma {:induction false} RunKeepsPrefix(items: seq<Migration>, i: nat, store: Store, n: nat, budget: nat) returns (n': nat)
    requires Ordered(items) && PrefixRecorded(items, n, store) && i <= n
    ensures var r := RunFrom(items, i, store, budget);
      && n <= n' && PrefixRecorded(items, n', r.store) && store.objects <= r.store.objects
      && (r.outcome == Done ==> n' == |items|)
      && r.outcome != Mismatch
    decreases |items| - i
  {
    n' := n;
    if i == |items| {
    } else if i < n {
      n' := RunKeepsPrefix(items, i + 1, store, n, budget);
    } else {
      assert items[i].steps[..0] == [];
      ApplyKeeps(items[i], 0, store, {}, budget);
      var r := ApplyFrom(items[i], 0, store, {}, budget);
      if r.outcome == Done {
        n' := RunKeepsPrefix(items, i + 1, r.store, n + 1, r.budget);
      }
    }
  }

  lemma {:induction false} SeriesKeepsPrefix(items: seq<Migration>, store: Store, n: nat, budgets: seq<nat>) returns (n': nat)
    requires Ordered(items) && PrefixRecorded(items, n, store)
    ensures n <= n' && PrefixRecorded(items, n', AfterRuns(items, store, budgets))
    ensures store.objects <= AfterRuns(items, store, budgets).objects
    decreases |budgets|
  {
    n' := n;
    if budgets != [] {
      n' := RunKeepsPrefix(items, 0, store, n, budgets[0]);
      n' := SeriesKeepsPrefix(items, RunFrom(items, 0, store, budgets[0]).store, n', budgets[1..]);
    }
  }

  /** Running again after everything is recorded sends no statement at all. */
  lemma {:induction false} RerunDoesNothing(items: seq<Migration>, i: nat, store: Store, budget: nat)
    requires i <= |items| && PrefixRecorded(items, |items|, store)
    ensures RunFrom(items, i, store, budget) == Run(store, budget, Done)
    decreases |items| - i
  {
    if i < |items| { RerunDoesNothing(items, i + 1, store, budget); }
  }

  /** A version makes nothing but its own objects. */
  lemma {:induction false} ApplyMakesOwn(m: Migration, k: nat, store: Store, pending: set<string>, budget: nat)
    requires k <= |m.steps|
    ensures ApplyFrom(m, k, store, pending, budget).store.objects <= store.objects + pending + Objects(m.steps)
    decreases |m.steps| - k
  {
    if k < |m.steps| {
      var step := m.steps[k];
      assert step.makes in Objects(m.steps);
      if step.guard == Checked && step.makes in store.objects {
        ApplyMakesOwn(m, k + 1, store, pending, budget);
      } else if budget == 0 || (step.guard == Bare && step.makes in store.objects + pending) {
      } else if step.guard == Data && m.inTransaction {
        ApplyMakesOwn(m, k + 1, store, pending + {step.makes}, budget - 1);
      } else {
        ApplyMakesOwn(m, k + 1, store.(objects := store.objects + pending + {step.makes}), {}, budget - 1);
      }
    }
  }

  /** What is new was made by one of the versions from i up to, and without, the one at `end`. */
  predicate MadeWithin(items: seq<Migration>, i: nat, end: nat, before: set<string>, after: set<string>)
    requires end <= |items|
  {
    forall o :: o in after - before ==> exists j :: i <= j < end && o in Objects(items[j].steps)
  }

  lemma MadeBy(items: seq<Migration>, i: nat, end: nat, before: set<string>, between: set<string>, after: set<string>)
    requires i < end <= |items| && between <= before + Objects(items[i].steps) && MadeWithin(items, i + 1, end, between, after)
    ensures MadeWithin(items, i, end, before, after)
  {
    forall o | o in after - before ensures exists j :: i <= j < end && o in Objects(items[j].steps) {
      if o in between {
        assert o in Objects(items[i].steps);
      } else {
        assert o in after - between;
      }
    }
  }

  /** A recorded version whose file has changed ends every run; no version behind it is recorded, and none of them, nor
      that version itself, makes anything. */
  lemma {:induction false} MismatchStopsTheRun(items: seq<Migration>, i: nat, bad: nat, store: Store, budget: nat)
    requires Ordered(items) && i <= bad < |items|
    requires items[bad].version in store.recorded && store.recorded[items[bad].version] != items[bad].checksum
    ensures var r := RunFrom(items, i, store, budget);
      && r.outcome != Done
      && (forall v :: v >= items[bad].version ==> (v in r.store.recorded <==> v in store.recorded))
      && MadeWithin(items, i, bad, store.objects, r.store.objects)
      && ((forall j :: i <= j < bad ==> items[j].version in store.recorded) ==> r == Run(store, budget, Mismatch))
    decreases |items| - i
  {
    if i < bad {
      if items[i].version in store.recorded {
        if store.recorded[items[i].version] == items[i].checksum {
          MismatchStopsTheRun(items, i + 1, bad, store, budget);
          MadeBy(items, i, bad, store.objects, store.objects, RunFrom(items, i + 1, store, budget).store.objects);
        }
      } else {
        assert items[i].steps[..0] == [];
        ApplyKeeps(items[i], 0, store, {}, budget);
        ApplyMakesOwn(items[i], 0, store, {}, budget);
        var r := ApplyFrom(items[i], 0, store, {}, budget);
        if r.outcome == Done {
          MismatchStopsTheRun(items, i + 1, bad, r.store, r.budget);
          MadeBy(items, i, bad, store.objects, r.store.objects, RunFrom(items, i + 1, r.store, r.budget).store.objects);
        } else {
          MadeBy(items, i, bad, store.objects, r.store.objects, r.store.objects);
        }
      }
    }
  }

  // ---------------------------------------------------------------- which interruptions can be resumed

  /** Every statement of every version makes its own object. */
  predicate DistinctObjects(items: seq<Migration>) {
    && (forall i, j, k :: 0 <= i < |items| && 0 <= j < k < |items[i].steps| ==> items[i].steps[j].makes != items[i].steps[k].makes)
    && (forall i, j :: 0 <= i < j < |items| ==> Objects(items[i].steps) !! Objects(items[j].steps))
  }

  /** MySQL would refuse a statement of this migration, because its object is there and nobody asks first. */
  predicate Blocked(m: Migration, k: nat, present: set<string>) {
    exists j :: k <= j < |m.steps| && m.steps[j].guard == Bare && m.steps[j].makes in present
  }

  function Cost(items: seq<Migration>, i: nat): nat
    requires i <= |items|
    decreases |items| - i
  {
    if i == |items| then 0 else |items[i].steps| + 1 + Cost(items, i + 1)
  }

  /** A blocked migration is never recorded. */
  lemma {:induction false} BlockedIsNotApplied(m: Migration, k: nat, store: Store, pending: set<string>, budget: nat)
    requires k <= |m.steps| && Blocked(m, k, store.objects)
    ensures ApplyFrom(m, k, store, pending, budget).outcome != Done
    decreases |m.steps| - k
  {
    if k < |m.steps| {
      var step := m.steps[k];
      if step.guard == Checked && step.makes in store.objects {
        BlockedIsNotApplied(m, k + 1, store, pending, budget);
      } else if budget == 0 || (step.guard == Bare && step.makes in store.objects + pending) {
      } else if step.guard == Data && m.inTransaction {
        BlockedIsNotApplied(m, k + 1, store, pending + {step.makes}, budget - 1);
      } else {
        BlockedIsNotApplied(m, k + 1, store.(objects := store.objects + pending + {step.makes}), {}, budget - 1);
      }
    }
  }

  /** A migration that is not blocked is applied by a connection that lasts. */
  lemma {:induction false} UnblockedIsApplied(m: Migration, k: nat, store: Store, pending: set<string>, budget: nat)
    requires k <= |m.steps| && !Blocked(m, k, store.objects + pending) && budget >= |m.steps| - k + 1
    requires forall i, j :: 0 <= i < j < |m.steps| ==> m.steps[i].makes != m.steps[j].makes
    ensures var r := ApplyFrom(m, k, store, pending, budget);
      && r.outcome == Done && r.budget + (|m.steps| - k + 1) >= budget
      && r.store.objects <= store.objects + pending + Objects(m.steps)
    decreases |m.steps| - k
  {
    if k < |m.steps| {
      var step := m.steps[k];
      assert step.makes in Objects(m.steps);
      if step.guard == Checked && step.makes in store.objects {
        UnblockedIsApplied(m, k + 1, store, pending, budget);
      } else {
        assert !(step.guard == Bare && step.makes in store.objects + pending);
        if step.guard == Data && m.inTransaction {
          UnblockedIsApplied(m, k + 1, store, pending + {step.makes}, budget - 1);
        } else {
          UnblockedIsApplied(m, k + 1, store.(objects := store.objects + pending + {step.makes}), {}, budget - 1);
        }
      }
    }
  }

  /** A long enough run completes exactly when no unrecorded version is blocked. */
  lemma {:induction false} CompletesIffUnblocked(items: seq<Migration>, i: nat, store: Store, budget: nat)
    requires Ordered(items) && DistinctObjects(items) && PrefixRecorded(items, i, store) && budget >= Cost(items, i)
    ensures RunFrom(items, i, store, budget).outcome == Done
       <==> forall j :: i <= j < |items| ==> !Blocked(items[j], 0, store.objects)
    decreases |items| - i
  {
    if i < |items| {
      var r := ApplyFrom(items[i], 0, store, {}, budget);
      if Blocked(items[i], 0, store.objects) {
        BlockedIsNotApplied(items[i], 0, store, {}, budget);
      } else {
        assert store.objects + {} == store.objects;
        UnblockedIsApplied(items[i], 0, store, {}, budget);
        assert items[i].steps[..0] == [];
        ApplyKeeps(items[i], 0, store, {}, budget);
        CompletesIffUnblocked(items, i + 1, r.store, r.budget);
        forall j | i < j < |items|
          ensures Blocked(items[j], 0, store.objects) <==> Blocked(items[j], 0, r.store.objects)
        {
          BlockedElsewhere(items, i, j, store.objects, r.store.objects);
        }
      }
    }
  }

  lemma BlockedElsewhere(items: seq<Migration>, i: nat, j: nat, before: set<string>, after: set<string>)
    requires DistinctObjects(items) && i < j < |items| && before <= after <= before + Objects(items[i].steps)
    ensures Blocked(items[j], 0, before) <==> Blocked(items[j], 0, after)
  {
    forall k | 0 <= k < |items[j].steps|
      ensures items[j].steps[k].makes in before <==> items[j].steps[k].makes in after
    {
      assert items[j].steps[k].makes in Objects(items[j].steps);
    }
  }

  /** Once the next version is blocked it stays so: no series of runs ever completes or records anything more. */
  lemma {:induction false} BlockedForever(items: seq<Migration>, n: nat, store: Store, budgets: seq<nat>, last: nat)
    requires Ordered(items) && PrefixRecorded(items, n, store) && n < |items| && Blocked(items[n], 0, store.objects)
    ensures AfterRuns(items, store, budgets).recorded == store.recorded
    ensures RunFrom(items, 0, AfterRuns(items, store, budgets), last).outcome != Done
    decreases |budgets|
  {
    var budget := if budgets == [] then last else budgets[0];
    StopsAtBlocked(items, 0, n, store, budget);
    if budgets != [] {
      BlockedForever(items, n, RunFrom(items, 0, store, budget).store, budgets[1..], last);
    }
  }

  lemma {:induction false} StopsAtBlocked(items: seq<Migration>, i: nat, n: nat, store: Store, budget: nat)
    requires i <= n < |items| && PrefixRecorded(items, n, store) && Blocked(items[n], 0, store.objects)
    ensures var r := RunFrom(items, i, store, budget);
      && r.outcome != Done && r.store.recorded == store.recorded && store.objects <= r.store.objects
      && PrefixRecorded(items, n, r.store) && Blocked(items[n], 0, r.store.objects)
    decreases n - i
  {
    if i < n {
      StopsAtBlocked(items, i + 1, n, store, budget);
    } else {
      assert items[n].steps[..0] == [];
      ApplyKeeps(items[n], 0, store, {}, budget);
      BlockedIsNotApplied(items[n], 0, store, {}, budget);
      var j :| 0 <= j < |items[n].steps| && items[n].steps[j].guard == Bare && items[n].steps[j].makes in store.objects;
    }
  }

  /** If every statement asks first, tolerates its object or writes rows, no interruption ever blocks. */
  predicate Rerunnable(items: seq<Migration>) {
    forall i, k :: 0 <= i < |items| && 0 <= k < |items[i].steps| ==> items[i].steps[k].guard != Bare
  }

  lemma {:induction false} RerunnableCompletes(items: seq<Migration>, n: nat, store: Store, budgets: seq<nat>, last: nat)
    requires Ordered(items) && DistinctObjects(items) && Rerunnable(items) && PrefixRecorded(items, n, store)
    requires last >= Cost(items, 0)
    ensures RunFrom(items, 0, AfterRuns(items, store, budgets), last).outcome == Done
  {
    var m := SeriesKeepsPrefix(items, store, n, budgets);
    var after := AfterRuns(items, store, budgets);
    CostShrinks(items, 0, m);
    SkipsRecorded(items, 0, m, after, last);
    CompletesIffUnblocked(items, m, after, last);
  }

  lemma {:induction false} CostShrinks(items: seq<Migration>, i: nat, n: nat)
    requires i <= n <= |items|
    ensures Cost(items, n) <= Cost(items, i)
    decreases n - i
  {
    if i < n { CostShrinks(items, i + 1, n); }
  }

  lemma {:induction false} SkipsRecorded(items: seq<Migration>, i: nat, n: nat, store: Store, budget: nat)
    requires i <= n && PrefixRecorded(items, n, store)
    ensures RunFrom(items, i, store, budget) == RunFrom(items, n, store, budget)
    decreases n - i
  {
    if i < n { SkipsRecorded(items, i + 1, n, store, budget); }
  }

  /** Version 12 as it stands: an ALTER and a CREATE TABLE without IF NOT EXISTS on the general path. */
  const Version12 := Migration(12, "012", true, [Step("payments.gateway_order_id", Bare), Step("payment_reconciliation_cases", Bare)])

  /** A connection lost between its two statements leaves a database that no later run can complete. */
  lemma {:induction false} Version12CanBlock(budgets: seq<nat>, last: nat)
    ensures var cut := RunFrom([Version12], 0, Store({}, map[]), 1);
      && cut.outcome == Interrupted
      && RunFrom([Version12], 0, AfterRuns([Version12], cut.store, budgets), last).outcome != Done
  {
    var cut := RunFrom([Version12], 0, Store({}, map[]), 1);
    assert cut == ApplyFrom(Version12, 0, Store({}, map[]), {}, 1);
    assert cut == ApplyFrom(Version12, 1, Store({"payments.gateway_order_id"}, map[]), {}, 0) by {
      assert {} + {} + {"payments.gateway_order_id"} == {"payments.gateway_order_id"};
    }
    assert Version12.steps[0].makes in cut.store.objects;
    assert Blocked(Version12, 0, cut.store.objects);
    BlockedForever([Version12], 0, cut.store, budgets, last);
  }

  // ---------------------------------------------------------------- the methods of migrate.go

  class Session {
    var store: Store
    var budget: nat

    constructor (store: Store, budget: nat)
      ensures this.store == store && this.budget == budget
    {
      this.store := store;
      this.budget := budget;
    }

    /** apply, for a version that is not recorded: the statements and then the version's row. */
    method ApplySteps(m: Migration) returns (outcome: Outcome)
      modifies this
      ensures Run(store, budget, outcome) == ApplyFrom(m, 0, old(store), {}, old(budget))
    {
      ghost var total := ApplyFrom(m, 0, store, {}, budget);
      var pending: set<string> := {};
      for k := 0 to |m.steps|
        invariant ApplyFrom(m, k, store, pending, budget) == total
      {
        var step := m.steps[k];
        if !(step.guard == Checked && step.makes in store.objects) {
          if budget == 0 { return Interrupted; }
          if step.guard == Bare && step.makes in store.objects + pending {
            store := store.(objects := store.objects + pending);
            return Rejected;
          }
          budget := budget - 1;
          if step.guard == Data && m.inTransaction {
            pending := pending + {step.makes};
          } else {
            store := store.(objects := store.objects + pending + {step.makes});
            pending := {};
          }
        }
      }
      if budget == 0 { return Interrupted; }
      store := Store(store.objects + pending, store.recorded[m.version := m.checksum]);
      budget := budget - 1;
      return Done;
    }

    /** Run: each version in order until one of them fails. */
    method RunAll(items: seq<Migration>) returns (outcome: Outcome)
      modifies this
      ensures Run(store, budget, outcome) == RunFrom(items, 0, old(store), old(budget))
    {
      ghost var total := RunFrom(items, 0, store, budget);
      for i := 0 to |items|
        invariant RunFrom(items, i, store, budget) == total
      {
        var item := items[i];
        if item.version in store.recorded {
          if store.recorded[item.version] != item.checksum { return Mismatch; }
        } else {
          outcome := ApplySteps(item);
          if outcome != Done { return; }
        }
      }
      return Done;
    }
  }
}
