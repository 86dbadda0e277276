/**
 * The month-end job: on the last day of a month it copies every recurring
 * shift one calendar month ahead, unless a shift with the same date, times,
 * class and grade already exists.
 */
module RecurringJob {
  import opened Wrappers
  import opened Calendar
  import opened Shifts
  import ShiftRoutes

  /** The columns the existence check compares; owner and status are not among them. */
  datatype ShiftKey = ShiftKey(date: Date, startTime: string, endTime: string, className: string, grade: string)

  function KeyOf(s: Shift): ShiftKey {
    ShiftKey(s.date, s.startTime, s.endTime, s.className, s.grade)
  }

  predicate HasKey(rows: seq<Shift>, key: ShiftKey) {
    exists i :: 0 <= i < |rows| && KeyOf(rows[i]) == key
  }

  /** `findMany({ where: { recurring: true } })`: the recurring rows, in table order. */
  function RecurringRows(rows: seq<Shift>): (r: seq<Shift>)
    ensures forall s :: s in r <==> s in rows && s.recurring
    ensures |r| <= |rows|
    ensures AllValidDates(rows) ==> AllValidDates(r)
  {
    if rows == [] then []
    else (if rows[0].recurring then [rows[0]] else []) + RecurringRows(rows[1..])
  }

  /** Each recurring row is kept as often as it occurs, and no other row is kept. */
  lemma {:induction false} RecurringRowsCounts(rows: seq<Shift>, x: Shift)
    ensures multiset(RecurringRows(rows))[x] == if x.recurring then multiset(rows)[x] else 0
  {
    if rows != [] {
      var head := if rows[0].recurring then [rows[0]] else [];
      RecurringRowsCounts(rows[1..], x);
      assert RecurringRows(rows) == head + RecurringRows(rows[1..]);
      assert multiset(RecurringRows(rows)) == multiset(head) + multiset(RecurringRows(rows[1..]));
      assert multiset(rows) == multiset([rows[0]]) + multiset(rows[1..]) by {
        assert rows == [rows[0]] + rows[1..];
      }
    }
  }

  /** The snapshot keeps table order: the recurring rows of joined rows are the joined recurring rows. */
  lemma {:induction false} RecurringRowsConcat(a: seq<Shift>, b: seq<Shift>)
    ensures RecurringRows(a + b) == RecurringRows(a) + RecurringRows(b)
  {
    if a == [] {
      assert a + b == b;
    } else {
      assert (a + b)[1..] == a[1..] + b;
      RecurringRowsConcat(a[1..], b);
    }
  }

  /** `findFirst` on the key columns: the earliest row with that key, if any. */
  function FindFirst(rows: seq<Shift>, key: ShiftKey): (r: Option<Shift>)
    ensures r.Some? <==> HasKey(rows, key)
    ensures r.Some? ==> r.value in rows && KeyOf(r.value) == key
  {
    if rows == [] then None
    else if KeyOf(rows[0]) == key then Some(rows[0])
    else
      var rest := FindFirst(rows[1..], key);
      assert HasKey(rows[1..], key) ==> HasKey(rows, key) by {
        if HasKey(rows[1..], key) {
          var i :| 0 <= i < |rows[1..]| && KeyOf(rows[1..][i]) == key;
          assert KeyOf(rows[i + 1]) == key;
        }
      }
      rest
  }

  /** The row the job inserts for a recurring source: next month's date, UPCOMING, recurring, no owner. */
  function NextMonthCopy(src: Shift): (c: Shift)
    requires ValidDate(src.date)
    ensures ValidDate(c.date) && c.date == AddMonthJs(src.date)
    ensures KeyOf(c) == KeyOf(src).(date := c.date)
    ensures c.status == Upcoming && c.recurring && c.userId.None?
  {
    Shift(src.className, src.grade, Upcoming, AddMonthJs(src.date), src.startTime, src.endTime, true, None)
  }

  predicate AllValidDates(rows: seq<Shift>) {
    forall i :: 0 <= i < |rows| ==> ValidDate(rows[i].date)
  }

  /** One pass of the loop body on the table `rows`. */
  function Step(rows: seq<Shift>, src: Shift): seq<Shift>
    requires ValidDate(src.date)
  {
    if HasKey(rows, KeyOf(NextMonthCopy(src))) then rows else rows + [NextMonthCopy(src)]
  }

  /** The table after the loop has handled `sources` in order. */
  function StepAll(rows: seq<Shift>, sources: seq<Shift>): (r: seq<Shift>)
    requires AllValidDates(sources)
    ensures AllValidDates(rows) ==> AllValidDates(r)
  {
    if sources == [] then rows
    else Step(StepAll(rows, sources[..|sources| - 1]), sources[|sources| - 1])
  }

  /** The table after one complete run of `addRecurringShifts`. */
  function AfterJob(rows: seq<Shift>): (r: seq<Shift>)
    requires AllValidDates(rows)
    ensures AllValidDates(r)
  {
    StepAll(rows, RecurringRows(rows))
  }

  /** `addRecurringShifts`: snapshot the recurring rows, then insert each one's copy unless its key exists. */
  method AddRecurringShifts(table: ShiftTable)
    requires AllValidDates(table.rows)
    modifies table
    ensures table.rows == AfterJob(old(table.rows))
  {
    var recurringShifts := RecurringRows(table.rows);
    var i := 0;
    while i < |recurringShifts|
      invariant 0 <= i <= |recurringShifts|
      invariant table.rows == StepAll(old(table.rows), recurringShifts[..i])
    {
      var shift := recurringShifts[i];
      var newDate := AddMonthJs(shift.date);
      var existingShift := FindFirst(table.rows, ShiftKey(newDate, shift.startTime, shift.endTime, shift.className, shift.grade));
      StepAllPrefixStep(old(table.rows), recurringShifts, i);
      if existingShift.None? {
        table.Create(Shift(shift.className, shift.grade, Upcoming, newDate, shift.startTime, shift.endTime, true, None));
      }
      i := i + 1;
    }
    assert recurringShifts[..i] == recurringShifts;
  }

  /** The job body runs only when tomorrow is in another month. */
  method RunMonthEnd(table: ShiftTable, today: Date) returns (ran: bool)
    requires ValidDate(today) && AllValidDates(table.rows)
    modifies table
    ensures ran <==> today == LastDayOfMonth(today)
    ensures !ran ==> table.rows == old(table.rows)
    ensures ran ==> table.rows == AfterJob(old(table.rows))
  {
    var tomorrow := NextDay(today);
    TomorrowInOtherMonth(today);
    ran := today.month != tomorrow.month;
    if ran {
      AddRecurringShifts(table);
    }
  }

  /** The loop's step from `i` handled sources to `i + 1`. */
  lemma StepAllPrefixStep(rows: seq<Shift>, sources: seq<Shift>, i: nat)
    requires AllValidDates(sources) && i < |sources|
    ensures AllValidDates(sources[..i]) && AllValidDates(sources[..i + 1])
    ensures StepAll(rows, sources[..i + 1]) == Step(StepAll(rows, sources[..i]), sources[i])
  {
    assert sources[..i + 1][..i] == sources[..i];
  }

  lemma HasKeyExtend(rows: seq<Shift>, more: seq<Shift>, key: ShiftKey)
    requires HasKey(rows, key)
    ensures HasKey(rows + more, key)
  {
    var i :| 0 <= i < |rows| && KeyOf(rows[i]) == key;
    assert (rows + more)[i] == rows[i];
  }

  /** The table only grows: every existing row stays where it was, unchanged. */
  lemma {:induction false} StepAllKeepsRows(rows: seq<Shift>, sources: seq<Shift>)
    requires AllValidDates(sources)
    ensures |StepAll(rows, sources)| >= |rows|
    ensures StepAll(rows, sources)[..|rows|] == rows
  {
    if sources != [] {
      StepAllKeepsRows(rows, sources[..|sources| - 1]);
    }
  }

  /** At most one row per source is added, and each added row is the copy of one of the sources. */
  lemma {:induction false} StepAllAddsCopies(rows: seq<Shift>, sources: seq<Shift>)
    requires AllValidDates(sources)
    ensures |StepAll(rows, sources)| <= |rows| + |sources|
    ensures forall j :: |rows| <= j < |StepAll(rows, sources)| ==>
              exists k :: 0 <= k < |sources| && StepAll(rows, sources)[j] == NextMonthCopy(sources[k])
  {
    if sources != [] {
      var init := sources[..|sources| - 1];
      var last := sources[|sources| - 1];
      StepAllAddsCopies(rows, init);
      var before := StepAll(rows, init);
      var after := StepAll(rows, sources);
      forall j | |rows| <= j < |after|
        ensures exists k :: 0 <= k < |sources| && after[j] == NextMonthCopy(sources[k])
      {
        if j < |before| {
          var k :| 0 <= k < |init| && before[j] == NextMonthCopy(init[k]);
          assert after[j] == before[j] && init[k] == sources[k];
        } else {
          assert after[j] == NextMonthCopy(sources[|sources| - 1]);
        }
      }
    }
  }

  /** After the loop every source's copy key is present in the table. */
  lemma {:induction false} StepAllCoversSources(rows: seq<Shift>, sources: seq<Shift>)
    requires AllValidDates(sources)
    ensures forall k :: 0 <= k < |sources| ==> HasKey(StepAll(rows, sources), KeyOf(NextMonthCopy(sources[k])))
  {
    if sources != [] {
      var init := sources[..|sources| - 1];
      var last := sources[|sources| - 1];
      StepAllCoversSources(rows, init);
      var before := StepAll(rows, init);
      var after := StepAll(rows, sources);
      forall k | 0 <= k < |sources|
        ensures HasKey(after, KeyOf(NextMonthCopy(sources[k])))
      {
        if k < |init| {
          assert init[k] == sources[k];
          if after != before {
            HasKeyExtend(before, [NextMonthCopy(last)], KeyOf(NextMonthCopy(sources[k])));
          }
        } else if !HasKey(before, KeyOf(NextMonthCopy(last))) {
          assert after[|before|] == NextMonthCopy(last);
        }
      }
    }
  }

  /** When every source's copy key is already present, the loop changes nothing. */
  lemma {:induction false} StepAllNoOp(rows: seq<Shift>, sources: seq<Shift>)
    requires AllValidDates(sources)
    requires forall k :: 0 <= k < |sources| ==> HasKey(rows, KeyOf(NextMonthCopy(sources[k])))
    ensures StepAll(rows, sources) == rows
  {
    if sources != [] {
      var init := sources[..|sources| - 1];
      assert forall k :: 0 <= k < |init| ==> init[k] == sources[k];
      StepAllNoOp(rows, init);
    }
  }

  /** Running the loop again over the same snapshot inserts nothing. */
  lemma StepAllIdempotent(rows: seq<Shift>, sources: seq<Shift>)
    requires AllValidDates(sources)
    ensures StepAll(StepAll(rows, sources), sources) == StepAll(rows, sources)
  {
    StepAllCoversSources(rows, sources);
    StepAllNoOp(StepAll(rows, sources), sources);
  }

  /**
   * No inserted row repeats the key of any row before it, so two sources
   * whose copies share a key give one insert, and a table without repeated
   * keys keeps none.
   */
  lemma {:induction false} StepAllNoNewDuplicates(rows: seq<Shift>, sources: seq<Shift>)
    requires AllValidDates(sources)
    ensures forall i, j :: 0 <= i < j < |StepAll(rows, sources)| && |rows| <= j ==>
              KeyOf(StepAll(rows, sources)[i]) != KeyOf(StepAll(rows, sources)[j])
  {
    if sources != [] {
      var init := sources[..|sources| - 1];
      StepAllNoNewDuplicates(rows, init);
      StepAllKeepsRows(rows, init);
      var before := StepAll(rows, init);
      var after := StepAll(rows, sources);
      forall i, j | 0 <= i < j < |after| && |rows| <= j
        ensures KeyOf(after[i]) != KeyOf(after[j])
      {
        if j == |before| {
          assert !HasKey(before, KeyOf(after[j]));
          assert after[i] == before[i];
        }
      }
    }
  }

  /** The copies carry no owner, so the job never changes the rows any user's GET lists. */
  lemma {:induction false} StepAllInvisibleToOwners(rows: seq<Shift>, sources: seq<Shift>, userId: string)
    requires AllValidDates(sources)
    ensures ShiftRoutes.OwnedBy(StepAll(rows, sources), userId) == ShiftRoutes.OwnedBy(rows, userId)
  {
    if sources != [] {
      var init := sources[..|sources| - 1];
      var last := sources[|sources| - 1];
      StepAllInvisibleToOwners(rows, init, userId);
      OwnedByAppendOrphan(StepAll(rows, init), NextMonthCopy(last), userId);
    }
  }

  lemma {:induction false} OwnedByAppendOrphan(rows: seq<Shift>, s: Shift, userId: string)
    requires s.userId.None?
    ensures ShiftRoutes.OwnedBy(rows + [s], userId) == ShiftRoutes.OwnedBy(rows, userId)
  {
    if rows == [] {
      assert rows + [s] == [s];
      assert [s][1..] == [];
    } else {
      assert (rows + [s])[1..] == rows[1..] + [s];
      OwnedByAppendOrphan(rows[1..], s, userId);
    }
  }

  /**
   * The existence check only guards a rerun over the same snapshot: a second
   * complete run takes a new snapshot that includes the copies just made, and
   * copies those a further month ahead.
   */
  lemma SecondRunCopiesCopies(s: Shift)
    requires s.recurring && s.date == Date(2025, 1, 10)
    ensures |AfterJob([s])| == 2
    ensures |AfterJob(AfterJob([s]))| == 3 && AfterJob(AfterJob([s]))[2].date == Date(2025, 3, 10)
  {
    AddMonthJsCases(Date(2025, 1, 10));
    AddMonthJsCases(Date(2025, 2, 10));
    var copy := NextMonthCopy(s);
    var copy2 := NextMonthCopy(copy);
    assert RecurringRows([s]) == [s] by { assert [s][1..] == []; }
    assert [s][..0] == [];
    assert !HasKey([s], KeyOf(copy));
    var once := AfterJob([s]);
    assert once == StepAll([s], [s]);
    assert StepAll([s], [s]) == Step(StepAll([s], []), s);
    assert Step([s], s) == [s, copy];
    assert once == [s, copy];
    assert RecurringRows(once) == [s, copy] by { assert once[1..] == [copy]; assert once[1..][1..] == []; }
    assert [s, copy][..1] == [s];
    assert StepAll(once, [s]) == once by {
      assert StepAll(once, [s]) == Step(StepAll(once, []), s);
      assert KeyOf(once[1]) == KeyOf(copy);
    }
    assert !HasKey(once, KeyOf(copy2));
    assert AfterJob(once) == once + [copy2];
  }
}
