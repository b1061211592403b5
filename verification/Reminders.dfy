/** Recurring reminders: due days, and the claim that keeps every month or week to one reminder. */
module Reminders {
  import opened Prelude
  import opened Ledger
  import opened Calendar
  import Protocol

  /** The due day of an item on a given day, as due_recurring_today computes it. */
  function DueOn(row: RecurringRow, today: nat): Option<int> {
    if row.cadence.Monthly? then
      match row.dayOfMonth
      case None => None
      case Some(day) =>
        var lastDay := DayOfMonth(Max(0, MonthBounds(today).1));
        match FromYmd(Year(today), MonthNumber(today), Min(day, lastDay))
        case Some(due) => Some(due)
        case None => None
    else
      match row.dayOfWeek
      case None => None
      case Some(day) => Some(WeekStart(today) + (day + 6) % 7)
  }

  /** The filter of due_recurring_today. */
  predicate IsDue(row: RecurringRow, today: nat) {
    row.lastReminded != Some(today)
    && match DueOn(row, today)
       case None => false
       case Some(due) => today >= due && (row.lastReminded.None? || row.lastReminded.value < due)
  }

  /** The month or week of a day, by the item's cadence. */
  function PeriodOf(row: RecurringRow, day: nat): nat {
    if row.cadence.Monthly? then MonthOf(day) else day / 7
  }

  function PeriodStart(row: RecurringRow, period: nat): nat {
    if row.cadence.Monthly? then MonthStart(period) else 7 * period
  }

  function PeriodLength(row: RecurringRow, period: nat): nat {
    if row.cadence.Monthly? then LengthOf(period) else 7
  }

  /** The due day of a period: the wanted day of the month clamped to the month's last, or the wanted
      weekday counted from Sunday as 0, placed in a week that starts on Monday. */
  function DueIn(row: RecurringRow, period: nat): nat
    requires RecurringChecks(row)
  {
    if row.cadence.Monthly? then MonthStart(period) + Min(row.dayOfMonth.value, LengthOf(period)) - 1
    else 7 * period + (if row.dayOfWeek.value == 0 then 6 else row.dayOfWeek.value - 1)
  }

  lemma PeriodsPartition(row: RecurringRow, day: nat, period: nat)
    ensures period == PeriodOf(row, day)
            <==> PeriodStart(row, period) <= day < PeriodStart(row, period) + PeriodLength(row, period)
  {
    MonthsPartition(day, period);
  }

  lemma PeriodsAreOrdered(row: RecurringRow, a: nat, b: nat)
    requires a <= b
    ensures PeriodOf(row, a) <= PeriodOf(row, b)
  {
    MonthsAreOrdered(a, b);
  }

  lemma MonthlyDue(today: nat, day: int)
    requires 1 <= day <= 31
    ensures var m := MonthOf(today);
            && MonthBounds(today).1 >= 0 && DayOfMonth(MonthBounds(today).1) == LengthOf(m)
            && FromYmd(Year(today), MonthNumber(today), Min(day, LengthOf(m))) == Some(MonthStart(m) + Min(day, LengthOf(m)) - 1)
  {
    var m := MonthOf(today);
    BoundsAreTheMonth(today, today);
    hide MonthOf, MonthBounds, LengthOf, DayOfMonth, FromYmd, Year, MonthNumber;
    SameMonthDay(today, Min(day, LengthOf(m)));
  }

  /** For every row the table's CHECKs admit, the computed due day is the period's, and lies inside it. */
  lemma DueIsInPeriod(row: RecurringRow, today: nat)
    requires RecurringChecks(row)
    ensures var p := PeriodOf(row, today);
            && DueOn(row, today) == Some(DueIn(row, p))
            && PeriodStart(row, p) <= DueIn(row, p) < PeriodStart(row, p) + PeriodLength(row, p)
  {
    if row.cadence.Monthly? {
      MonthlyDue(today, row.dayOfMonth.value);
      hide MonthOf, MonthBounds, LengthOf, DayOfMonth, FromYmd, Year, MonthNumber;
    }
  }

  // ---------------------------------------------------------------- cron runs

  /** A run of the cron first looks (due_recurring_today) and then claims (claim_reminder). Runs of one
      day may overlap in any way; a new day starts with none in flight. */
  datatype Event = NewDay(day: nat) | Look(run: Id) | Claim(run: Id)

  /** `reminded` counts the reminders sent per period; `visited` holds the periods in which some run
      went through on or after the due day. */
  datatype State = State(row: RecurringRow, today: nat, looked: map<Id, bool>, reminded: multiset<nat>, visited: set<nat>)

  function Remind(row: RecurringRow, today: Day): RecurringRow {
    row.(lastReminded := Some(today))
  }

  function Next(s: State, e: Event): State
    requires RecurringChecks(s.row)
  {
    match e
    case NewDay(day) => if day < s.today then s else s.(today := day, looked := map[])
    case Look(run) => s.(looked := s.looked[run := IsDue(s.row, s.today)])
    case Claim(run) =>
      if run !in s.looked then s
      else
        var p := PeriodOf(s.row, s.today);
        var s1 := s.(looked := s.looked - {run},
                     visited := if s.today >= DueIn(s.row, p) then s.visited + {p} else s.visited);
        if s.looked[run] && s.row.lastReminded != Some(s.today)
        then s1.(row := Remind(s.row, s.today), reminded := s.reminded + multiset{p})
        else s1
  }

  /** The claim is the table's own statement. */
  lemma ClaimIsTheStatement(t: Tables, item: Id, today: Day)
    requires item in t.recurring
    ensures var row := t.recurring[item];
            Protocol.ClaimReminder(t, item, row.user, today)
            == if row.lastReminded != Some(today) then t.(recurring := t.recurring[item := Remind(row, today)]) else t
  {
  }

  function Run(row: RecurringRow, es: seq<Event>): (s: State)
    requires RecurringChecks(row)
    ensures s.row == row.(lastReminded := s.row.lastReminded)
  {
    if es == [] then State(row, 0, map[], multiset{}, {}) else Next(Run(row, es[..|es| - 1]), es[|es| - 1])
  }

  /** Whether the last reminder is recent enough to silence period `p`. */
  predicate Served(row: RecurringRow, p: nat)
    requires RecurringChecks(row)
  {
    row.lastReminded.Some? && row.lastReminded.value >= DueIn(row, p)
  }

  ghost predicate Inv(s: State) {
    && RecurringChecks(s.row)
    && (s.row.lastReminded.Some? ==> 0 <= s.row.lastReminded.value <= s.today)
    && (forall p: nat :: s.reminded[p] == if p in s.visited then 1 else 0)
    && (forall p: nat :: p in s.visited ==> Served(s.row, p))
    && (forall p: nat :: Served(s.row, p) && p == PeriodOf(s.row, s.today) ==> p in s.visited)
    && (forall run :: run in s.looked ==> LookOk(s, s.looked[run]))
  }

  /** What a look still means later the same day. */
  ghost predicate LookOk(s: State, due: bool)
    requires RecurringChecks(s.row)
  {
    var p := PeriodOf(s.row, s.today);
    && (due ==> s.today >= DueIn(s.row, p) && (!Served(s.row, p) || s.row.lastReminded == Some(s.today)))
    && (!due && s.today >= DueIn(s.row, p) ==> Served(s.row, p))
  }

  lemma NewDayKeeps(s: State, day: nat)
    requires Inv(s)
    ensures Inv(Next(s, NewDay(day)))
  {
    if day >= s.today {
      var p, q := PeriodOf(s.row, day), PeriodOf(s.row, s.today);
      PeriodsAreOrdered(s.row, s.today, day);
      DueIsInPeriod(s.row, day);
      PeriodsPartition(s.row, s.today, p);
      hide PeriodOf, DueIn;
      if Served(s.row, p) && p != q {
        assert s.today >= PeriodStart(s.row, p);
        PeriodsPartition(s.row, s.today, q);
        LaterPeriodStarts(s.row, q, p);
      }
    }
  }

  lemma LaterPeriodStarts(row: RecurringRow, q: nat, p: nat)
    requires q < p
    ensures PeriodStart(row, q) + PeriodLength(row, q) <= PeriodStart(row, p)
  {
    MonthStartGrows(q, p);
  }

  lemma LookKeeps(s: State, run: Id)
    requires Inv(s)
    ensures Inv(Next(s, Look(run)))
  {
    DueIsInPeriod(s.row, s.today);
    hide PeriodOf, DueIn, DueOn;
  }

  lemma SameDues(row: RecurringRow, today: nat)
    requires RecurringChecks(row)
    ensures RecurringChecks(Remind(row, today))
    ensures forall p: nat :: DueIn(Remind(row, today), p) == DueIn(row, p)
    ensures forall d: nat :: PeriodOf(Remind(row, today), d) == PeriodOf(row, d)
  {
  }

  lemma ClaimKeeps(s: State, run: Id)
    requires Inv(s)
    ensures Inv(Next(s, Claim(run)))
  {
    if run in s.looked {
      DueIsInPeriod(s.row, s.today);
      SameDues(s.row, s.today);
      assert LookOk(s, s.looked[run]);
      hide DueOn, PeriodStart, DueIn, PeriodOf, RecurringChecks;
      ClaimedRun(s, run);
    }
  }

  lemma ClaimedRun(s: State, run: Id)
    requires Inv(s) && run in s.looked && LookOk(s, s.looked[run]) && RecurringChecks(Remind(s.row, s.today))
    requires forall p: nat :: DueIn(Remind(s.row, s.today), p) == DueIn(s.row, p)
    requires forall d: nat :: PeriodOf(Remind(s.row, s.today), d) == PeriodOf(s.row, d)
    ensures Inv(Next(s, Claim(run)))
  {
    hide DueOn, PeriodStart, DueIn, PeriodOf, RecurringChecks;
    var u, p := Next(s, Claim(run)), PeriodOf(s.row, s.today);
    assert forall q: nat :: Served(s.row, q) ==> Served(u.row, q);
    assert s.today >= DueIn(s.row, p) ==> Served(u.row, p);
  }

  /** For a fixed item and any overlapping runs on any non-decreasing days: each month or week gets
      exactly one reminder if some run went through on or after its due day, and none otherwise. */
  lemma {:induction false} OneReminderPerPeriod(row: RecurringRow, es: seq<Event>)
    requires RecurringChecks(row) && row.lastReminded.None?
    ensures Inv(Run(row, es))
    ensures forall p: nat :: Run(row, es).reminded[p] == if p in Run(row, es).visited then 1 else 0
  {
    if es != [] {
      OneReminderPerPeriod(row, es[..|es| - 1]);
      var s := Run(row, es[..|es| - 1]);
      hide Inv, Next;
      match es[|es| - 1]
      case NewDay(day) => NewDayKeeps(s, day);
      case Look(run) => LookKeeps(s, run);
      case Claim(run) => ClaimKeeps(s, run);
    }
    ReadInv(Run(row, es));
  }

  lemma ReadInv(s: State)
    requires Inv(s)
    ensures forall p: nat :: s.reminded[p] == if p in s.visited then 1 else 0
  {
  }

  /** Whatever edits and upserts made of an item, it is due exactly from its due day to the end of the
      period, unless its last reminder came on or after that due day. So a period's reminder can still
      come late, and moving the due day behind the last reminder asks for another. */
  lemma LateRunStillReminds(row: RecurringRow, today: nat)
    requires RecurringChecks(row)
    ensures var due := DueIn(row, PeriodOf(row, today));
            IsDue(row, today) <==> today >= due && (row.lastReminded.None? || row.lastReminded.value < due)
  {
    DueIsInPeriod(row, today);
  }
}
