/**
 * The local daily spend ledger: one row a day, holding what was spent and at most one lease. Money is
 * exact; a stored amount that is not a finite non-negative number reads as None.
 */
module Ledger {
  import opened Wrappers

  /** A lease expiry that cannot be parsed counts as long past. */
  datatype Expiry = At(instant: int) | Unreadable {
    predicate Passed(now: int) { At? ==> instant <= now }
  }

  /** token is "" and expiry None when the columns are NULL. */
  datatype DayRow = DayRow(spent: Option<real>, token: string, expiry: Option<Expiry>)

  type Days = map<int, DayRow>

  datatype Reservation = Reservation(day: int, token: string, limit: real)

  datatype Answer = Granted | Unavailable | Exceeded

  predicate Torn(row: DayRow) { row.spent.None? || (row.token != "") != row.expiry.Some? }

  function Unleased(spent: real): DayRow { DayRow(Some(spent), "", None) }

  function Leased(spent: real, r: Reservation, expires: int): DayRow {
    DayRow(Some(spent), r.token, Some(At(expires)))
  }

  function Pruned(days: Days, before: int): Days { map d | d in days && d >= before :: days[d] }

  /** What a transaction that raises before its commit leaves behind is what it found. */
  function Reserve(days: Days, r: Reservation, now: int, expires: int, telemetry: Option<real>,
                   pruneBefore: int): (Days, Answer)
  {
    var kept := Pruned(days, pruneBefore);
    if r.day !in kept then
      if telemetry.None? then (days, Unavailable)
      else if telemetry.value >= r.limit then (days, Exceeded)
      else (kept[r.day := Leased(telemetry.value, r, expires)], Granted)
    else
      var row := kept[r.day];
      if Torn(row) then (kept[r.day := Unleased(r.limit)], Unavailable)
      else if row.token != "" then
        if !row.expiry.value.Passed(now) then (days, Unavailable)
        else (kept[r.day := Unleased(MaxReal(row.spent.value, r.limit))], Exceeded)
      else if row.spent.value >= r.limit then (days, Exceeded)
      else (kept[r.day := Leased(row.spent.value, r, expires)], Granted)
  }

  /** How a reservation ends: given back, charged an exact cost, or charged the whole day. */
  datatype Ending = Release | Charge(cost: real) | Exhaust

  predicate Holds(days: Days, r: Reservation) {
    r.day in days && days[r.day].token == r.token
  }

  function AfterEnding(spent: real, limit: real, e: Ending): real {
    match e
    case Release => spent
    case Charge(cost) => spent + cost
    case Exhaust => MaxReal(spent, limit)
  }

  function Finish(days: Days, r: Reservation, e: Ending): Days {
    if !Holds(days, r) then days
    else if days[r.day].spent.None? then days[r.day := Unleased(r.limit)]
    else days[r.day := Unleased(AfterEnding(days[r.day].spent.value, r.limit, e))]
  }

  predicate Finished(days: Days, r: Reservation) { Holds(days, r) && days[r.day].spent.Some? }

  /** The receipts an exception carries; None is an entry without a valid cost. */
  function Sum(costs: seq<real>): real {
    if costs == [] then 0.0 else Sum(costs[..|costs| - 1]) + costs[|costs| - 1]
  }

  predicate AllValid(attempts: seq<Option<real>>) {
    forall i :: 0 <= i < |attempts| ==> attempts[i].Some? && attempts[i].value >= 0.0
  }

  function Values(attempts: seq<Option<real>>): seq<real> {
    seq(|attempts|, i requires 0 <= i < |attempts| => attempts[i].GetOr(0.0))
  }

  /** What settling an error does; None means that the lease is deliberately left in place. */
  function ErrorEnding(attempts: seq<Option<real>>): Option<Ending> {
    if attempts == [] then None
    else if AllValid(attempts) then Some(Charge(Sum(Values(attempts))))
    else Some(Exhaust)
  }

  function ReplyEnding(cost: Option<real>): Ending {
    if cost.Some? && cost.value >= 0.0 then Charge(cost.value) else Exhaust
  }

  /** The ledger as a table that is read and rewritten column by column. */
  class LocalBudget {
    var days: Days

    constructor ()
      ensures days == map[]
    {
      days := map[];
    }

    method ReserveBudget(r: Reservation, now: int, expires: int, telemetry: Option<real>, pruneBefore: int)
      returns (answer: Answer)
      modifies this
      ensures (days, answer) == Reserve(old(days), r, now, expires, telemetry, pruneBefore)
    {
      var rollback := days;
      days := map d | d in days && d >= pruneBefore :: days[d];
      var spent := 0.0;
      if r.day !in days {
        if telemetry.None? {
          days := rollback;
          return Unavailable;
        }
        spent := telemetry.value;
        days := days[r.day := DayRow(Some(spent), "", None)];
      } else {
        var row := days[r.day];
        if row.spent.None? || (row.token != "") != row.expiry.Some? {
          days := days[r.day := DayRow(Some(r.limit), "", None)];
          return Unavailable;
        }
        spent := row.spent.value;
        if row.token != "" {
          if !row.expiry.value.Passed(now) {
            days := rollback;
            return Unavailable;
          }
          days := days[r.day := DayRow(Some(MaxReal(spent, r.limit)), "", None)];
          return Exceeded;
        }
      }
      if spent >= r.limit {
        days := rollback;
        return Exceeded;
      }
      days := days[r.day := DayRow(Some(spent), r.token, Some(At(expires)))];
      assert days == Pruned(rollback, pruneBefore)[r.day := Leased(spent, r, expires)];
      return Granted;
    }

    method FinishBudget(r: Reservation, e: Ending) returns (ok: bool)
      modifies this
      ensures days == Finish(old(days), r, e)
      ensures ok == Finished(old(days), r)
    {
      if r.day !in days || days[r.day].token != r.token { return false; }
      var row := days[r.day];
      if row.spent.None? {
        days := days[r.day := DayRow(Some(r.limit), "", None)];
        return false;
      }
      var updated := row.spent.value;
      if e.Exhaust? {
        updated := MaxReal(updated, r.limit);
      } else if e.Charge? {
        updated := updated + e.cost;
      }
      days := days[r.day := DayRow(Some(updated), "", None)];
      return true;
    }

    method SettleReply(r: Reservation, cost: Option<real>) returns (ok: bool)
      modifies this
      ensures days == Finish(old(days), r, ReplyEnding(cost))
      ensures Holds(old(days), r) && old(days)[r.day].spent.Some? && cost.Some? && cost.value >= 0.0 ==>
                days == old(days)[r.day := DayRow(Some(old(days)[r.day].spent.value + cost.value), "", None)]
      ensures ok == (Finished(old(days), r) && cost.Some? && cost.value >= 0.0)
    {
      if cost.None? || cost.value < 0.0 {
        var _ := FinishBudget(r, Exhaust);
        return false;
      }
      ok := FinishBudget(r, Charge(cost.value));
    }

    /** Sums the receipts of an error; one bad receipt exhausts the day, none at all keeps the lease. */
    method SettleError(r: Reservation, attempts: seq<Option<real>>) returns (ok: bool)
      modifies this
      ensures days == if ErrorEnding(attempts).None? then old(days)
                      else Finish(old(days), r, ErrorEnding(attempts).value)
      ensures ok == (attempts == [] || (AllValid(attempts) && Finished(old(days), r)))
    {
      if attempts == [] { return true; }
      var total, i := 0.0, 0;
      while i < |attempts|
        invariant 0 <= i <= |attempts|
        invariant AllValid(attempts[..i]) && total == Sum(Values(attempts[..i])) && total >= 0.0
        invariant days == old(days)
      {
        if attempts[i].None? || attempts[i].value < 0.0 {
          assert !AllValid(attempts);
          var _ := FinishBudget(r, Exhaust);
          return false;
        }
        assert Values(attempts[..i + 1])[..i] == Values(attempts[..i]);
        total := total + attempts[i].value;
        i := i + 1;
      }
      assert attempts[..i] == attempts;
      ok := FinishBudget(r, Charge(total));
    }
  }

  // ---------- What one transaction promises ----------

  /**
   * The ledger of a lost receipt: when a lease is still there after its expiry, the next reservation of
   * that day is denied and leaves the day exhausted, without a lease.
   */
  lemma ExpiredLeaseExhausts(days: Days, r: Reservation, now: int, expires: int, telemetry: Option<real>,
                             pruneBefore: int)
    requires pruneBefore <= r.day && r.day in days && days[r.day].token != ""
    requires days[r.day].expiry.Some? ==> days[r.day].expiry.value.Passed(now)
    ensures var (after, answer) := Reserve(days, r, now, expires, telemetry, pruneBefore);
            && answer != Granted && r.day in after && after[r.day].token == ""
            && after[r.day].spent.Some? && after[r.day].spent.value >= r.limit
  {
  }

  /** A row as the ledger writes it: its amount readable, and an expiry exactly where there is a lease. */
  predicate Whole(row: DayRow) { row.spent.Some? && (row.token != "" <==> row.expiry.Some?) }

  /**
   * What a reservation is answered, and why. A day that has no row yet is granted below the limit that telemetry reports,
   * one without a lease below the limit it has spent; a live lease makes it wait, and a damaged row or an expired lease
   * exhausts the day.
   */
  lemma ReserveAnswers(days: Days, r: Reservation, now: int, expires: int, telemetry: Option<real>, pruneBefore: int)
    ensures var answer := Reserve(days, r, now, expires, telemetry, pruneBefore).1;
            if !(r.day in days && r.day >= pruneBefore) then
              && (answer == Granted <==> telemetry.Some? && telemetry.value < r.limit)
              && (answer == Exceeded <==> telemetry.Some? && telemetry.value >= r.limit)
            else if !Whole(days[r.day]) then answer == Unavailable
            else if days[r.day].token != "" then
              answer == if days[r.day].expiry.value.At? && days[r.day].expiry.value.instant > now then Unavailable
                        else Exceeded
            else answer == if days[r.day].spent.value < r.limit then Granted else Exceeded
  {
  }

  /** What a reservation leaves: a lease on what was spent, an exhausted day, or, where it was turned away, everything. */
  lemma ReserveLeaves(days: Days, r: Reservation, now: int, expires: int, telemetry: Option<real>, pruneBefore: int,
                      day: int)
    ensures var (after, answer) := Reserve(days, r, now, expires, telemetry, pruneBefore);
            var there := r.day in days && r.day >= pruneBefore;
            && (answer == Granted ==>
                  r.day in after && after[r.day].token == r.token && after[r.day].expiry == Some(At(expires))
                  && after[r.day].spent == if there then days[r.day].spent else telemetry)
            && (after != days ==>
                  && (day != r.day ==> (day in after <==> day in days && day >= pruneBefore))
                  && (day != r.day && day in after ==> after[day] == days[day])
                  && (answer != Granted ==>
                        && there && r.day in after && after[r.day].token == "" && after[r.day].expiry == None
                        && after[r.day].spent.Some? && after[r.day].spent.value >= r.limit
                        && (Whole(days[r.day]) ==> after[r.day].spent.value >= days[r.day].spent.value)))
            && (answer != Granted && !(there && (!Whole(days[r.day]) || (days[r.day].token != "" && answer == Exceeded)))
                ==> after == days)
  {
  }

  /** A reply settles for exactly its cost; one without a valid cost uses the day up. Nobody else's day is touched. */
  lemma ReplySettlesForItsCost(days: Days, r: Reservation, cost: Option<real>, day: int)
    ensures var after := Finish(days, r, ReplyEnding(cost));
            var held := r.day in days && days[r.day].token == r.token;
            && (held && days[r.day].spent.Some? && cost.Some? && cost.value >= 0.0 ==>
                  after[r.day] == DayRow(Some(days[r.day].spent.value + cost.value), "", None))
            && (held && days[r.day].spent.Some? && (cost.None? || cost.value < 0.0) ==>
                  after[r.day] == DayRow(Some(MaxReal(days[r.day].spent.value, r.limit)), "", None))
            && (held && days[r.day].spent.None? ==> after[r.day] == DayRow(Some(r.limit), "", None))
            && (!held ==> after == days)
            && (day != r.day ==> (day in after <==> day in days) && (day in days ==> after[day] == days[day]))
  {
  }

  /** The costs of a list of receipts, added up from the first. */
  function AddedUp(attempts: seq<Option<real>>): real {
    if attempts == [] then 0.0 else attempts[0].GetOr(0.0) + AddedUp(attempts[1..])
  }

  lemma {:induction false} AddedUpLast(attempts: seq<Option<real>>)
    requires attempts != []
    ensures AddedUp(attempts) == AddedUp(attempts[..|attempts| - 1]) + attempts[|attempts| - 1].GetOr(0.0)
  {
    if |attempts| > 1 {
      AddedUpLast(attempts[1..]);
      assert attempts[1..][..|attempts| - 2] == attempts[..|attempts| - 1][1..];
    }
  }

  lemma {:induction false} SumAddsUp(attempts: seq<Option<real>>)
    ensures Sum(Values(attempts)) == AddedUp(attempts)
  {
    if attempts != [] {
      var n := |attempts| - 1;
      SumAddsUp(attempts[..n]);
      AddedUpLast(attempts);
      assert Values(attempts)[..n] == Values(attempts[..n]);
    }
  }

  /** An error settles for the costs of its receipts; a bad one among them uses the day up, none at all keeps the lease. */
  lemma ErrorSettlesForItsReceipts(days: Days, r: Reservation, attempts: seq<Option<real>>)
    requires r.day in days && days[r.day].token == r.token && days[r.day].spent.Some?
    ensures ErrorEnding(attempts).None? <==> attempts == []
    ensures attempts != [] ==>
              var after := Finish(days, r, ErrorEnding(attempts).value);
              var spent := days[r.day].spent.value;
              after == days[r.day := DayRow(
                Some(if forall i :: 0 <= i < |attempts| ==> attempts[i].Some? && attempts[i].value >= 0.0
                     then spent + AddedUp(attempts) else MaxReal(spent, r.limit)), "", None)]
  {
    SumAddsUp(attempts);
  }
}
