/** The daily ledger over any run of reservations and endings under one limit. */
module LedgerRuns {
  import opened Wrappers
  import opened Ledger

  datatype Action =
    | Ask(token: string, day: int, now: int, expires: int, telemetry: Option<real>)
    | End(token: string, ending: Ending)

  /** How a granted token's lease went away. */
  datatype Fate = Charged(cost: real) | GivenBack | DayExhausted | Superseded | Forgotten

  datatype Bill = Bill(token: string, cost: real)

  /**
   * The table and its history: the day a token was granted, what became of tokens whose lease is gone,
   * what telemetry seeded a day with, the bills charged to it in order, and the exhausted days. Every day
   * before the floor has been pruned.
   */
  datatype System = System(
    days: Days, limit: real, floor: int, granted: map<string, int>, fates: map<string, Fate>,
    baseline: map<int, real>, bills: map<int, seq<Bill>>, exhausted: set<int>)

  /** Days are numbered from a day zero long past. */
  function Begin(limit: real): System { System(map[], limit, 0, map[], map[], map[], map[], {}) }

  function ReservationOf(s: System, token: string): Reservation
    requires token in s.granted
  {
    Reservation(s.granted[token], token, s.limit)
  }

  const RETENTION_DAYS := 8

  /** The transaction of a reservation first removes the days before this one. */
  function PruneBefore(a: Action): int
    requires a.Ask?
  {
    a.day - RETENTION_DAYS
  }

  /**
   * Tokens are never reused, and no reservation commits for a day that has been pruned meanwhile. Days may
   * go back otherwise, as when two reservations around midnight commit in the other order.
   */
  predicate Fits(s: System, a: Action) {
    match a
    case Ask(token, day, _, _, telemetry) =>
      token != "" && token !in s.granted && s.floor <= day && (telemetry.Some? ==> telemetry.value >= 0.0)
    case End(token, ending) => token in s.granted && (ending.Charge? ==> ending.cost >= 0.0)
  }

  function BillsOf(s: System, day: int): seq<Bill> { if day in s.bills then s.bills[day] else [] }

  function Total(bills: seq<Bill>): real {
    if bills == [] then 0.0 else Total(bills[..|bills| - 1]) + bills[|bills| - 1].cost
  }

  /** The tokens whose rows a pruning removed join those whose lease is gone. */
  function Forget(s: System, days: Days): map<string, Fate> {
    s.fates + map t | t in s.granted && t !in s.fates && s.granted[t] !in days :: Forgotten
  }

  function Raised(s: System, a: Action): int
    requires a.Ask?
  {
    MaxInt(s.floor, PruneBefore(a))
  }

  function DoAsk(s: System, a: Action): System
    requires a.Ask?
  {
    var r := Reservation(a.day, a.token, s.limit);
    var (days, answer) := Reserve(s.days, r, a.now, a.expires, a.telemetry, PruneBefore(a));
    if answer == Granted then
      s.(days := days, floor := Raised(s, a), fates := Forget(s, days), granted := s.granted[a.token := a.day],
         baseline := if a.day in s.days then s.baseline else s.baseline[a.day := a.telemetry.GetOr(0.0)])
    else if days != s.days && a.day in s.days then
      // The lease that had expired is taken away, and the rest of the day with it.
      s.(days := days, floor := Raised(s, a), exhausted := s.exhausted + {a.day},
         fates := Forget(s, days)[s.days[a.day].token := Superseded])
    else s
  }

  function FateOf(e: Ending): Fate {
    match e
    case Release => GivenBack
    case Charge(cost) => Charged(cost)
    case Exhaust => DayExhausted
  }

  function DoEnd(s: System, token: string, e: Ending): System
    requires token in s.granted
  {
    var r := ReservationOf(s, token);
    if !Finished(s.days, r) then s
    else
      s.(days := Finish(s.days, r, e), fates := s.fates[token := FateOf(e)],
         bills := if e.Charge? then s.bills[r.day := BillsOf(s, r.day) + [Bill(token, e.cost)]] else s.bills,
         exhausted := if e.Exhaust? then s.exhausted + {r.day} else s.exhausted)
  }

  function Next(s: System, a: Action): System {
    if !Fits(s, a) then s
    else match a
      case Ask(_, _, _, _, _) => DoAsk(s, a)
      case End(token, ending) => DoEnd(s, token, ending)
  }

  function Run(s: System, actions: seq<Action>): System {
    if actions == [] then s
    else Next(Run(s, actions[..|actions| - 1]), actions[|actions| - 1])
  }

  // ---------- The invariant ----------

  /** Everything the history says about one day that still has a row. */
  predicate DayOk(s: System, day: int)
    requires day in s.days
  {
    var row := s.days[day];
    var bills := BillsOf(s, day);
    && !Torn(row) && day in s.baseline && 0.0 <= s.baseline[day] < s.limit && row.spent.value >= 0.0
    && (row.token != "" ==>
          && row.spent.value < s.limit && row.token in s.granted && s.granted[row.token] == day
          && row.token !in s.fates && day !in s.exhausted)
    && (day in s.exhausted ==> row.spent.value == s.limit)
    && (day !in s.exhausted ==> row.spent.value == s.baseline[day] + Total(bills))
    && (bills != [] && day !in s.exhausted ==> row.spent.value - bills[|bills| - 1].cost < s.limit)
  }

  /** A granted token still holds its day's lease, or it has a fate that explains why not. */
  predicate TokenOk(s: System, token: string)
    requires token in s.granted
  {
    var day := s.granted[token];
    && token != "" && day in s.baseline
    && if token !in s.fates then day in s.days && s.days[day].token == token
       else
         && (day in s.days ==> s.days[day].token != token)
         && match s.fates[token]
            case Charged(cost) => Bill(token, cost) in BillsOf(s, day)
            case GivenBack => true
            case Forgotten => day !in s.days
            case _ => day in s.exhausted
  }

  /** Each bill of a day is the recorded fate of a token of that day, and no token is billed twice. */
  predicate BillsOk(s: System, day: int)
    requires day in s.bills
  {
    var bills := s.bills[day];
    && day in s.baseline
    && (forall i :: 0 <= i < |bills| ==>
          && bills[i].cost >= 0.0 && bills[i].token in s.granted && s.granted[bills[i].token] == day
          && bills[i].token in s.fates && s.fates[bills[i].token] == Charged(bills[i].cost))
    && (forall i, j :: 0 <= i < j < |bills| ==> bills[i].token != bills[j].token)
  }

  predicate DaysOk(s: System) { forall day :: day in s.days ==> DayOk(s, day) }

  predicate TokensOk(s: System) { forall token :: token in s.granted ==> TokenOk(s, token) }

  predicate AllBillsOk(s: System) { forall day :: day in s.bills ==> BillsOk(s, day) }

  /** Only days that were seeded have a history, and only those above the floor still have a row. */
  predicate RecordsOk(s: System) {
    && (forall token :: token in s.fates ==> token in s.granted)
    && (forall day :: day in s.days ==> s.floor <= day)
    && (forall day :: day in s.baseline && day !in s.days ==> day < s.floor)
    && (forall day :: day in s.exhausted ==> day in s.baseline)
  }

  predicate Inv(s: System) { DaysOk(s) && TokensOk(s) && AllBillsOk(s) && RecordsOk(s) }

  lemma BeginHolds(limit: real)
    ensures Inv(Begin(limit))
  {
  }

  /** A day whose row and history a step leaves alone stays right. */
  lemma DayFrame(s: System, s': System, day: int)
    requires s'.limit == s.limit && day in s.days && day in s'.days && s'.days[day] == s.days[day] && DayOk(s, day)
    requires day in s'.baseline && s'.baseline[day] == s.baseline[day]
    requires BillsOf(s', day) == BillsOf(s, day) && (day in s'.exhausted <==> day in s.exhausted)
    requires var t := s.days[day].token;
             t in s.granted ==> t in s'.granted && s'.granted[t] == s.granted[t] && (t in s'.fates ==> t in s.fates)
    ensures DayOk(s', day)
  {
  }

  /** A token whose lease or fate a step leaves alone stays accounted for. */
  lemma TokenFrame(s: System, s': System, token: string)
    requires token in s.granted && TokenOk(s, token)
    requires token in s'.granted && s'.granted[token] == s.granted[token]
    requires s.baseline.Keys <= s'.baseline.Keys && s.exhausted <= s'.exhausted
    requires var day := s.granted[token];
             && BillsOf(s, day) <= BillsOf(s', day)
             && if token in s.fates
                then && token in s'.fates && s'.fates[token] == s.fates[token]
                     && (day in s'.days ==> s'.days[day].token != token)
                     && (day in s'.days ==> day in s.days || !s.fates[token].Forgotten?)
                else if day in s'.days
                then token !in s'.fates && day in s.days && s'.days[day].token == s.days[day].token
                else token in s'.fates && s'.fates[token].Forgotten?
    ensures TokenOk(s', token)
  {
    var day := s.granted[token];
    assert forall b :: b in BillsOf(s, day) ==> b in BillsOf(s', day);
  }

  lemma BillsFrame(s: System, s': System, day: int)
    requires day in s.bills && day in s'.bills && s'.bills[day] == s.bills[day] && BillsOk(s, day)
    requires s.baseline.Keys <= s'.baseline.Keys
    requires forall t :: t in s.granted ==> t in s'.granted && s'.granted[t] == s.granted[t]
    requires forall t :: t in s.fates ==> t in s'.fates && s'.fates[t] == s.fates[t]
    ensures BillsOk(s', day)
  {
  }

  /** What a pruning leaves of the other days' history. */
  predicate Prunes(s: System, s': System, day: int) {
    && s'.bills == s.bills && s'.limit == s.limit && s.floor <= s'.floor && s.floor <= day
    && (forall d :: d in s'.days && d != day ==> d in s.days && s'.days[d] == s.days[d])
    && (forall d :: d in s.days && d !in s'.days ==> d < s'.floor)
    && (forall d :: d in s'.days ==> s'.floor <= d)
    && (forall t :: t in s'.fates ==> t in s.granted)
    && (forall t :: t in s.fates ==> t in s'.fates && s'.fates[t] == s.fates[t])
    && (forall t :: t in s.granted && t !in s.fates && s.granted[t] !in s'.days ==>
          t in s'.fates && s'.fates[t] == Forgotten)
  }

  predicate GrantShape(s: System, s': System, token: string, day: int, spent: real) {
    && Prunes(s, s', day) && day in s'.days
    && (var row := s'.days[day]; !Torn(row) && row.spent == Some(spent) && row.token == token != "")
    && 0.0 <= spent < s.limit && token !in s.granted
    && (day in s.days ==> s.days[day].token == "" && s.days[day].spent == Some(spent))
    && s'.granted == s.granted[token := day] && s'.exhausted == s.exhausted
    && s'.baseline == (if day in s.days then s.baseline else s.baseline[day := spent])
    && (forall t :: t in s'.fates && t !in s.fates ==> s.granted[t] !in s'.days)
  }

  /** What Forget adds, read off its definition once. */
  lemma ForgetPrunes(s: System, days: Days)
    requires RecordsOk(s)
    ensures var fates := Forget(s, days);
            && (forall t :: t in fates ==> t in s.granted)
            && (forall t :: t in s.fates ==> t in fates && fates[t] == s.fates[t])
            && (forall t :: t in fates && t !in s.fates ==> s.granted[t] !in days)
            && (forall t :: t in s.granted && t !in s.fates && s.granted[t] !in days ==>
                  t in fates && fates[t] == Forgotten)
  {
    assert forall t :: t in s.fates ==> t in s.granted;
    hide RecordsOk;
  }

  /** What the day had spent when a reservation reads it. */
  function Opening(s: System, a: Action): real
    requires a.Ask?
  {
    if a.day in s.days then s.days[a.day].spent.GetOr(0.0) else a.telemetry.GetOr(0.0)
  }

  lemma GrantMeans(s: System, a: Action)
    requires Fits(s, a) && a.Ask?
    requires Grants(s, a)
    ensures var r, s' := Reservation(a.day, a.token, s.limit), DoAsk(s, a);
            && s'.days == Pruned(s.days, PruneBefore(a))[a.day := Leased(Opening(s, a), r, a.expires)]
            && s' == s.(days := s'.days, floor := Raised(s, a), fates := Forget(s, s'.days),
                        granted := s.granted[a.token := a.day],
                        baseline := if a.day in s.days then s.baseline else s.baseline[a.day := Opening(s, a)])
            && Opening(s, a) < s.limit
            && (a.day in s.days ==> s.days[a.day].token == "" && s.days[a.day].spent == Some(Opening(s, a)))
  {
    hide Forget;
  }

  lemma AskPrunes(s: System, s': System, day: int, pruneBefore: int, row: DayRow)
    requires RecordsOk(s) && s'.days == Pruned(s.days, pruneBefore)[day := row] && pruneBefore <= day
    requires s'.bills == s.bills && s'.limit == s.limit && s.floor <= day && s'.floor == MaxInt(s.floor, pruneBefore)
    requires s'.fates == Forget(s, s'.days)
    ensures Prunes(s, s', day) && s'.days[day] == row
    ensures forall t :: t in s'.fates && t !in s.fates ==> s.granted[t] !in s'.days
  {
    ForgetPrunes(s, s'.days);
    hide Forget;
  }

  lemma OpeningIsASum(s: System, a: Action)
    requires Inv(s) && Fits(s, a) && a.Ask?
    ensures 0.0 <= Opening(s, a)
  {
    assert a.day in s.days ==> DayOk(s, a.day);
    hide Inv;
  }

  lemma GrantTakesShape(s: System, a: Action)
    requires Inv(s) && Fits(s, a) && a.Ask?
    requires Grants(s, a)
    ensures GrantShape(s, DoAsk(s, a), a.token, a.day, Opening(s, a))
  {
    var s' := DoAsk(s, a);
    GrantMeans(s, a);
    OpeningIsASum(s, a);
    hide Inv, DoAsk, Reserve, Opening;
    AskPrunes(s, s', a.day, PruneBefore(a), Leased(Opening(s, a), Reservation(a.day, a.token, s.limit), a.expires));
    hide Prunes, Pruned, Forget;
  }

  lemma GrantKeepsInv(s: System, s': System, token: string, day: int, spent: real)
    requires Inv(s) && GrantShape(s, s', token, day, spent)
    ensures Inv(s')
  {
    hide DaysOk, TokensOk, AllBillsOk, RecordsOk, GrantShape;
    GrantKeepsRecords(s, s', token, day, spent);
    GrantKeepsBills(s, s', token, day, spent);
    GrantKeepsDays(s, s', token, day, spent);
    GrantKeepsTokens(s, s', token, day, spent);
  }

  lemma GrantKeepsRecords(s: System, s': System, token: string, day: int, spent: real)
    requires DaysOk(s) && RecordsOk(s) && GrantShape(s, s', token, day, spent)
    ensures RecordsOk(s')
  {
    assert forall d :: d in s.days ==> DayOk(s, d) && d in s.baseline;
    hide DaysOk, DayOk, Torn;
  }

  lemma GrantKeepsBills(s: System, s': System, token: string, day: int, spent: real)
    requires AllBillsOk(s) && GrantShape(s, s', token, day, spent)
    ensures AllBillsOk(s')
  {
    hide BillsOk, Torn;
    forall d | d in s'.bills ensures BillsOk(s', d) {
      BillsFrame(s, s', d);
    }
  }

  lemma GrantKeepsTokens(s: System, s': System, token: string, day: int, spent: real)
    requires TokensOk(s) && DaysOk(s) && RecordsOk(s) && GrantShape(s, s', token, day, spent)
    ensures TokensOk(s')
  {
    hide TokenOk, GrantShape, DaysOk, RecordsOk;
    forall t | t in s'.granted ensures TokenOk(s', t) {
      GrantToken(s, s', token, day, spent, t);
    }
  }

  lemma GrantKeepsDays(s: System, s': System, token: string, day: int, spent: real)
    requires Inv(s) && GrantShape(s, s', token, day, spent)
    ensures DaysOk(s')
  {
    GrantStartsRight(s, s', token, day, spent);
    hide DayOk, TokenOk, AllBillsOk, RecordsOk, Torn;
    forall d | d in s'.days ensures DayOk(s', d) {
      if d == day {
        GrantedDay(s, s', day, spent);
      } else {
        GrantOtherDay(s, s', token, day, spent, d);
      }
    }
  }

  /** A day without a row that can still be granted has no history at all. */
  lemma GrantStartsRight(s: System, s': System, token: string, day: int, spent: real)
    requires AllBillsOk(s) && RecordsOk(s) && GrantShape(s, s', token, day, spent)
    ensures day !in s.days ==> day !in s.bills && day !in s.exhausted
    ensures token !in s'.fates
  {
    assert day in s.bills ==> BillsOk(s, day) && day in s.baseline;
    hide BillsOk, AllBillsOk, Torn;
  }

  lemma GrantOtherDay(s: System, s': System, token: string, day: int, spent: real, d: int)
    requires GrantShape(s, s', token, day, spent) && d in s'.days && d != day && DaysOk(s) && TokensOk(s)
    ensures DayOk(s', d)
  {
    var t := s.days[d].token;
    assert DayOk(s, d);
    assert t in s.granted && t !in s.fates && s.granted[t] == d ==> t !in s'.fates;
    if t in s.granted { assert TokenOk(s, t); }
    hide DaysOk, TokensOk, Torn;
    DayFrame(s, s', d);
  }

  lemma GrantToken(s: System, s': System, token: string, day: int, spent: real, t: string)
    requires TokensOk(s) && DaysOk(s) && RecordsOk(s) && GrantShape(s, s', token, day, spent) && t in s'.granted
    ensures TokenOk(s', t)
  {
    if t == token {
      assert day in s.days ==> DayOk(s, day) && day in s.baseline;
      hide TokensOk, DaysOk;
    } else {
      assert TokenOk(s, t);
      assert day in s.baseline ==> day in s.days;
      hide TokensOk, DaysOk, RecordsOk, Torn;
      TokenFrame(s, s', t);
    }
  }

  lemma GrantedDay(s: System, s': System, day: int, spent: real)
    requires s'.limit == s.limit && s'.bills == s.bills && s'.exhausted == s.exhausted && day in s'.days
    requires var row := s'.days[day];
             && !Torn(row) && row.spent == Some(spent) && row.token in s'.granted && row.token !in s'.fates
             && s'.granted[row.token] == day && row.token != "" && 0.0 <= spent < s.limit
    requires day in s.days ==> DayOk(s, day) && s.days[day].spent == Some(spent) && s'.baseline == s.baseline
    requires day !in s.days ==> day !in s.bills && day !in s.exhausted && s'.baseline == s.baseline[day := spent]
    ensures DayOk(s', day)
  {
    assert day !in s.days ==> BillsOf(s', day) == [];
  }

  predicate ExpiryShape(s: System, s': System, held: string, day: int) {
    && Prunes(s, s', day) && day in s.days && day in s'.days && s'.days[day] == Unleased(s.limit)
    && s.days[day].token == held != ""
    && s'.granted == s.granted && s'.baseline == s.baseline && s'.exhausted == s.exhausted + {day}
    && held in s'.fates && s'.fates[held] == Superseded
    && (forall t :: t in s'.fates && t !in s.fates && t != held ==> s.granted[t] !in s'.days)
  }

  lemma ExpiryMeans(s: System, a: Action)
    requires Fits(s, a) && a.Ask? && a.day in s.days
    requires s.days[a.day].token != "" && !Torn(s.days[a.day]) && s.days[a.day].expiry.value.Passed(a.now)
    ensures var row, s' := s.days[a.day], DoAsk(s, a);
            && s'.days == Pruned(s.days, PruneBefore(a))[a.day := Unleased(MaxReal(row.spent.value, s.limit))]
            && s' == s.(days := s'.days, floor := Raised(s, a), exhausted := s.exhausted + {a.day},
                        fates := Forget(s, s'.days)[row.token := Superseded])
  {
    hide Forget;
    assert DoAsk(s, a).days[a.day] == Unleased(MaxReal(s.days[a.day].spent.value, s.limit)) by {
      assert Pruned(s.days, PruneBefore(a))[a.day] == s.days[a.day];
    }
  }

  lemma ExpiryPrunes(s: System, s': System, day: int, pruneBefore: int, held: string)
    requires RecordsOk(s) && s'.days == Pruned(s.days, pruneBefore)[day := Unleased(s.limit)]
    requires pruneBefore <= day && s.floor <= day && s'.floor == MaxInt(s.floor, pruneBefore)
    requires s'.bills == s.bills && s'.limit == s.limit && held in s.granted && held !in s.fates && s.granted[held] == day
    requires s'.fates == Forget(s, s'.days)[held := Superseded]
    ensures Prunes(s, s', day)
    ensures forall t :: t in s'.fates && t !in s.fates && t != held ==> s.granted[t] !in s'.days
  {
    var before := s'.(fates := Forget(s, s'.days));
    AskPrunes(s, before, day, pruneBefore, Unleased(s.limit));
    hide Forget, Pruned, RecordsOk;
  }

  lemma ExpiryTakesShape(s: System, a: Action)
    requires Inv(s) && Fits(s, a) && Expires(s, a)
    ensures a.day in s.days && ExpiryShape(s, DoAsk(s, a), s.days[a.day].token, a.day)
  {
    var s', held := DoAsk(s, a), s.days[a.day].token;
    HeldIsOwed(s, a.day);
    RowIsWhole(s, a.day);
    ExpiryMeans(s, a);
    hide DaysOk, TokensOk, AllBillsOk, RecordsOk, Forget, Reserve, DoAsk, Torn, Pruned, Prunes;
    ExpiryPrunes(s, s', a.day, PruneBefore(a), held);
  }

  /** A leased row is below the limit, and its token is granted for its day without a fate yet. */
  lemma HeldIsOwed(s: System, day: int)
    requires DaysOk(s) && day in s.days && s.days[day].token != ""
    ensures var row := s.days[day];
            && row.token in s.granted && row.token !in s.fates && s.granted[row.token] == day
            && row.spent.Some? && 0.0 <= row.spent.value < s.limit && day in s.baseline
            && 0.0 <= s.baseline[day] < s.limit
  {
    assert DayOk(s, day);
    hide DaysOk;
  }

  lemma ExpiryKeepsInv(s: System, s': System, held: string, day: int)
    requires Inv(s) && ExpiryShape(s, s', held, day)
    ensures Inv(s')
  {
    hide DaysOk, TokensOk, AllBillsOk, RecordsOk, ExpiryShape;
    ExpiryKeepsRecords(s, s', held, day);
    ExpiryKeepsBills(s, s', held, day);
    ExpiryKeepsDays(s, s', held, day);
    ExpiryKeepsTokens(s, s', held, day);
  }

  lemma ExpiryKeepsRecords(s: System, s': System, held: string, day: int)
    requires DaysOk(s) && RecordsOk(s) && ExpiryShape(s, s', held, day)
    ensures RecordsOk(s')
  {
    HeldIsOwed(s, day);
    assert forall d :: d in s.days ==> DayOk(s, d) && d in s.baseline;
    hide DaysOk, DayOk;
  }

  lemma ExpiryKeepsBills(s: System, s': System, held: string, day: int)
    requires AllBillsOk(s) && ExpiryShape(s, s', held, day)
    ensures AllBillsOk(s')
  {
    hide BillsOk;
    forall d | d in s'.bills ensures BillsOk(s', d) {
      BillsFrame(s, s', d);
    }
  }

  lemma ExpiryKeepsTokens(s: System, s': System, held: string, day: int)
    requires TokensOk(s) && DaysOk(s) && ExpiryShape(s, s', held, day)
    ensures TokensOk(s')
  {
    hide TokenOk, ExpiryShape, DaysOk;
    assert s'.granted == s.granted by { ExpiryKeepsGranted(s, s', held, day); }
    forall t | t in s'.granted ensures TokenOk(s', t) {
      ExpiryToken(s, s', held, day, t);
    }
  }

  lemma ExpiryKeepsGranted(s: System, s': System, held: string, day: int)
    requires ExpiryShape(s, s', held, day)
    ensures s'.granted == s.granted
  {
  }

  lemma ExpiryKeepsDays(s: System, s': System, held: string, day: int)
    requires DaysOk(s) && TokensOk(s) && ExpiryShape(s, s', held, day)
    ensures DaysOk(s')
  {
    HeldIsOwed(s, day);
    hide TokensOk;
    forall d | d in s'.days ensures DayOk(s', d) {
      if d == day {
        assert DayOk(s, day);
      } else {
        hide DayOk, DaysOk;
        ExpiryOtherDay(s, s', held, day, d);
      }
    }
  }

  lemma ExpiryOtherDay(s: System, s': System, held: string, day: int, d: int)
    requires ExpiryShape(s, s', held, day) && d in s'.days && d != day && DaysOk(s)
    ensures DayOk(s', d)
  {
    HeldIsOwed(s, day);
    assert DayOk(s, d);
    var t := s.days[d].token;
    if t != "" { HeldIsOwed(s, d); }
    hide DaysOk, Torn;
    assert t in s.granted && t !in s.fates && s.granted[t] == d ==> t !in s'.fates;
    if t != "" {
      DayFrame(s, s', d);
    }
  }

  lemma ExpiryToken(s: System, s': System, held: string, day: int, t: string)
    requires TokensOk(s) && DaysOk(s) && ExpiryShape(s, s', held, day) && t in s.granted
    ensures TokenOk(s', t)
  {
    HeldIsOwed(s, day);
    assert TokenOk(s, t);
    hide TokensOk, DaysOk;
    if t != held {
      TokenFrame(s, s', t);
    }
  }

  predicate EndShape(s: System, s': System, token: string, day: int, e: Ending) {
    && token in s.granted && s.granted[token] == day && day in s.days && token !in s.fates
    && s'.days == s.days[day := Unleased(AfterEnding(s.days[day].spent.GetOr(0.0), s.limit, e))]
    && s'.granted == s.granted && s'.baseline == s.baseline && s'.limit == s.limit && s'.floor == s.floor
    && s'.fates == s.fates[token := FateOf(e)]
    && s'.exhausted == (if e.Exhaust? then s.exhausted + {day} else s.exhausted)
    && s'.bills == (if e.Charge? then s.bills[day := BillsOf(s, day) + [Bill(token, e.cost)]] else s.bills)
  }

  lemma EndKeepsInv(s: System, s': System, token: string, day: int, e: Ending)
    requires Inv(s) && EndShape(s, s', token, day, e) && s.days[day].token == token && (e.Charge? ==> e.cost >= 0.0)
    ensures Inv(s')
  {
    hide DaysOk, TokensOk, AllBillsOk, RecordsOk;
    EndKeepsRecords(s, s', token, day, e);
    EndKeepsBills(s, s', token, day, e);
    EndKeepsDays(s, s', token, day, e);
    EndKeepsTokens(s, s', token, day, e);
  }

  lemma EndKeepsRecords(s: System, s': System, token: string, day: int, e: Ending)
    requires DaysOk(s) && RecordsOk(s) && EndShape(s, s', token, day, e)
    ensures RecordsOk(s')
  {
    assert DayOk(s, day) && day in s.baseline;
    hide DayOk, DaysOk, AfterEnding, BillsOf;
  }

  lemma EndKeepsDays(s: System, s': System, token: string, day: int, e: Ending)
    requires DaysOk(s) && TokensOk(s) && EndShape(s, s', token, day, e) && s.days[day].token == token
    requires e.Charge? ==> e.cost >= 0.0
    ensures DaysOk(s')
  {
    assert DayOk(s, day) && TokenOk(s, token) && token != "";
    hide DayOk, TokenOk, AfterEnding, BillsOf;
    forall d | d in s'.days ensures DayOk(s', d) {
      if d == day {
        EndedDay(s, s', token, day, e);
      } else {
        assert DayOk(s, d);
        EndOtherDay(s, s', token, day, e, d);
      }
    }
  }

  lemma EndKeepsTokens(s: System, s': System, token: string, day: int, e: Ending)
    requires TokensOk(s) && EndShape(s, s', token, day, e) && s.days[day].token == token
    ensures TokensOk(s')
  {
    hide TokenOk, AfterEnding, BillsOf;
    forall t | t in s'.granted ensures TokenOk(s', t) {
      EndToken(s, s', token, day, e, t);
    }
  }

  lemma EndKeepsBills(s: System, s': System, token: string, day: int, e: Ending)
    requires AllBillsOk(s) && DaysOk(s) && EndShape(s, s', token, day, e) && (e.Charge? ==> e.cost >= 0.0)
    ensures AllBillsOk(s')
  {
    assert DayOk(s, day) && day in s.baseline;
    hide BillsOk, DayOk, AfterEnding, BillsOf;
    forall d | d in s'.bills ensures BillsOk(s', d) {
      if d != day || !e.Charge? {
        BillsFrame(s, s', d);
      } else {
        EndBills(s, s', token, day, e);
      }
    }
  }

  lemma EndedDay(s: System, s': System, token: string, day: int, e: Ending)
    requires EndShape(s, s', token, day, e) && DayOk(s, day) && s.days[day].token == token != ""
    requires e.Charge? ==> e.cost >= 0.0
    ensures DayOk(s', day)
  {
    var bills := BillsOf(s, day);
    if e.Charge? {
      assert BillsOf(s', day) == bills + [Bill(token, e.cost)];
      assert BillsOf(s', day)[..|bills|] == bills;
    }
  }

  lemma EndOtherDay(s: System, s': System, token: string, day: int, e: Ending, d: int)
    requires EndShape(s, s', token, day, e) && d in s.days && d != day && DayOk(s, d) && token != ""
    ensures DayOk(s', d)
  {
    DayFrame(s, s', d);
  }

  lemma EndToken(s: System, s': System, token: string, day: int, e: Ending, t: string)
    requires EndShape(s, s', token, day, e) && t in s.granted && TokenOk(s, t) && s.days[day].token == token
    ensures TokenOk(s', t)
  {
    if t == token {
      assert e.Charge? ==> BillsOf(s', day)[|BillsOf(s, day)|] == Bill(token, e.cost);
    } else {
      TokenFrame(s, s', t);
    }
  }

  lemma EndBills(s: System, s': System, token: string, day: int, e: Ending)
    requires EndShape(s, s', token, day, e) && e.Charge? && e.cost >= 0.0
    requires (day in s.bills ==> BillsOk(s, day)) && day in s.baseline
    ensures BillsOk(s', day)
  {
    var bills := BillsOf(s, day);
    forall i | 0 <= i < |bills| ensures bills[i].token != token && s'.bills[day][i] == bills[i] {
      assert bills[i].token in s.fates;
    }
  }

  lemma EndTakesShape(s: System, token: string, e: Ending)
    requires token in s.granted && Inv(s) && Finished(s.days, ReservationOf(s, token))
    ensures EndShape(s, DoEnd(s, token, e), token, s.granted[token], e) && s.days[s.granted[token]].token == token
  {
    assert TokenOk(s, token) && DayOk(s, s.granted[token]);
    hide DaysOk, TokensOk, AllBillsOk, RecordsOk, AfterEnding, BillsOf;
  }

  /** The lease that a reservation for this day finds has expired. */
  predicate Expires(s: System, a: Action) {
    && a.Ask? && a.day in s.days && s.days[a.day].token != ""
    && (s.days[a.day].expiry.Some? ==> s.days[a.day].expiry.value.Passed(a.now))
  }

  predicate Grants(s: System, a: Action) {
    && a.Ask?
    && var r := Reservation(a.day, a.token, s.limit);
       Reserve(s.days, r, a.now, a.expires, a.telemetry, PruneBefore(a)).1.Granted?
  }

  lemma RowIsWhole(s: System, day: int)
    requires DaysOk(s) && day in s.days
    ensures !Torn(s.days[day])
  {
    assert DayOk(s, day);
  }

  lemma NextKeepsInv(s: System, a: Action)
    requires Inv(s)
    ensures Inv(Next(s, a))
  {
    hide Inv, Grants, Expires, DoAsk, DoEnd, Finished;
    if Fits(s, a) {
      match a
      case End(token, ending) => EndingKeepsInv(s, token, ending);
      case Ask(_, _, _, _, _) => AskKeepsInv(s, a);
    }
  }

  lemma EndingKeepsInv(s: System, token: string, e: Ending)
    requires Inv(s) && token in s.granted && (e.Charge? ==> e.cost >= 0.0)
    ensures Inv(DoEnd(s, token, e))
  {
    if Finished(s.days, ReservationOf(s, token)) {
      EndTakesShape(s, token, e);
      hide *;
      EndKeepsInv(s, DoEnd(s, token, e), token, s.granted[token], e);
    }
  }

  lemma AskKeepsInv(s: System, a: Action)
    requires Inv(s) && Fits(s, a) && a.Ask?
    ensures Inv(DoAsk(s, a))
  {
    hide *;
    if Grants(s, a) {
      GrantTakesShape(s, a);
      GrantKeepsInv(s, DoAsk(s, a), a.token, a.day, Opening(s, a));
    } else if Expires(s, a) {
      ExpiryTakesShape(s, a);
      ExpiryKeepsInv(s, DoAsk(s, a), s.days[a.day].token, a.day);
    } else {
      IdleAsk(s, a);
    }
  }

  /** A refusal that takes no lease away changes nothing at all. */
  lemma IdleAsk(s: System, a: Action)
    requires Inv(s) && Fits(s, a) && a.Ask?
    requires !Grants(s, a)
    requires !Expires(s, a)
    ensures DoAsk(s, a) == s
  {
    if a.day in s.days {
      assert DayOk(s, a.day);
    }
  }

  lemma {:induction false} RunKeepsInv(s: System, actions: seq<Action>)
    requires Inv(s)
    ensures Inv(Run(s, actions))
  {
    if actions != [] {
      RunKeepsInv(s, actions[..|actions| - 1]);
      NextKeepsInv(Run(s, actions[..|actions| - 1]), actions[|actions| - 1]);
    }
  }

  // ---------- What time does ----------

  /** A reservation can still be charged when it holds the lease of its day. */
  predicate CanSettle(s: System, token: string) {
    token in s.granted && Finished(s.days, ReservationOf(s, token))
  }

  /** What a later state may not take back. */
  predicate Later(s: System, s': System) {
    && s'.limit == s.limit && s.floor <= s'.floor
    && (forall t :: t in s.granted ==> t in s'.granted && s'.granted[t] == s.granted[t])
    && (forall t :: t in s.fates ==> t in s'.fates && s'.fates[t] == s.fates[t])
    && (forall d :: d in s'.days && d in s.baseline ==>
          d in s.days && s.days[d].spent.Some? && s'.days[d].spent.Some?
          && s.days[d].spent.value <= s'.days[d].spent.value)
    && s.baseline.Keys <= s'.baseline.Keys
  }

  lemma LaterAgain(a: System, b: System, c: System)
    requires Later(a, b) && Later(b, c)
    ensures Later(a, c)
  {
    forall d | d in c.days && d in a.baseline
      ensures d in a.days && a.days[d].spent.Some? && c.days[d].spent.Some?
              && a.days[d].spent.value <= c.days[d].spent.value {
      assert d in b.days;
    }
  }

  lemma KeptDays(s: System)
    requires DaysOk(s) && RecordsOk(s)
    ensures forall d :: d in s.days ==> s.days[d].spent.Some? && (s.days[d].token != "" ==> s.days[d].spent.value < s.limit)
    ensures forall d :: d in s.baseline && d !in s.days ==> d < s.floor
  {
    assert forall d :: d in s.days ==> DayOk(s, d);
    hide DaysOk;
  }

  lemma GrantIsLater(s: System, s': System, token: string, day: int, spent: real)
    requires Inv(s) && GrantShape(s, s', token, day, spent)
    ensures Later(s, s')
  {
    KeptDays(s);
    hide Inv, Torn;
  }

  lemma ExpiryIsLater(s: System, s': System, held: string, day: int)
    requires Inv(s) && ExpiryShape(s, s', held, day)
    ensures Later(s, s')
  {
    KeptDays(s);
    hide Inv;
  }

  lemma SameIsLater(s: System)
    requires Inv(s)
    ensures Later(s, s)
  {
    KeptDays(s);
    hide Inv;
  }

  lemma EndIsLater(s: System, s': System, token: string, day: int, e: Ending)
    requires Inv(s) && EndShape(s, s', token, day, e) && s.days[day].token == token && (e.Charge? ==> e.cost >= 0.0)
    ensures Later(s, s')
  {
    KeptDays(s);
    hide Inv;
  }

  lemma NextIsLater(s: System, a: Action)
    requires Inv(s)
    ensures Later(s, Next(s, a))
  {
    hide DoAsk, DoEnd, Inv, Grants, Expires, Finished, EndShape, Later;
    if Fits(s, a) && a.Ask? {
      AskIsLater(s, a);
    } else if Fits(s, a) && a.End? && Finished(s.days, ReservationOf(s, a.token)) {
      EndTakesShape(s, a.token, a.ending);
      EndIsLater(s, DoEnd(s, a.token, a.ending), a.token, s.granted[a.token], a.ending);
    } else {
      IdleEnd(s, a);
      SameIsLater(s);
    }
  }

  lemma IdleEnd(s: System, a: Action)
    requires !(Fits(s, a) && a.Ask?) && !(Fits(s, a) && a.End? && Finished(s.days, ReservationOf(s, a.token)))
    ensures Next(s, a) == s
  {
  }

  lemma AskIsLater(s: System, a: Action)
    requires Inv(s) && Fits(s, a) && a.Ask?
    ensures Later(s, DoAsk(s, a))
  {
    hide *;
    if Grants(s, a) {
      GrantTakesShape(s, a);
      GrantIsLater(s, DoAsk(s, a), a.token, a.day, Opening(s, a));
    } else if Expires(s, a) {
      ExpiryTakesShape(s, a);
      ExpiryIsLater(s, DoAsk(s, a), s.days[a.day].token, a.day);
    } else {
      IdleAsk(s, a);
      SameIsLater(s);
    }
  }

  lemma {:induction false} RunIsLater(s: System, more: seq<Action>)
    requires Inv(s)
    ensures Later(s, Run(s, more))
  {
    if more == [] {
      SameIsLater(s);
    } else {
      var before := Run(s, more[..|more| - 1]);
      RunIsLater(s, more[..|more| - 1]);
      RunKeepsInv(s, more[..|more| - 1]);
      NextIsLater(before, more[|more| - 1]);
      assert Run(s, more) == Next(before, more[|more| - 1]);
      hide *;
      LaterAgain(s, before, Next(before, more[|more| - 1]));
    }
  }

  // ---------- What a run can show ----------

  /**
   * In every reachable state a token can still settle exactly when it has no fate yet, no two tokens of
   * one day can, and the day of one that can is below its limit.
   */
  lemma OneSettlerADay(limit: real, actions: seq<Action>, token: string, other: string)
    requires var s := Run(Begin(limit), actions); token in s.granted && other in s.granted
    ensures var s := Run(Begin(limit), actions);
            && (CanSettle(s, token) <==> token !in s.fates)
            && (CanSettle(s, token) && CanSettle(s, other) && s.granted[token] == s.granted[other] ==> token == other)
            && (CanSettle(s, token) ==> s.days[s.granted[token]].spent.value < limit)
  {
    var s := Run(Begin(limit), actions);
    BeginHolds(limit);
    RunKeepsInv(Begin(limit), actions);
    RunIsLater(Begin(limit), actions);
    assert TokenOk(s, token) && TokenOk(s, other);
    assert s.granted[token] in s.days ==> DayOk(s, s.granted[token]);
    hide Inv, Run;
  }

  /** Once superseded, settled, given back or forgotten, a token can never settle again. */
  lemma NeverSettlesAgain(limit: real, actions: seq<Action>, more: seq<Action>, token: string)
    requires var s := Run(Begin(limit), actions); token in s.granted && !CanSettle(s, token)
    ensures var s := Run(Begin(limit), actions);
            var s' := Run(s, more);
            && token in s'.granted && !CanSettle(s', token)
            && token in s.fates && token in s'.fates && s'.fates[token] == s.fates[token]
  {
    var s := Run(Begin(limit), actions);
    var s' := Run(s, more);
    OneSettlerADay(limit, actions, token, token);
    BeginHolds(limit);
    RunKeepsInv(Begin(limit), actions);
    RunKeepsInv(s, more);
    RunIsLater(s, more);
    assert TokenOk(s', token);
    hide Inv, Run, Begin;
  }

  /** What a day has spent never goes down while the day is kept. */
  lemma SpentNeverDecreases(limit: real, actions: seq<Action>, more: seq<Action>, day: int)
    requires var s := Run(Begin(limit), actions); day in s.days && day in Run(s, more).days
    ensures var s := Run(Begin(limit), actions);
            && s.days[day].spent.Some? && Run(s, more).days[day].spent.Some?
            && s.days[day].spent.value <= Run(s, more).days[day].spent.value
  {
    var s := Run(Begin(limit), actions);
    BeginHolds(limit);
    RunKeepsInv(Begin(limit), actions);
    RunIsLater(s, more);
    assert DayOk(s, day);
    hide Run, DayOk;
  }

  /** Only a day below its limit, or one that has no history at all, gets a new token. */
  lemma NewTokenMeansRoom(s: System, a: Action, token: string)
    requires Inv(s) && token in Next(s, a).granted && token !in s.granted
    ensures var day := Next(s, a).granted[token];
            if day in s.days then s.days[day].spent.Some? && s.days[day].spent.value < s.limit
            else day !in s.baseline
  {
    if Fits(s, a) && a.Ask? {
      if Grants(s, a) {
        GrantTakesShape(s, a);
        KeptDays(s);
        hide DoAsk, Reserve, DaysOk, TokensOk, AllBillsOk, RecordsOk, Opening;
      }
    }
  }

  /** A day at its limit never grants again, however the run goes on. */
  lemma {:induction false} FullDayStaysShut(limit: real, actions: seq<Action>, more: seq<Action>, day: int, token: string)
    requires var s := Run(Begin(limit), actions);
             day in s.days && s.days[day].spent.Some? && s.days[day].spent.value >= limit
    requires var s' := Run(Run(Begin(limit), actions), more); token in s'.granted && s'.granted[token] == day
    ensures token in Run(Begin(limit), actions).granted
  {
    var s := Run(Begin(limit), actions);
    if more != [] {
      var before := Run(s, more[..|more| - 1]);
      BeginHolds(limit);
      RunKeepsInv(Begin(limit), actions);
      RunKeepsInv(s, more[..|more| - 1]);
      RunIsLater(Begin(limit), actions);
      RunIsLater(s, more[..|more| - 1]);
      assert s.limit == limit && DayOk(s, day) && day in s.baseline;
      assert Run(s, more) == Next(before, more[|more| - 1]);
      if token in before.granted {
        NextIsLater(before, more[|more| - 1]);
        FullDayStaysShut(limit, actions, more[..|more| - 1], day, token);
      } else {
        NewTokenMeansRoom(before, more[|more| - 1], token);
        hide Run, Next, DayOk, Inv;
      }
    }
  }

  /**
   * Conservation: what a day has spent is what telemetry seeded it with plus its bills, each the recorded
   * charge of another token of that day and every such charge among them; only an exhausted day stands
   * exactly at its limit instead. So the limit is overshot by less than the cost of the last bill.
   */
  lemma SpentIsBaselinePlusBills(limit: real, actions: seq<Action>, day: int)
    requires day in Run(Begin(limit), actions).days
    ensures var s := Run(Begin(limit), actions);
            var spent, bills := s.days[day].spent.GetOr(0.0), BillsOf(s, day);
            && s.days[day].spent.Some? && day in s.baseline && s.baseline[day] < limit
            && spent == (if day in s.exhausted then limit else s.baseline[day] + Total(bills))
            && (spent >= limit && day !in s.exhausted ==>
                  bills != [] && spent < limit + bills[|bills| - 1].cost)
            && (forall i :: 0 <= i < |bills| ==>
                  bills[i].token in s.granted && s.granted[bills[i].token] == day
                  && bills[i].token in s.fates && s.fates[bills[i].token] == Charged(bills[i].cost))
            && (forall i, j :: 0 <= i < j < |bills| ==> bills[i].token != bills[j].token)
            && (forall t :: t in s.granted && s.granted[t] == day && t in s.fates && s.fates[t].Charged? ==>
                  Bill(t, s.fates[t].cost) in bills)
  {
    var s := Run(Begin(limit), actions);
    BeginHolds(limit);
    RunKeepsInv(Begin(limit), actions);
    RunIsLater(Begin(limit), actions);
    assert s.limit == limit && DayOk(s, day);
    assert day in s.bills ==> BillsOk(s, day);
    forall t | t in s.granted && s.granted[t] == day && t in s.fates && s.fates[t].Charged?
      ensures Bill(t, s.fates[t].cost) in BillsOf(s, day) {
      assert TokenOk(s, t);
    }
    hide Run, Inv, Later;
  }
}
