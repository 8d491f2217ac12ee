/** The chart-analysis page: the free-tier quota, position sizing from the account's
    risk settings, the 1:1 and 1:2 targets, and the bookkeeping after a scan. */
module Analysis {
  import opened Types
  import opened Text
  import opened Numbers
  import opened Storage
  import opened Session

  const FreeLifetimeLimit: nat := 5
  const LimitMessage := "Free limit reached (5/5). Upgrade your plan to continue."
  const AnalysisFailedMessage := "Analysis failed. Please try a clearer chart image."

  /** `checkLimits`: the error shown when a FREE user has used up the lifetime quota. */
  function CheckLimits(u: UserProfile): (r: Option<string>)
    ensures r.Some? <==> u.plan == FREE && u.signalsUsedLifetime >= FreeLifetimeLimit
    ensures r.Some? ==> r.value == LimitMessage
  {
    if u.plan == FREE && u.signalsUsedLifetime >= FreeLifetimeLimit then Some(LimitMessage) else None
  }

  /** Paid plans are never refused, however many signals they have used. */
  lemma PaidPlansUnlimited(u: UserProfile)
    requires u.plan != FREE
    ensures CheckLimits(u) == None
  {
  }

  /** Metals as `calculateLots` recognises them: "XAU" or "GOLD" in the upper-cased symbol. */
  predicate IsGold(pair: string)
  {
    Contains(Upper(pair), "XAU") || Contains(Upper(pair), "GOLD")
  }

  /** Metals as the precision and take-profit pip code recognises them: "XAU" only. */
  predicate IsXau(pair: string)
  {
    Contains(Upper(pair), "XAU")
  }

  predicate IsJpy(pair: string)
  {
    Contains(Upper(pair), "JPY")
  }

  /** `accountSize * (riskPercentage / 100)`. */
  function RiskAmount(s: UserSettings): (r: real)
    ensures r * 100.0 == s.accountSize * s.riskPercentage
    ensures s.accountSize >= 0.0 && s.riskPercentage >= 0.0 ==> r >= 0.0
  {
    s.accountSize * (s.riskPercentage / 100.0)
  }

  /** The stop distance in pips before rounding: a tenth of a unit for metals (but at
      least 1), a hundredth for JPY pairs and a ten-thousandth otherwise; a zero
      distance counts as 10 pips. */
  function StopPips(slPrice: real, entryPrice: real, pair: string): (p: real)
    ensures p > 0.0
    ensures IsGold(pair) ==> p >= 1.0
    ensures IsGold(pair) && Abs(entryPrice - slPrice) * 10.0 >= 1.0 ==> p == Abs(entryPrice - slPrice) * 10.0
    ensures IsGold(pair) && Abs(entryPrice - slPrice) * 10.0 < 1.0 ==> p == 1.0
    ensures !IsGold(pair) && slPrice != entryPrice ==>
      p == Abs(entryPrice - slPrice) * (if IsJpy(pair) then 100.0 else 10000.0)
    ensures !IsGold(pair) && slPrice == entryPrice ==> p == 10.0
  {
    var slDiff := Abs(entryPrice - slPrice);
    var slPips :=
      if IsGold(pair) then (if slDiff * 10.0 < 1.0 then 1.0 else slDiff * 10.0)
      else if IsJpy(pair) then slDiff * 100.0
      else slDiff * 10000.0;
    if slPips == 0.0 then 10.0 else slPips
  }

  /** The unrounded lot size: one pip of one lot is worth 10 account units. */
  function RawLots(slPrice: real, entryPrice: real, pair: string, s: UserSettings): (l: real)
    ensures RiskAmount(s) >= 0.0 ==> l >= 0.0
    ensures RiskAmount(s) >= 0.0 && IsGold(pair) ==> l <= RiskAmount(s) / 10.0
  {
    RiskAmount(s) / (StopPips(slPrice, entryPrice, pair) * 10.0)
  }

  /** Losing the stop distance on the unrounded lot size costs exactly the risk amount. */
  lemma RawLotsRiskExactly(slPrice: real, entryPrice: real, pair: string, s: UserSettings)
    ensures RawLots(slPrice, entryPrice, pair, s) * StopPips(slPrice, entryPrice, pair) * 10.0 == RiskAmount(s)
  {
    var p := StopPips(slPrice, entryPrice, pair) * 10.0;
    assert RawLots(slPrice, entryPrice, pair, s) * p == RiskAmount(s);
  }

  datatype Lots = Lots(lots: real, slPips: real)

  /** `calculateLots`: the lot size to two decimals and the stop distance to one. */
  function CalculateLots(slPrice: real, entryPrice: real, pair: string, s: UserSettings): (r: Lots)
    ensures r.lots == RoundTo(RawLots(slPrice, entryPrice, pair, s), 2)
    ensures r.slPips == RoundTo(StopPips(slPrice, entryPrice, pair), 1)
    ensures s.accountSize >= 0.0 && s.riskPercentage >= 0.0 ==> r.lots >= 0.0
    ensures r.slPips >= 0.0
  {
    var slPips := StopPips(slPrice, entryPrice, pair);
    var lotSize := RiskAmount(s) / (slPips * 10.0);
    Lots(RoundTo(lotSize, 2), RoundTo(slPips, 1))
  }

  /** A metal's reported stop distance is at least one pip. */
  lemma GoldStopAtLeastOnePip(slPrice: real, entryPrice: real, pair: string, s: UserSettings)
    requires IsGold(pair)
    ensures CalculateLots(slPrice, entryPrice, pair, s).slPips >= 1.0
  {
    RoundToMonotone(1.0, StopPips(slPrice, entryPrice, pair), 1);
    RoundToWhole(1, 1);
  }

  /** There is no minimum lot: a small enough risk rounds the lot size to 0. */
  lemma NoLotFloor()
    ensures CalculateLots(1.0, 1.1, "EURUSD", UserSettings(10.0, 1.0, Standard, None)).lots == 0.0
  {
    EurUsdIsFx();
    assert StopPips(1.0, 1.1, "EURUSD") == 1000.0;
    assert RawLots(1.0, 1.1, "EURUSD", UserSettings(10.0, 1.0, Standard, None)) == 0.00001;
    assert Units(0.00001, 2) == 0;
  }

  /** Decimals of the price outputs: 3 for JPY pairs, 2 for "XAU" pairs, 5 otherwise. */
  function Precision(pair: string): (d: nat)
    ensures IsJpy(pair) ==> d == 3
    ensures !IsJpy(pair) && IsXau(pair) ==> d == 2
    ensures !IsJpy(pair) && !IsXau(pair) ==> d == 5
  {
    if IsJpy(pair) then 3 else if IsXau(pair) then 2 else 5
  }

  /** A "GOLD" symbol without "XAU" is sized as a metal but priced with five decimals. */
  lemma GoldSymbolPricedAsFx()
    ensures IsGold("GOLD") && Precision("GOLD") == 5 && TpPipFactor("GOLD") == 10000.0
  {
    assert Upper("GOLD") == "GOLD";
    assert !IsJpy("GOLD") && !IsXau("GOLD");
  }

  /** The first target's distance in pips, to one decimal (`tpPips`). */
  function TpPips(tp1: real, entry: real, pair: string): real
  {
    RoundTo(Abs(tp1 - entry) * TpPipFactor(pair), 1)
  }

  datatype Targets = Targets(tp1: real, tp2: real)

  /** The 1:1 and 1:2 targets: a BUY adds the risk distance, any other direction subtracts it. */
  function DeriveTargets(direction: string, entry: real, sl: real): (t: Targets)
    ensures direction == "BUY" ==> t.tp1 - entry == Abs(entry - sl) && t.tp2 - entry == 2.0 * Abs(entry - sl)
    ensures direction != "BUY" ==> entry - t.tp1 == Abs(entry - sl) && entry - t.tp2 == 2.0 * Abs(entry - sl)
  {
    var riskDist := Abs(entry - sl);
    if direction == "BUY" then Targets(entry + riskDist, entry + riskDist * 2.0)
    else Targets(entry - riskDist, entry - riskDist * 2.0)
  }

  /** The sell targets mirror the buy targets about the entry, and the second target is
      always the farther one. */
  lemma TargetsMirror(direction: string, entry: real, sl: real)
    requires direction != "BUY"
    ensures var b, t := DeriveTargets("BUY", entry, sl), DeriveTargets(direction, entry, sl);
      && b.tp1 - entry == entry - t.tp1 && b.tp2 - entry == entry - t.tp2
      && entry <= b.tp1 <= b.tp2 && t.tp2 <= t.tp1 <= entry
      && (entry != sl ==> entry < b.tp1 < b.tp2 && t.tp2 < t.tp1 < entry)
  {
  }

  /** The take-profit distance in pips. Note the metal test comes first and only looks
      for "XAU". */
  function TpPipFactor(pair: string): (f: real)
    ensures IsXau(pair) ==> f == 10.0
    ensures !IsXau(pair) && IsJpy(pair) ==> f == 100.0
    ensures !IsXau(pair) && !IsJpy(pair) ==> f == 10000.0
  {
    if IsXau(pair) then 10.0 else if IsJpy(pair) then 100.0 else 10000.0
  }

  /** The signal assembled from a valid analysis. */
  function BuildSignal(a: AIAnalysisResponse, s: UserSettings, id: string, timestamp: int): (sig: TradeSignal)
    ensures sig.rewardTp1 == sig.riskAmount == RoundTo(RiskAmount(s), 2)
    ensures sig.rewardTp2 == RoundTo(2.0 * RiskAmount(s), 2)
    ensures sig.direction == SideOf(a.direction)
    ensures sig.pair == a.pair && sig.reasoning == a.reasoning && sig.id == id
    ensures sig.timestamp == timestamp && sig.timeframe == a.timeframe && sig.strategy == a.strategy
    ensures sig.entry == RoundTo(a.entry, Precision(a.pair)) && sig.sl == RoundTo(a.sl, Precision(a.pair))
    ensures sig.tp1 == RoundTo(DeriveTargets(a.direction, a.entry, a.sl).tp1, Precision(a.pair))
    ensures sig.tp2 == RoundTo(DeriveTargets(a.direction, a.entry, a.sl).tp2, Precision(a.pair))
    ensures sig.lotSize == CalculateLots(sig.sl, sig.entry, a.pair, s).lots
    ensures sig.slPips == CalculateLots(sig.sl, sig.entry, a.pair, s).slPips
    ensures sig.tpPips == TpPips(sig.tp1, sig.entry, a.pair)
  {
    SignalFrom(a.pair, a.timeframe, a.direction, a.strategy, a.entry, a.sl, a.reasoning, s, id, timestamp)
  }

  /** The signal built from the fields of the analysis that `handleFileUpload` reads. */
  function SignalFrom(pair: string, timeframe: string, direction: string, strategy: string,
                      entry: real, sl: real, reasoning: string, s: UserSettings, id: string, timestamp: int): TradeSignal
  {
    var precision := Precision(pair);
    var t := DeriveTargets(direction, entry, sl);
    var finalTp1 := RoundTo(t.tp1, precision);
    var finalTp2 := RoundTo(t.tp2, precision);
    var finalEntry := RoundTo(entry, precision);
    var finalSl := RoundTo(sl, precision);
    var lots := CalculateLots(finalSl, finalEntry, pair, s);
    var riskAmount := RiskAmount(s);
    TradeSignal(
      id, timestamp, pair, timeframe, SideOf(direction), strategy,
      finalEntry, finalSl, finalTp1, finalTp2,
      lots.slPips, TpPips(finalTp1, finalEntry, pair), lots.lots,
      RoundTo(riskAmount, 2), RoundTo(riskAmount, 2), RoundTo(riskAmount * 2.0, 2),
      reasoning)
  }

  /** Whatever targets the analysis proposed, the signal's are the derived ones. */
  lemma AnalystTargetsIgnored(a: AIAnalysisResponse, tp1: real, tp2: real, s: UserSettings, id: string, timestamp: int)
    ensures BuildSignal(a.(tp1 := tp1, tp2 := tp2), s, id, timestamp) == BuildSignal(a, s, id, timestamp)
    ensures var sig := BuildSignal(a, s, id, timestamp);
      var t := DeriveTargets(a.direction, a.entry, a.sl);
      sig.tp1 == RoundTo(t.tp1, Precision(a.pair)) && sig.tp2 == RoundTo(t.tp2, Precision(a.pair))
  {
  }

  /** After rounding, a BUY's targets still lie at or above the entry in order, and a
      sell's at or below it. */
  lemma SignalTargetsOrdered(a: AIAnalysisResponse, s: UserSettings, id: string, timestamp: int)
    ensures var sig := BuildSignal(a, s, id, timestamp);
      && (sig.direction == BUY ==> sig.entry <= sig.tp1 <= sig.tp2)
      && (sig.direction == SELL ==> sig.tp2 <= sig.tp1 <= sig.entry)
  {
    var d := Precision(a.pair);
    var t := DeriveTargets(a.direction, a.entry, a.sl);
    if a.direction == "BUY" {
      RoundToMonotone(a.entry, t.tp1, d);
      RoundToMonotone(t.tp1, t.tp2, d);
    } else {
      RoundToMonotone(t.tp1, a.entry, d);
      RoundToMonotone(t.tp2, t.tp1, d);
    }
  }

  /** The direction is not checked against the stop: a BUY whose stop lies above the
      entry still gets targets above the entry. */
  lemma BuyStopNotChecked()
    ensures var t := DeriveTargets("BUY", 100.0, 101.0);
      t.tp1 == 101.0 && t.tp2 == 102.0
  {
  }

  /** "EURUSD" is neither a metal nor a JPY pair. */
  lemma EurUsdIsFx()
    ensures !IsGold("EURUSD") && !IsXau("EURUSD") && !IsJpy("EURUSD")
  {
    EurUsdUpper();
    EurUsdLacks('X');
    EurUsdLacks('G');
    EurUsdLacks('J');
    MissingFirstLetter("EURUSD", "XAU");
    MissingFirstLetter("EURUSD", "GOLD");
    MissingFirstLetter("EURUSD", "JPY");
  }

  lemma EurUsdUpper()
    ensures Upper("EURUSD") == "EURUSD"
  {
    UpperKeepsUpper("EURUSD");
  }

  lemma EurUsdLacks(c: char)
    requires c !in "EURSD"
    ensures forall i :: 0 <= i < |"EURUSD"| ==> "EURUSD"[i] != c
  {
  }

  /** "XAUUSD" is a metal for sizing and for precision, and not a JPY pair. */
  lemma XauUsdIsMetal()
    ensures IsGold("XAUUSD") && IsXau("XAUUSD") && !IsJpy("XAUUSD") && Precision("XAUUSD") == 2
  {
    assert Upper("XAUUSD") == "XAUUSD";
    assert OccursAt("XAUUSD", "XAU", 0);
    ContainsAt("XAUUSD", "XAU", 0);
  }

  /** The roundings met in the gold scenario below leave each value unchanged. */
  lemma GoldRoundings()
    ensures RoundTo(2024.5, 2) == 2024.5 && RoundTo(2024.0, 2) == 2024.0
    ensures RoundTo(2025.0, 2) == 2025.0 && RoundTo(2025.5, 2) == 2025.5
    ensures RoundTo(5.0, 1) == 5.0 && RoundTo(0.2, 2) == 0.2
    ensures RoundTo(10.0, 2) == 10.0 && RoundTo(20.0, 2) == 20.0
  {
    assert Units(2024.5, 2) == 202450;
    assert Units(2024.0, 2) == 202400;
    assert Units(2025.0, 2) == 202500;
    assert Units(2025.5, 2) == 202550;
    assert Units(5.0, 1) == 50;
    assert Units(0.2, 2) == 20;
    assert Units(10.0, 2) == 1000;
    assert Units(20.0, 2) == 2000;
  }

  /** A half-dollar gold stop at 1% of 1000 is 5 pips and 0.2 lots. */
  lemma GoldLots(s: UserSettings)
    requires s.accountSize == 1000.0 && s.riskPercentage == 1.0
    ensures CalculateLots(2024.0, 2024.5, "XAUUSD", s) == Lots(0.2, 5.0)
  {
    XauUsdIsMetal();
    GoldRoundings();
    assert RiskAmount(s) == 10.0;
    assert StopPips(2024.0, 2024.5, "XAUUSD") == 5.0;
    assert RawLots(2024.0, 2024.5, "XAUUSD", s) == 0.2;
  }

  /** A half-dollar stop in gold on a 1000 account at 1% risk: 5 pips, 0.2 lots, targets
      half a dollar and one dollar above the entry. */
  lemma GoldBuyScenario(a: AIAnalysisResponse, id: string, timestamp: int)
    requires a.pair == "XAUUSD" && a.direction == "BUY" && a.entry == 2024.5 && a.sl == 2024.0
    ensures var sig := BuildSignal(a, UserSettings(1000.0, 1.0, Standard, None), id, timestamp);
      && sig.riskAmount == 10.0 && sig.slPips == 5.0 && sig.lotSize == 0.2
      && sig.tp1 == 2025.0 && sig.tp2 == 2025.5 && sig.rewardTp2 == 20.0
  {
    var s := UserSettings(1000.0, 1.0, Standard, None);
    XauUsdIsMetal();
    GoldRoundings();
    GoldLots(s);
    assert RiskAmount(s) == 10.0;
    assert DeriveTargets(a.direction, a.entry, a.sl) == Targets(2025.0, 2025.5);
    var sig := BuildSignal(a, s, id, timestamp);
    assert sig.entry == 2024.5 && sig.sl == 2024.0;
    assert sig.tp1 == 2025.0 && sig.tp2 == 2025.5;
  }

  /** The two rewards are rounded separately, so the second need not be exactly twice
      the first: a risk of 0.125 reports 0.13 and 0.25. */
  lemma RewardsRoundedSeparately(a: AIAnalysisResponse, id: string, timestamp: int)
    ensures var sig := BuildSignal(a, UserSettings(12.5, 1.0, Standard, None), id, timestamp);
      sig.rewardTp1 == 0.13 && sig.rewardTp2 == 0.25 && sig.rewardTp2 != 2.0 * sig.rewardTp1
  {
    assert RiskAmount(UserSettings(12.5, 1.0, Standard, None)) == 0.125;
    assert Units(0.125, 2) == 13;
    assert Units(0.25, 2) == 25;
  }

  /** Outside metals the reported stop can be below one pip. */
  lemma FxStopBelowOnePip(s: UserSettings)
    ensures CalculateLots(1.10001, 1.1, "EURUSD", s).slPips == 0.1
  {
    EurUsdTenthPip();
    TenthRoundsToItself();
  }

  lemma EurUsdTenthPip()
    ensures StopPips(1.10001, 1.1, "EURUSD") == 0.1
  {
    EurUsdIsFx();
    assert Abs(1.1 - 1.10001) == 0.00001;
  }

  lemma TenthRoundsToItself()
    ensures RoundTo(0.1, 1) == 0.1
  {
    assert Pow10(1) == 10;
    assert Units(0.1, 1) == 1;
  }

  /** The trade log written for a new signal: pending, with no exit and no profit. */
  function PendingLog(sig: TradeSignal, date: string): (t: TradeLog)
    ensures t.id == sig.id && t.status == PENDING && t.pnl == 0.0 && t.exit == 0.0
    ensures t.entry == sig.entry && t.sl == Some(sig.sl) && t.tp1 == Some(sig.tp1) && t.tp2 == Some(sig.tp2)
  {
    TradeLog(sig.id, date, sig.pair, sig.direction, sig.entry, 0.0, 0.0, PENDING,
             Some(sig.timeframe), Some(sig.reasoning), Some(sig.sl), Some(sig.tp1), Some(sig.tp2),
             Some(sig.strategy))
  }

  /** The update sent after a scan: both counters (the lifetime one for FREE only) and
      the history with the new log in front. */
  function ScanPatch(u: UserProfile, sig: TradeSignal, date: string): (p: UserPatch)
    ensures p.signalsUsedLifetime == Some(u.signalsUsedLifetime + (if u.plan == FREE then 1 else 0))
    ensures p.signalsUsedToday == Some(u.signalsUsedToday + 1)
    ensures p.tradeHistory == Some([PendingLog(sig, date)] + u.tradeHistory)
    ensures p.journalEntries.None? && p.settings.None?
  {
    UserPatch(
      Some(if u.plan == FREE then u.signalsUsedLifetime + 1 else u.signalsUsedLifetime),
      Some(u.signalsUsedToday + 1),
      Some([PendingLog(sig, date)] + u.tradeHistory),
      None, None)
  }

  datatype ScanResult =
    | NoFile
    | LimitReached(message: string)
    | Rejected(message: string)
    | Generated(signal: TradeSignal, patch: UserPatch)

  /** `handleFileUpload` as a function of the user, the file choice and the analysis
      service's answer. */
  function Scan(u: UserProfile, fileChosen: bool, a: AIAnalysisResponse, id: string, timestamp: int, date: string): (r: ScanResult)
    ensures r.NoFile? <==> !fileChosen
    ensures r.LimitReached? <==> fileChosen && CheckLimits(u).Some?
    ensures r.Rejected? <==> fileChosen && CheckLimits(u).None? && !a.isSetupValid
    ensures r.Rejected? ==> r.message == (if a.reasoning != "" then a.reasoning else AnalysisFailedMessage)
    ensures r.Generated? ==> r.signal == BuildSignal(a, u.settings, id, timestamp)
    ensures r.Generated? ==> r.patch == ScanPatch(u, r.signal, date)
  {
    if !fileChosen then NoFile
    else match CheckLimits(u)
      case Some(m) => LimitReached(m)
      case None =>
        if !a.isSetupValid then Rejected(if a.reasoning != "" then a.reasoning else AnalysisFailedMessage)
        else
          var sig := BuildSignal(a, u.settings, id, timestamp);
          Generated(sig, ScanPatch(u, sig, date))
  }

  /** A successful scan adds one to today's counter, one to the lifetime counter only on
      FREE, puts a pending log in front of the kept history and changes nothing else. */
  lemma ScanBookkeeping(u: UserProfile, a: AIAnalysisResponse, id: string, timestamp: int, date: string)
    requires Scan(u, true, a, id, timestamp, date).Generated?
    ensures var r := Scan(u, true, a, id, timestamp, date);
      var v := Merge(u, r.patch);
      && a.isSetupValid && CheckLimits(u).None?
      && v.signalsUsedToday == u.signalsUsedToday + 1
      && v.signalsUsedLifetime == u.signalsUsedLifetime + (if u.plan == FREE then 1 else 0)
      && |v.tradeHistory| == |u.tradeHistory| + 1 && v.tradeHistory[1..] == u.tradeHistory
      && v.tradeHistory[0].status == PENDING && v.tradeHistory[0].pnl == 0.0
      && v.tradeHistory[0].id == r.signal.id == id
      && v.(signalsUsedLifetime := u.signalsUsedLifetime, signalsUsedToday := u.signalsUsedToday,
            tradeHistory := u.tradeHistory) == u
  {
    var r := Scan(u, true, a, id, timestamp, date);
    var v := Merge(u, r.patch);
    assert v.tradeHistory == [PendingLog(r.signal, date)] + u.tradeHistory;
  }

  /** An analysis the service marks invalid, or a refused quota, produces no update. */
  lemma ScanFailuresWriteNothing(u: UserProfile, a: AIAnalysisResponse, id: string, timestamp: int, date: string)
    requires CheckLimits(u).Some? || !a.isSetupValid
    ensures !Scan(u, true, a, id, timestamp, date).Generated?
    ensures CheckLimits(u).Some? ==> Scan(u, true, a, id, timestamp, date) == LimitReached(LimitMessage)
  {
  }

  /** The analysis page's own state. */
  class AnalysisView {
    var isAnalyzing: bool
    var lastSignal: Option<TradeSignal>
    var errorMsg: Option<string>

    constructor()
      ensures !isAnalyzing && lastSignal == None && errorMsg == None
    {
      isAnalyzing := false;
      lastSignal := None;
      errorMsg := None;
    }

    /** `handleFileUpload`, with the chosen file, the service's answer, the new id and
        the clock passed in. */
    method HandleFileUpload(app: App, fileChosen: bool, analysis: AIAnalysisResponse, id: string, timestamp: int, date: string)
      requires app.user.Some?
      modifies this, app, app.store
      ensures app.store.adminAuth == old(app.store.adminAuth) && app.isLoading == old(app.isLoading)
      ensures var r := Scan(old(app.user.value), fileChosen, analysis, id, timestamp, date);
        && (r.NoFile? ==> errorMsg == None && lastSignal == old(lastSignal) && isAnalyzing == old(isAnalyzing))
        && (r.LimitReached? ==> errorMsg == Some(r.message) && lastSignal == old(lastSignal)
                                && isAnalyzing == old(isAnalyzing))
        && (r.Rejected? ==> errorMsg == Some(r.message) && lastSignal == None && !isAnalyzing)
        && (r.Generated? ==> errorMsg == None && lastSignal == Some(r.signal) && !isAnalyzing)
        && (!r.Generated? ==>
              app.user == old(app.user) && app.store.session == old(app.store.session)
              && app.store.users == old(app.store.users))
        && (r.Generated? ==>
              var v := Merge(old(app.user.value), r.patch);
              && app.user == Some(v) && app.store.session == Some(v)
              && app.store.users == (if old(app.store.users).Some? then Some(WriteBack(old(app.store.users).value, v)) else None))
    {
      var user := app.user.value;
      errorMsg := None;
      if !fileChosen {
        return;
      }
      var limitError := CheckLimits(user);
      if limitError.Some? {
        errorMsg := limitError;
        return;
      }
      isAnalyzing := true;
      lastSignal := None;
      if !analysis.isSetupValid {
        errorMsg := Some(if analysis.reasoning != "" then analysis.reasoning else AnalysisFailedMessage);
        isAnalyzing := false;
        return;
      }
      var newSignal := BuildSignal(analysis, user.settings, id, timestamp);
      lastSignal := Some(newSignal);
      isAnalyzing := false;
      app.UpdateUser(ScanPatch(user, newSignal, date));
    }
  }
}
