/** The trade log: its statistics, the running-total equity chart, and saving and
    deleting logged trades. */
module Journey {
  import opened Types
  import opened Numbers
  import opened Storage
  import opened Session

  /** Number of trades with a status. */
  function CountStatus(h: seq<TradeLog>, s: TradeStatus): (n: nat)
    ensures n <= |h|
  {
    if h == [] then 0 else (if h[0].status == s then 1 else 0) + CountStatus(h[1..], s)
  }

  /** The four statuses partition the history. */
  lemma {:induction false} StatusCountsPartition(h: seq<TradeLog>)
    ensures CountStatus(h, WIN) + CountStatus(h, LOSS) + CountStatus(h, BE) + CountStatus(h, PENDING) == |h|
  {
    if h != [] {
      StatusCountsPartition(h[1..]);
    }
  }

  /** `totalPnL`: the sum of the trades' pnl. */
  function TotalPnl(h: seq<TradeLog>): real
  {
    if h == [] then 0.0 else h[0].pnl + TotalPnl(h[1..])
  }

  /** Trades that all gain sum to a gain; trades that all lose sum to a loss. */
  lemma {:induction false} TotalPnlSign(h: seq<TradeLog>)
    ensures (forall i :: 0 <= i < |h| ==> h[i].pnl >= 0.0) ==> TotalPnl(h) >= 0.0
    ensures (forall i :: 0 <= i < |h| ==> h[i].pnl <= 0.0) ==> TotalPnl(h) <= 0.0
  {
    if h != [] {
      TotalPnlSign(h[1..]);
      assert forall i :: 0 <= i < |h[1..]| ==> h[1..][i] == h[i + 1];
    }
  }

  /** The sum from position j is that trade's pnl plus the sum after it. */
  lemma TotalPnlStep(h: seq<TradeLog>, j: nat)
    requires j < |h|
    ensures TotalPnl(h[j..]) == h[j].pnl + TotalPnl(h[j + 1..])
  {
    assert h[j..][0] == h[j] && h[j..][1..] == h[j + 1..];
  }

  lemma {:induction false} TotalPnlAppend(a: seq<TradeLog>, b: seq<TradeLog>)
    ensures TotalPnl(a + b) == TotalPnl(a) + TotalPnl(b)
  {
    if a == [] {
      assert a + b == b;
    } else {
      assert (a + b)[0] == a[0];
      assert (a + b)[1..] == a[1..] + b;
      TotalPnlAppend(a[1..], b);
    }
  }

  /** The displayed win rate, `(wins / total * 100).toFixed(1)`, and 0 without trades. */
  function WinRate(h: seq<TradeLog>): (rate: real)
    ensures h == [] ==> rate == 0.0
    ensures 0.0 <= rate <= 100.0
  {
    if |h| > 0 then
      var raw := CountStatus(h, WIN) as real / |h| as real * 100.0;
      RoundToWhole(0, 1);
      RoundToWhole(100, 1);
      ShareBounds(CountStatus(h, WIN), |h|);
      RoundToMonotone(0.0, raw, 1);
      RoundToMonotone(raw, 100.0, 1);
      RoundTo(raw, 1)
    else 0.0
  }

  /** Every trade a win shows 100, every trade a loss shows 0. */
  lemma {:induction false} WinRateExtremes(h: seq<TradeLog>)
    requires h != []
    ensures CountStatus(h, WIN) == |h| ==> WinRate(h) == 100.0
    ensures CountStatus(h, WIN) == 0 ==> WinRate(h) == 0.0
  {
    RoundToWhole(0, 1);
    RoundToWhole(100, 1);
    if CountStatus(h, WIN) == |h| {
      assert CountStatus(h, WIN) as real / |h| as real == 1.0;
    }
  }

  /** The 'Profit Factor' card: wins per loss, or None (shown as infinity) without losses. */
  function ProfitFactor(h: seq<TradeLog>): (pf: Option<real>)
    ensures pf.None? <==> CountStatus(h, LOSS) == 0
    ensures pf.Some? ==> pf.value >= 0.0
  {
    if CountStatus(h, LOSS) > 0 then Some(RoundTo(CountStatus(h, WIN) as real / CountStatus(h, LOSS) as real, 2))
    else None
  }

  /** One point of the equity chart: its 1-based x value, the running pnl and the date. */
  datatype ChartPoint = ChartPoint(name: nat, value: real, date: string)

  /** The chart: the history is newest first, so it is walked from its end, and point k
      carries the pnl summed over the k + 1 oldest trades. */
  method EquityChart(h: seq<TradeLog>) returns (points: seq<ChartPoint>)
    ensures |points| == |h|
    ensures forall k :: 0 <= k < |h| ==>
      points[k] == ChartPoint(k + 1, TotalPnl(h[|h| - 1 - k..]), h[|h| - 1 - k].date)
    ensures |h| > 0 ==> points[|h| - 1].value == TotalPnl(h)
  {
    var n := |h|;
    var runningTotal := 0.0;
    points := [];
    var i := 0;
    while i < n
      invariant 0 <= i <= n
      invariant |points| == i
      invariant runningTotal == TotalPnl(h[n - i..])
      invariant forall k :: 0 <= k < i ==>
        points[k] == ChartPoint(k + 1, TotalPnl(h[n - 1 - k..]), h[n - 1 - k].date)
    {
      var t := h[n - 1 - i];
      TotalPnlStep(h, n - 1 - i);
      runningTotal := runningTotal + t.pnl;
      points := points + [ChartPoint(i + 1, runningTotal, t.date)];
      i := i + 1;
    }
    assert h[0..] == h;
  }

  /** The modal's form: a trade being written, with the `Partial<TradeLog>` gaps as
      empty strings and zeros. */
  datatype TradeForm = TradeForm(
    pair: string, side: Side, entry: real, exit: real, status: TradeStatus, pnl: real,
    strategy: Option<string>, date: string,
    timeframe: Option<string>, reasoning: Option<string>)

  /** The form for a new trade, stamped with the current time. */
  function BlankForm(now: string): (f: TradeForm)
    ensures f.date == now && f.pair == "XAUUSD" && f.entry == 0.0
  {
    TradeForm("XAUUSD", BUY, 0.0, 0.0, BE, 0.0, Some(""), now, None, None)
  }

  /** The form for editing a logged trade. */
  function FormOf(t: TradeLog): (f: TradeForm)
    ensures f.pair == t.pair && f.side == t.side && f.entry == t.entry && f.exit == t.exit
    ensures f.status == t.status && f.pnl == t.pnl && f.date == t.date
  {
    TradeForm(t.pair, t.side, t.entry, t.exit, t.status, t.pnl, t.strategy, t.date, t.timeframe, t.reasoning)
  }

  /** Whether an edit is in progress (`if (editingTradeId)`). */
  predicate IsEditing(editingId: Option<string>)
  {
    editingId.Some? && editingId.value != ""
  }

  /** The trade the form saves; levels (sl, tp1, tp2) are not carried over. */
  function Payload(form: TradeForm, editingId: Option<string>, freshId: string, now: string): (t: TradeLog)
    ensures t.id == (if IsEditing(editingId) then editingId.value else freshId)
    ensures t.date == (if form.date != "" then form.date else now)
    ensures t.pair == form.pair && t.side == form.side && t.entry == form.entry && t.exit == form.exit
    ensures t.pnl == form.pnl && t.status == form.status && t.strategy == form.strategy
    ensures t.sl.None? && t.tp1.None? && t.tp2.None?
  {
    TradeLog(if IsEditing(editingId) then editingId.value else freshId,
      if form.date != "" then form.date else now,
      form.pair, form.side, form.entry, form.exit, form.pnl, form.status,
      form.timeframe, form.reasoning, None, None, None, form.strategy)
  }

  /** `history.map(t => t.id === id ? v : t)`. */
  function ReplaceById(h: seq<TradeLog>, id: string, v: TradeLog): (r: seq<TradeLog>)
    ensures |r| == |h|
    ensures forall j :: 0 <= j < |h| ==> r[j] == if h[j].id == id then v else h[j]
  {
    if h == [] then [] else [if h[0].id == id then v else h[0]] + ReplaceById(h[1..], id, v)
  }

  /** `history.filter(t => t.id !== id)`. */
  function RemoveById(h: seq<TradeLog>, id: string): (r: seq<TradeLog>)
    ensures |r| <= |h|
    ensures forall t :: t in r <==> t in h && t.id != id
  {
    if h == [] then [] else (if h[0].id != id then [h[0]] else []) + RemoveById(h[1..], id)
  }

  /** Deleting works part by part, so the survivors keep their relative order. */
  lemma {:induction false} RemoveByIdAppend(a: seq<TradeLog>, b: seq<TradeLog>, id: string)
    ensures RemoveById(a + b, id) == RemoveById(a, id) + RemoveById(b, id)
  {
    if a == [] {
      assert a + b == b;
    } else {
      assert (a + b)[0] == a[0];
      assert (a + b)[1..] == a[1..] + b;
      RemoveByIdAppend(a[1..], b, id);
    }
  }

  /** Deleting an id nobody has changes nothing. */
  lemma {:induction false} RemoveAbsentId(h: seq<TradeLog>, id: string)
    requires forall j :: 0 <= j < |h| ==> h[j].id != id
    ensures RemoveById(h, id) == h
  {
    if h != [] {
      RemoveAbsentId(h[1..], id);
    }
  }

  /** Deleting a trade that was just created undoes the creation, so long as the new
      id was fresh. */
  lemma DeleteUndoesCreate(h: seq<TradeLog>, t: TradeLog)
    requires forall j :: 0 <= j < |h| ==> h[j].id != t.id
    ensures RemoveById([t] + h, t.id) == h
  {
    assert ([t] + h)[0] == t && ([t] + h)[1..] == h;
    RemoveAbsentId(h, t.id);
  }

  /** `handleSave`'s new history; None where it returns without saving (no pair, or an
      entry price of 0). */
  function SaveTrade(h: seq<TradeLog>, form: TradeForm, editingId: Option<string>, freshId: string, now: string): (r: Option<seq<TradeLog>>)
    ensures r.None? <==> form.pair == "" || form.entry == 0.0
    ensures r.Some? && !IsEditing(editingId) ==> r.value == [Payload(form, editingId, freshId, now)] + h
    ensures r.Some? && IsEditing(editingId) ==> |r.value| == |h| && forall j :: 0 <= j < |h| ==>
      r.value[j] == if h[j].id == editingId.value then Payload(form, editingId, freshId, now) else h[j]
  {
    if form.pair == "" || form.entry == 0.0 then None
    else
      var payload := Payload(form, editingId, freshId, now);
      if IsEditing(editingId) then Some(ReplaceById(h, editingId.value, payload))
      else Some([payload] + h)
  }

  /** A created trade adds its pnl to the total and counts towards its status. */
  lemma CreateUpdatesStats(h: seq<TradeLog>, form: TradeForm, freshId: string, now: string)
    requires form.pair != "" && form.entry != 0.0
    ensures var r := SaveTrade(h, form, None, freshId, now).value;
      && TotalPnl(r) == TotalPnl(h) + form.pnl
      && CountStatus(r, form.status) == CountStatus(h, form.status) + 1
      && |r| == |h| + 1
  {
    var r := SaveTrade(h, form, None, freshId, now).value;
    assert r[0].status == form.status && r[1..] == h;
  }

  /** The blank form cannot be saved as it opens: its entry price is 0. */
  lemma BlankFormNotSaved(h: seq<TradeLog>, now: string, editingId: Option<string>, freshId: string, later: string)
    ensures SaveTrade(h, BlankForm(now), editingId, freshId, later).None?
  {
  }

  /** Saving an edit form left unchanged writes the trade back without its levels: the
      stop and targets of a logged signal are lost. */
  lemma EditUnchangedDropsLevels(h: seq<TradeLog>, t: TradeLog, freshId: string, now: string)
    requires t.id != "" && t.date != "" && t.pair != "" && t.entry != 0.0
    ensures Payload(FormOf(t), Some(t.id), freshId, now) == t.(sl := None, tp1 := None, tp2 := None)
    ensures SaveTrade(h, FormOf(t), Some(t.id), freshId, now).Some?
  {
  }

  /** The patch `handleSave` and `handleDelete` send. */
  function HistoryPatch(h: seq<TradeLog>): UserPatch
  {
    NoChanges.(tradeHistory := Some(h))
  }

  /** The trade-log view's own state: whether the modal is open, which trade it edits
      and the form. */
  class JourneyView {
    var isModalOpen: bool
    var editingTradeId: Option<string>
    var form: TradeForm

    constructor(now: string)
      ensures !isModalOpen && editingTradeId == None && form == BlankForm(now).(date := "")
    {
      isModalOpen := false;
      editingTradeId := None;
      form := BlankForm(now).(date := "");
    }

    /** `handleOpenModal`: edit the given trade, or start a blank one. */
    method HandleOpenModal(trade: Option<TradeLog>, now: string)
      modifies this
      ensures isModalOpen
      ensures trade.Some? ==> editingTradeId == Some(trade.value.id) && form == FormOf(trade.value)
      ensures trade.None? ==> editingTradeId == None && form == BlankForm(now)
    {
      if trade.Some? {
        editingTradeId := Some(trade.value.id);
        form := FormOf(trade.value);
      } else {
        editingTradeId := None;
        form := BlankForm(now);
      }
      isModalOpen := true;
    }

    /** `handleDelete`, with the answer to the confirmation dialog passed in. */
    method HandleDelete(app: App, id: string, confirmed: bool)
      requires app.user.Some?
      modifies app, app.store
      ensures app.store.adminAuth == old(app.store.adminAuth) && app.isLoading == old(app.isLoading)
      ensures !confirmed ==> app.user == old(app.user) && app.store.session == old(app.store.session)
                             && app.store.users == old(app.store.users)
      ensures confirmed ==>
        var v := old(app.user.value).(tradeHistory := RemoveById(old(app.user.value.tradeHistory), id));
        && app.user == Some(v) && app.store.session == Some(v)
        && app.store.users == (if old(app.store.users).Some? then Some(WriteBack(old(app.store.users).value, v)) else None)
    {
      if confirmed {
        var updatedHistory := RemoveById(app.user.value.tradeHistory, id);
        app.UpdateUser(HistoryPatch(updatedHistory));
      }
    }

    /** `handleSave`, with the fresh id and the clock passed in. */
    method HandleSave(app: App, freshId: string, now: string)
      requires app.user.Some?
      modifies this, app, app.store
      ensures app.store.adminAuth == old(app.store.adminAuth) && app.isLoading == old(app.isLoading)
      ensures var r := SaveTrade(old(app.user.value.tradeHistory), old(form), old(editingTradeId), freshId, now);
        && (r.None? ==> app.user == old(app.user) && app.store.session == old(app.store.session)
                        && app.store.users == old(app.store.users) && isModalOpen == old(isModalOpen))
        && (r.Some? ==>
              var v := old(app.user.value).(tradeHistory := r.value);
              && app.user == Some(v) && app.store.session == Some(v)
              && app.store.users == (if old(app.store.users).Some? then Some(WriteBack(old(app.store.users).value, v)) else None)
              && !isModalOpen)
      ensures editingTradeId == old(editingTradeId) && form == old(form)
    {
      var r := SaveTrade(app.user.value.tradeHistory, form, editingTradeId, freshId, now);
      if r.None? {
        return;
      }
      app.UpdateUser(HistoryPatch(r.value));
      isModalOpen := false;
    }
  }
}
