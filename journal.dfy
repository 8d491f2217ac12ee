/** The manual journal of the PRO and ADVANCED plans: its statistics, the balance chain
    that every saved entry extends, deletion and the balance chart. */
module Journal {
  import opened Types
  import opened Numbers
  import opened Storage
  import opened Session

  /** The page is unlocked for PRO and ADVANCED only. */
  predicate IsPro(u: UserProfile)
  {
    u.plan == PRO || u.plan == ADVANCED
  }

  lemma JournalGate(u: UserProfile)
    ensures IsPro(u) <==> u.plan != FREE && u.plan != BASIC
  {
  }

  /** `user.journalEntries || []`; entries are kept newest first. */
  function Entries(u: UserProfile): seq<JournalEntry>
  {
    u.journalEntries.GetOr([])
  }

  /** The simulated starting balance of the growth figure and the chart. */
  const StartBalance: real := 1000.0

  /** The balance the page displays, AS WRITTEN: the last entry of the list, which is
      the oldest, or the account size when the journal is empty. */
  function DisplayedBalance(u: UserProfile): (b: real)
    ensures Entries(u) == [] ==> b == u.settings.accountSize
    ensures Entries(u) != [] ==> b == Entries(u)[|Entries(u)| - 1].accountBalanceAfter
  {
    var e := Entries(u);
    if |e| > 0 then e[|e| - 1].accountBalanceAfter else u.settings.accountSize
  }

  /** The balance after the newest entry, the one `handleSave` continues from, or the
      account size when the journal is empty: the corrected current balance. */
  function CurrentBalance(u: UserProfile): (b: real)
    ensures Entries(u) == [] ==> b == u.settings.accountSize
    ensures Entries(u) != [] ==> b == Entries(u)[0].accountBalanceAfter
  {
    var e := Entries(u);
    if |e| > 0 then e[0].accountBalanceAfter else u.settings.accountSize
  }

  /** `growthPercent` AS WRITTEN: the growth of the displayed balance over the simulated
      start balance. */
  function GrowthPercent(u: UserProfile): (g: real)
    ensures g > 0.0 <==> DisplayedBalance(u) > StartBalance
    ensures g == 0.0 <==> DisplayedBalance(u) == StartBalance
  {
    (DisplayedBalance(u) - StartBalance) / StartBalance * 100.0
  }

  /** The growth figure on the corrected current balance. */
  function CorrectedGrowthPercent(u: UserProfile): (g: real)
    ensures g > 0.0 <==> CurrentBalance(u) > StartBalance
    ensures g == 0.0 <==> CurrentBalance(u) == StartBalance
  {
    (CurrentBalance(u) - StartBalance) / StartBalance * 100.0
  }

  /** Sum of the entries' pnl. */
  function TotalPnl(e: seq<JournalEntry>): (total: real)
    ensures (forall i :: 0 <= i < |e| ==> e[i].pnlAmount >= 0.0) ==> total >= 0.0
    ensures (forall i :: 0 <= i < |e| ==> e[i].pnlAmount <= 0.0) ==> total <= 0.0
  {
    if e == [] then 0.0 else e[0].pnlAmount + TotalPnl(e[1..])
  }

  function CountResult(e: seq<JournalEntry>, r: JournalResult): (n: nat)
    ensures n <= |e|
  {
    if e == [] then 0 else (if e[0].result == r then 1 else 0) + CountResult(e[1..], r)
  }

  /** WIN, LOSS and BE partition the journal. */
  lemma {:induction false} ResultCountsPartition(e: seq<JournalEntry>)
    ensures CountResult(e, JWIN) + CountResult(e, JLOSS) + CountResult(e, JBE) == |e|
  {
    if e != [] {
      ResultCountsPartition(e[1..]);
    }
  }

  /** `winRate`: the share of wins to one decimal, and 0 for an empty journal. */
  function WinRate(e: seq<JournalEntry>): (rate: real)
    ensures e == [] ==> rate == 0.0
    ensures 0.0 <= rate <= 100.0
  {
    if |e| > 0 then
      var raw := CountResult(e, JWIN) as real / |e| as real * 100.0;
      RoundToWhole(0, 1);
      RoundToWhole(100, 1);
      ShareBounds(CountResult(e, JWIN), |e|);
      RoundToMonotone(0.0, raw, 1);
      RoundToMonotone(raw, 100.0, 1);
      RoundTo(raw, 1)
    else 0.0
  }

  /** The entry form; the `Partial<JournalEntry>` gaps are empty strings and zeros. */
  datatype JournalForm = JournalForm(
    pair: string, direction: Side, setupType: string, lotSize: real,
    result: JournalResult, pnlAmount: real, notes: string)

  const InitialForm := JournalForm("XAUUSD", BUY, "", 0.1, JWIN, 0.0, "")

  /** The form after a save: only pair, direction, result and pnl are set again. */
  const ResetForm := JournalForm("XAUUSD", BUY, "", 0.0, JWIN, 0.0, "")

  /** The trade's growth on the previous balance, `parseFloat(growth.toFixed(2))`;
      None for the infinite growth on a previous balance of 0. */
  function Growth(prevBalance: real, newBalance: real): (g: Option<real>)
    ensures g.None? <==> prevBalance == 0.0
    ensures prevBalance > 0.0 && newBalance >= prevBalance ==> g.value >= 0.0
    ensures prevBalance > 0.0 && newBalance <= prevBalance ==> g.value <= 0.0
  {
    if prevBalance == 0.0 then None
    else Some(RoundTo((newBalance - prevBalance) / prevBalance * 100.0, 2))
  }

  /** The entry `handleSave` builds, continuing from the newest balance. */
  function NewEntry(u: UserProfile, form: JournalForm, id: string, date: string): (e: JournalEntry)
    ensures e.accountBalanceAfter == CurrentBalance(u) + form.pnlAmount
    ensures e.growthPercentage == Growth(CurrentBalance(u), CurrentBalance(u) + form.pnlAmount)
    ensures e.setupType == (if form.setupType != "" then form.setupType else "Manual")
    ensures e.id == id && e.date == date && e.pair == form.pair && e.direction == form.direction
    ensures e.lotSize == form.lotSize && e.result == form.result && e.pnlAmount == form.pnlAmount
    ensures e.notes == form.notes && e.screenshot.None?
  {
    var prevBalance := CurrentBalance(u);
    var newBalance := prevBalance + form.pnlAmount;
    JournalEntry(id, date, form.pair, form.direction,
      if form.setupType != "" then form.setupType else "Manual",
      form.lotSize, form.result, form.pnlAmount, newBalance,
      Growth(prevBalance, newBalance), form.notes, None)
  }

  /** `handleSave`'s update: the new entry in front and the account size synced to the
      new balance; None where it returns without saving (no pair, or a pnl of 0). */
  function SaveEntry(u: UserProfile, form: JournalForm, id: string, date: string): (p: Option<UserPatch>)
    ensures p.None? <==> form.pair == "" || form.pnlAmount == 0.0
    ensures p.Some? ==>
      && p.value.journalEntries == Some([NewEntry(u, form, id, date)] + Entries(u))
      && p.value.settings == Some(u.settings.(accountSize := CurrentBalance(u) + form.pnlAmount))
      && p.value.tradeHistory.None? && p.value.signalsUsedLifetime.None? && p.value.signalsUsedToday.None?
  {
    if form.pair == "" || form.pnlAmount == 0.0 then None
    else
      var entry := NewEntry(u, form, id, date);
      Some(NoChanges.(journalEntries := Some([entry] + Entries(u)),
                      settings := Some(u.settings.(accountSize := entry.accountBalanceAfter))))
  }

  /** After a save the current balance and the account size both moved by the pnl, and
      the older entries are kept in order behind the new one. */
  lemma SaveExtendsChain(u: UserProfile, form: JournalForm, id: string, date: string)
    requires form.pair != "" && form.pnlAmount != 0.0
    ensures var v := Merge(u, SaveEntry(u, form, id, date).value);
      && CurrentBalance(v) == CurrentBalance(u) + form.pnlAmount
      && v.settings.accountSize == CurrentBalance(v)
      && Entries(v)[1..] == Entries(u)
      && v.settings.(accountSize := u.settings.accountSize) == u.settings
  {
  }

  /** Each save moves the corrected growth figure by a tenth of its pnl, in percent of
      the 1000 start. */
  lemma SaveMovesCorrectedGrowth(u: UserProfile, form: JournalForm, id: string, date: string)
    requires form.pair != "" && form.pnlAmount != 0.0
    ensures var v := Merge(u, SaveEntry(u, form, id, date).value);
      CorrectedGrowthPercent(v) == CorrectedGrowthPercent(u) + form.pnlAmount / 10.0
  {
    var v := Merge(u, SaveEntry(u, form, id, date).value);
    assert CurrentBalance(v) == CurrentBalance(u) + form.pnlAmount;
  }

  /** Each entry's balance is the next older one's plus its own pnl. */
  predicate Chained(e: seq<JournalEntry>)
  {
    forall i :: 0 <= i < |e| - 1 ==> e[i].accountBalanceAfter == e[i + 1].accountBalanceAfter + e[i].pnlAmount
  }

  /** The journal's bookkeeping invariant: the entries chain, and the account size is the
      newest balance. */
  predicate Synced(u: UserProfile)
  {
    Chained(Entries(u)) && (Entries(u) != [] ==> u.settings.accountSize == Entries(u)[0].accountBalanceAfter)
  }

  /** Saving keeps the invariant. */
  lemma SaveKeepsSynced(u: UserProfile, form: JournalForm, id: string, date: string)
    requires Synced(u) && form.pair != "" && form.pnlAmount != 0.0
    ensures Synced(Merge(u, SaveEntry(u, form, id, date).value))
  {
    var v := Merge(u, SaveEntry(u, form, id, date).value);
    var e, e' := Entries(u), Entries(v);
    assert e' == [NewEntry(u, form, id, date)] + e;
    forall i | 0 <= i < |e'| - 1
      ensures e'[i].accountBalanceAfter == e'[i + 1].accountBalanceAfter + e'[i].pnlAmount
    {
      if i > 0 {
        assert e'[i] == e[i - 1] && e'[i + 1] == e[i];
      }
    }
  }

  /** In a chained journal the newest balance is the balance before the oldest entry
      plus the total pnl of all entries. */
  lemma {:induction false} ChainedBalanceIsTotal(e: seq<JournalEntry>)
    requires e != [] && Chained(e)
    ensures e[0].accountBalanceAfter == e[|e| - 1].accountBalanceAfter - e[|e| - 1].pnlAmount + TotalPnl(e)
  {
    if |e| == 1 {
      assert e[1..] == [];
    } else {
      assert Chained(e[1..]) by {
        forall i | 0 <= i < |e[1..]| - 1
          ensures e[1..][i].accountBalanceAfter == e[1..][i + 1].accountBalanceAfter + e[1..][i].pnlAmount
        {
          assert e[1..][i] == e[i + 1] && e[1..][i + 1] == e[i + 2];
        }
      }
      ChainedBalanceIsTotal(e[1..]);
      assert e[1..][|e[1..]| - 1] == e[|e| - 1];
    }
  }

  /** `journalEntries.filter(j => j.id !== id)`. */
  function RemoveEntry(e: seq<JournalEntry>, id: string): (r: seq<JournalEntry>)
    ensures |r| <= |e|
    ensures forall x :: x in r <==> x in e && x.id != id
  {
    if e == [] then [] else (if e[0].id != id then [e[0]] else []) + RemoveEntry(e[1..], id)
  }

  /** Deleting keeps the survivors' order. */
  lemma {:induction false} RemoveEntryAppend(a: seq<JournalEntry>, b: seq<JournalEntry>, id: string)
    ensures RemoveEntry(a + b, id) == RemoveEntry(a, id) + RemoveEntry(b, id)
  {
    if a == [] {
      assert a + b == b;
    } else {
      assert (a + b)[0] == a[0];
      assert (a + b)[1..] == a[1..] + b;
      RemoveEntryAppend(a[1..], b, id);
    }
  }

  /** `handleDelete`'s update: only the list changes; the balances stored in the
      remaining entries and the account size are not recomputed. */
  function DeletePatch(u: UserProfile, id: string): (p: UserPatch)
    ensures p.journalEntries == Some(RemoveEntry(Entries(u), id))
    ensures p.settings.None? && p.tradeHistory.None?
  {
    NoChanges.(journalEntries := Some(RemoveEntry(Entries(u), id)))
  }

  /** Deleting the newest entry leaves the account size at that entry's balance, so the
      invariant is lost whenever that entry's pnl was not 0. */
  lemma DeleteNewestDesyncs(u: UserProfile)
    requires Synced(u) && |Entries(u)| >= 2
    requires forall j :: 1 <= j < |Entries(u)| ==> Entries(u)[j].id != Entries(u)[0].id
    requires Entries(u)[0].pnlAmount != 0.0
    ensures !Synced(Merge(u, DeletePatch(u, Entries(u)[0].id)))
  {
    var e := Entries(u);
    var id := e[0].id;
    assert e == [e[0]] + e[1..];
    RemoveEntryAppend([e[0]], e[1..], id);
    assert RemoveEntry([e[0]], id) == [];
    RemoveAbsentEntry(e[1..], id);
  }

  lemma {:induction false} RemoveAbsentEntry(e: seq<JournalEntry>, id: string)
    requires forall j :: 0 <= j < |e| ==> e[j].id != id
    ensures RemoveEntry(e, id) == e
  {
    if e != [] {
      RemoveAbsentEntry(e[1..], id);
    }
  }

  /** A point of the balance chart. */
  datatype BalancePoint = BalancePoint(name: nat, balance: real, date: string)

  /** The chart: a start point at the simulated start balance, then the balances from
      the oldest entry to the newest. */
  function BalanceChart(e: seq<JournalEntry>): (c: seq<BalancePoint>)
    ensures |c| == |e| + 1 && c[0] == BalancePoint(0, StartBalance, "Start")
    ensures forall k :: 1 <= k <= |e| ==> c[k] == BalancePoint(k, e[|e| - k].accountBalanceAfter, e[|e| - k].date)
  {
    [BalancePoint(0, StartBalance, "Start")]
      + seq(|e|, k requires 0 <= k < |e| => BalancePoint(k + 1, e[|e| - 1 - k].accountBalanceAfter, e[|e| - 1 - k].date))
  }

  /** The chart ends at the corrected current balance, not the displayed one. */
  lemma ChartEndsAtCurrentBalance(u: UserProfile)
    requires Entries(u) != []
    ensures var c := BalanceChart(Entries(u));
      c[|c| - 1].balance == CurrentBalance(u)
  {
  }

  /** The displayed balance as written never moves once the journal has an entry:
      saving prepends, and the last element stays the oldest entry. */
  lemma DisplayedBalanceFrozen(u: UserProfile, form: JournalForm, id: string, date: string)
    requires Entries(u) != [] && form.pair != "" && form.pnlAmount != 0.0
    ensures var v := Merge(u, SaveEntry(u, form, id, date).value);
      && DisplayedBalance(v) == DisplayedBalance(u)
      && GrowthPercent(v) == GrowthPercent(u)
      && CurrentBalance(v) == CurrentBalance(u) + form.pnlAmount
  {
  }

  /** A concrete case: two saves of +100 and +50 on an empty journal of a 1000 account
      show 1100 and a growth of 10% while the balance is 1150, a growth of 15%. */
  lemma DisplayedBalanceLags(u: UserProfile, f1: JournalForm, f2: JournalForm)
    requires Entries(u) == [] && u.settings.accountSize == 1000.0
    requires f1.pair == "XAUUSD" && f1.pnlAmount == 100.0 && f2.pair == "XAUUSD" && f2.pnlAmount == 50.0
    ensures var v1 := Merge(u, SaveEntry(u, f1, "1", "d1").value);
      var v2 := Merge(v1, SaveEntry(v1, f2, "2", "d2").value);
      && DisplayedBalance(v2) == 1100.0 && CurrentBalance(v2) == 1150.0
      && v2.settings.accountSize == 1150.0
      && GrowthPercent(v2) == 10.0 && CorrectedGrowthPercent(v2) == 15.0
  {
    var v1 := Merge(u, SaveEntry(u, f1, "1", "d1").value);
    assert Entries(v1) == [NewEntry(u, f1, "1", "d1")];
    DisplayedBalanceFrozen(v1, f2, "2", "d2");
  }

  /** The journal page's own state: whether the form is open, and the form. */
  class JournalView {
    var isFormOpen: bool
    var form: JournalForm

    constructor()
      ensures !isFormOpen && form == InitialForm
    {
      isFormOpen := false;
      form := InitialForm;
    }

    /** `handleSave`, with the fresh id and the clock passed in. */
    method HandleSave(app: App, id: string, date: string)
      requires app.user.Some?
      modifies this, app, app.store
      ensures app.store.adminAuth == old(app.store.adminAuth) && app.isLoading == old(app.isLoading)
      ensures var p := SaveEntry(old(app.user.value), old(form), id, date);
        && (p.None? ==> app.user == old(app.user) && app.store.session == old(app.store.session)
                        && app.store.users == old(app.store.users)
                        && form == old(form) && isFormOpen == old(isFormOpen))
        && (p.Some? ==>
              var v := Merge(old(app.user.value), p.value);
              && app.user == Some(v) && app.store.session == Some(v)
              && app.store.users == (if old(app.store.users).Some? then Some(WriteBack(old(app.store.users).value, v)) else None)
              && !isFormOpen && form == ResetForm)
    {
      var p := SaveEntry(app.user.value, form, id, date);
      if p.None? {
        return;
      }
      app.UpdateUser(p.value);
      isFormOpen := false;
      form := ResetForm;
    }

    /** `handleDelete`, with the answer to the confirmation dialog passed in. */
    method HandleDelete(app: App, id: string, confirmed: bool)
      requires app.user.Some?
      modifies app, app.store
      ensures app.store.adminAuth == old(app.store.adminAuth) && app.isLoading == old(app.isLoading)
      ensures !confirmed ==> app.user == old(app.user) && app.store.session == old(app.store.session)
                             && app.store.users == old(app.store.users)
      ensures confirmed ==>
        var v := Merge(old(app.user.value), DeletePatch(old(app.user.value), id));
        && app.user == Some(v) && app.store.session == Some(v)
        && app.store.users == (if old(app.store.users).Some? then Some(WriteBack(old(app.store.users).value, v)) else None)
    {
      if confirmed {
        app.UpdateUser(DeletePatch(app.user.value, id));
      }
    }
  }
}
