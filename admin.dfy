/** The admin console: demo seeding of a small user store, tier statistics and monthly
    revenue, manual plan overrides with their expiry rules, and the user list filter. */
module Admin {
  import opened Types
  import opened Text
  import opened Storage

  const MsPerDay: int := 1000 * 3600 * 24

  /** One entry of the demo seed table. */
  datatype Seed = Seed(
    username: string, email: string, plan: PlanTier,
    accountSize: real, riskPercentage: real, accountType: AccountType,
    lastDevice: string, joinDate: string)

  const MockSeeds: seq<Seed> := [
    Seed("CryptoKing99", "alex@crypto.com", PRO, 50000.0, 2.0, Raw, "iPhone 14 Pro", "2024-02-10T10:00:00Z"),
    Seed("SarahTrades", "sarah.t@gmail.com", FREE, 500.0, 1.0, Standard, "Windows PC", "2024-03-01T14:30:00Z"),
    Seed("SniperWolf", "wolf@trading.net", ADVANCED, 10000.0, 1.5, ProAccount, "Samsung S23", "2024-01-15T09:20:00Z"),
    Seed("ForexMaster", "mike@fx.com", PRO, 250000.0, 0.5, Raw, "MacBook Pro", "2023-11-05T16:45:00Z"),
    Seed("NewbieTrader", "john.doe@aol.com", FREE, 100.0, 5.0, Standard, "iPad Air", "2024-03-10T11:10:00Z"),
    Seed("GoldBug", "goldie@invest.com", BASIC, 2000.0, 2.0, Standard, "Android Tablet", "2024-02-20T08:00:00Z"),
    Seed("WhaleWatcher", "ocean@fund.com", PRO, 1000000.0, 1.0, ProAccount, "Linux Desktop", "2023-12-01T10:00:00Z"),
    Seed("ScalpGod", "fast@fingers.io", ADVANCED, 5000.0, 3.0, Raw, "iPhone 13", "2024-01-28T13:15:00Z")
  ]

  /** `Math.floor(draw * n)` for a draw of `Math.random()`. */
  function Scale(draw: real, n: nat): (k: nat)
    requires 0.0 <= draw < 1.0 && n > 0
    ensures k < n
  {
    var x := draw * n as real;
    assert n as real - x == (1.0 - draw) * n as real;
    assert x < n as real;
    x.Floor
  }

  /** A random draw for each seed counter. */
  predicate ValidDraws(draws: seq<real>)
  {
    |draws| == |MockSeeds| && forall k :: 0 <= k < |draws| ==> 0.0 <= draws[k] < 1.0
  }

  /** A demo user built from a seed, a fresh id and two random draws. */
  function SeedUser(s: Seed, id: string, lifetimeDraw: real, todayDraw: real): (u: UserProfile)
    requires 0.0 <= lifetimeDraw < 1.0 && 0.0 <= todayDraw < 1.0
    ensures u.id == id && u.username == s.username && u.plan == s.plan
    ensures u.signalsUsedLifetime < 500 && u.signalsUsedToday < 10
    ensures u.idTheme == "cyan" && u.tradeHistory == [] && u.planExpiryDate == None
  {
    UserProfile(id, s.username, Some(s.email), s.plan, None,
      Scale(lifetimeDraw, 500), Scale(todayDraw, 10), s.joinDate,
      UserSettings(s.accountSize, s.riskPercentage, s.accountType, Some(Notifications(true, true, true))),
      "cyan", None, [], None, Some(s.lastDevice), None)
  }

  /** `seedMockUsers`: a store holding fewer than five users gets the eight demo users
      appended in table order; a larger store is returned as it is. */
  function SeedMockUsers(current: seq<UserProfile>, ids: seq<string>, lifetimeDraws: seq<real>, todayDraws: seq<real>): (r: seq<UserProfile>)
    requires |ids| == |MockSeeds| && ValidDraws(lifetimeDraws) && ValidDraws(todayDraws)
    ensures |current| >= 5 ==> r == current
    ensures |current| < 5 ==> |r| == |current| + |MockSeeds| && r[..|current|] == current
    ensures |current| < 5 ==> forall k :: 0 <= k < |MockSeeds| ==>
      r[|current| + k] == SeedUser(MockSeeds[k], ids[k], lifetimeDraws[k], todayDraws[k])
  {
    if |current| < 5 then
      current + seq(|MockSeeds|, k requires 0 <= k < |MockSeeds| => SeedUser(MockSeeds[k], ids[k], lifetimeDraws[k], todayDraws[k]))
    else current
  }

  /** Seeding is done at most once: a seeded store is large enough to be left alone. */
  lemma SeedOnce(current: seq<UserProfile>, ids: seq<string>, ids': seq<string>,
                 l: seq<real>, t: seq<real>, l': seq<real>, t': seq<real>)
    requires |ids| == |ids'| == |MockSeeds|
    requires ValidDraws(l) && ValidDraws(t) && ValidDraws(l') && ValidDraws(t')
    ensures var once := SeedMockUsers(current, ids, l, t);
      SeedMockUsers(once, ids', l', t') == once
  {
  }

  /** Number of users on a plan. */
  function CountPlan(users: seq<UserProfile>, p: PlanTier): (n: nat)
    ensures n <= |users|
  {
    if users == [] then 0 else (if users[0].plan == p then 1 else 0) + CountPlan(users[1..], p)
  }

  lemma {:induction false} CountPlanAppend(a: seq<UserProfile>, b: seq<UserProfile>, p: PlanTier)
    ensures CountPlan(a + b, p) == CountPlan(a, p) + CountPlan(b, p)
  {
    if a == [] {
      assert a + b == b;
    } else {
      assert (a + b)[0] == a[0];
      assert (a + b)[1..] == a[1..] + b;
      CountPlanAppend(a[1..], b, p);
    }
  }

  /** Every user is on exactly one of the four plans. */
  lemma {:induction false} PlanCountsPartition(users: seq<UserProfile>)
    ensures CountPlan(users, FREE) + CountPlan(users, BASIC) + CountPlan(users, ADVANCED) + CountPlan(users, PRO) == |users|
  {
    if users != [] {
      PlanCountsPartition(users[1..]);
    }
  }

  datatype Stats = Stats(total: nat, free: nat, basic: nat, advanced: nat, pro: nat, mrr: int)

  /** `calculateStats`: the four tier counts partition the total, and the monthly
      revenue is 10, 20 and 30 per BASIC, ADVANCED and PRO user. */
  function CalculateStats(users: seq<UserProfile>): (st: Stats)
    ensures st.total == |users|
    ensures st.free + st.basic + st.advanced + st.pro == st.total
    ensures st.free == CountPlan(users, FREE) && st.basic == CountPlan(users, BASIC)
    ensures st.advanced == CountPlan(users, ADVANCED) && st.pro == CountPlan(users, PRO)
    ensures st.mrr == 10 * st.basic + 20 * st.advanced + 30 * st.pro
  {
    PlanCountsPartition(users);
    var basic := CountPlan(users, BASIC);
    var advanced := CountPlan(users, ADVANCED);
    var pro := CountPlan(users, PRO);
    Stats(|users|, CountPlan(users, FREE), basic, advanced, pro, basic * 10 + advanced * 20 + pro * 30)
  }

  function Indicator(u: UserProfile, p: PlanTier): nat
  {
    if u.plan == p then 1 else 0
  }

  /** CountPlan of one user followed by others. */
  lemma CountCons(d: seq<UserProfile>, p: PlanTier)
    requires d != []
    ensures CountPlan(d, p) == Indicator(d[0], p) + CountPlan(d[1..], p)
  {
  }

  /** CountPlan of four users, written out. */
  lemma CountFour(d: seq<UserProfile>, p: PlanTier)
    requires |d| == 4
    ensures CountPlan(d, p) == Indicator(d[0], p) + Indicator(d[1], p) + Indicator(d[2], p) + Indicator(d[3], p)
  {
    CountCons(d, p);
    CountCons(d[1..], p);
    CountCons(d[2..], p);
    CountCons(d[3..], p);
    assert d[1..][1..] == d[2..] && d[2..][1..] == d[3..] && d[3..][1..] == [];
  }

  /** CountPlan of eight users, written out. */
  lemma CountEight(d: seq<UserProfile>, p: PlanTier)
    requires |d| == 8
    ensures CountPlan(d, p) == Indicator(d[0], p) + Indicator(d[1], p) + Indicator(d[2], p) + Indicator(d[3], p)
                             + Indicator(d[4], p) + Indicator(d[5], p) + Indicator(d[6], p) + Indicator(d[7], p)
  {
    assert d == d[..4] + d[4..];
    CountPlanAppend(d[..4], d[4..], p);
    CountFour(d[..4], p);
    CountFour(d[4..], p);
  }

  /** The eight demo users, appended after the current ones, in the order of the seed list. */
  lemma DemoPlans(current: seq<UserProfile>, ids: seq<string>, l: seq<real>, t: seq<real>)
    requires |ids| == |MockSeeds| && ValidDraws(l) && ValidDraws(t) && |current| < 5
    ensures var seeded := SeedMockUsers(current, ids, l, t);
      var demo := seeded[|current|..];
      && seeded == current + demo && |demo| == |MockSeeds|
      && forall k :: 0 <= k < |demo| ==> demo[k].plan == MockSeeds[k].plan
  {
    var seeded := SeedMockUsers(current, ids, l, t);
    var demo := seeded[|current|..];
    assert seeded == current + demo;
    assert forall k :: 0 <= k < |demo| ==> demo[k] == seeded[|current| + k];
  }

  /** Plan counts among the demo users: 2 FREE, 1 BASIC, 2 ADVANCED, 3 PRO. */
  lemma DemoCounts(demo: seq<UserProfile>)
    requires |demo| == 8
    requires demo[0].plan == PRO && demo[1].plan == FREE && demo[2].plan == ADVANCED && demo[3].plan == PRO
    requires demo[4].plan == FREE && demo[5].plan == BASIC && demo[6].plan == PRO && demo[7].plan == ADVANCED
    ensures CountPlan(demo, FREE) == 2 && CountPlan(demo, BASIC) == 1
    ensures CountPlan(demo, ADVANCED) == 2 && CountPlan(demo, PRO) == 3
  {
    CountEight(demo, FREE);
    CountEight(demo, BASIC);
    CountEight(demo, ADVANCED);
    CountEight(demo, PRO);
  }

  /** The demo users add 2 FREE, 1 BASIC, 2 ADVANCED and 3 PRO users, 140 of revenue. */
  lemma SeedStats(current: seq<UserProfile>, ids: seq<string>, l: seq<real>, t: seq<real>)
    requires |ids| == |MockSeeds| && ValidDraws(l) && ValidDraws(t) && |current| < 5
    ensures var before, after := CalculateStats(current), CalculateStats(SeedMockUsers(current, ids, l, t));
      && after.free == before.free + 2 && after.basic == before.basic + 1
      && after.advanced == before.advanced + 2 && after.pro == before.pro + 3
      && after.mrr == before.mrr + 140
  {
    var seeded := SeedMockUsers(current, ids, l, t);
    var demo := seeded[|current|..];
    DemoPlans(current, ids, l, t);
    assert demo[0].plan == PRO && demo[1].plan == FREE && demo[2].plan == ADVANCED && demo[3].plan == PRO;
    assert demo[4].plan == FREE && demo[5].plan == BASIC && demo[6].plan == PRO && demo[7].plan == ADVANCED;
    DemoCounts(demo);
    CountPlanAppend(current, demo, FREE);
    CountPlanAppend(current, demo, BASIC);
    CountPlanAppend(current, demo, ADVANCED);
    CountPlanAppend(current, demo, PRO);
  }

  /** `new Date(t).toISOString().split('T')[0]`, as a day number. */
  function DayOf(t: int): int
  {
    t / MsPerDay
  }

  /** `new Date(day).toISOString()`: midnight UTC of that day. */
  function DayStart(day: int): int
  {
    day * MsPerDay
  }

  lemma DayOfBounds(t: int)
    ensures DayStart(DayOf(t)) <= t < DayStart(DayOf(t)) + MsPerDay
  {
  }

  /** `openManageModal`'s date: the day of the current expiry, else 30 days from now. */
  function DefaultExpiryDay(u: UserProfile, now: int): (day: int)
    ensures u.planExpiryDate.Some? ==> DayStart(day) <= u.planExpiryDate.value < DayStart(day) + MsPerDay
    ensures u.planExpiryDate.None? ==> DayStart(day) <= now + 30 * MsPerDay < DayStart(day) + MsPerDay
  {
    DayOfBounds(if u.planExpiryDate.Some? then u.planExpiryDate.value else now + 30 * MsPerDay);
    if u.planExpiryDate.Some? then DayOf(u.planExpiryDate.value) else DayOf(now + 30 * MsPerDay)
  }

  /** The `users.map` of `confirmPlanUpdate`: every user with the id gets the plan and
      expiry; all others stay. */
  function ApplyPlan(users: seq<UserProfile>, id: string, plan: PlanTier, expiry: Option<int>): (r: seq<UserProfile>)
    ensures |r| == |users|
    ensures forall j :: 0 <= j < |users| ==>
      r[j] == if users[j].id == id then users[j].(plan := plan, planExpiryDate := expiry) else users[j]
  {
    if users == [] then []
    else
      [if users[0].id == id then users[0].(plan := plan, planExpiryDate := expiry) else users[0]]
      + ApplyPlan(users[1..], id, plan, expiry)
  }

  /** `confirmPlanUpdate` on the users list; None where it returns early (no user
      selected, or a paid plan without an expiry date). */
  function PlanUpdate(users: seq<UserProfile>, selected: Option<UserProfile>, newPlan: PlanTier, expiryDay: Option<int>): (r: Option<seq<UserProfile>>)
    ensures r.None? <==> selected.None? || (newPlan != FREE && expiryDay.None?)
    ensures r.Some? ==> |r.value| == |users|
    ensures r.Some? ==> forall j :: 0 <= j < |users| && users[j].id == selected.value.id ==> r.value[j].plan == newPlan
  {
    if selected.None? then None
    else if newPlan == FREE then Some(ApplyPlan(users, selected.value.id, FREE, None))
    else if expiryDay.None? then None
    else Some(ApplyPlan(users, selected.value.id, newPlan, Some(DayStart(expiryDay.value))))
  }

  /** Choosing FREE always clears the expiry of the selected user; a paid plan without
      a date aborts; a paid plan with one expires at that day's midnight UTC. */
  lemma PlanUpdateExpiryRules(users: seq<UserProfile>, selected: UserProfile, newPlan: PlanTier, expiryDay: Option<int>)
    ensures newPlan == FREE ==> var r := PlanUpdate(users, Some(selected), newPlan, expiryDay);
      r.Some? && forall j :: 0 <= j < |users| && users[j].id == selected.id ==>
        r.value[j].plan == FREE && r.value[j].planExpiryDate == None
    ensures newPlan != FREE && expiryDay.None? ==> PlanUpdate(users, Some(selected), newPlan, expiryDay) == None
    ensures newPlan != FREE && expiryDay.Some? ==> var r := PlanUpdate(users, Some(selected), newPlan, expiryDay);
      r.Some? && forall j :: 0 <= j < |users| && users[j].id == selected.id ==>
        r.value[j].plan == newPlan && r.value[j].planExpiryDate == Some(DayStart(expiryDay.value))
  {
  }

  /** An override touches only the users with the selected id, and of those only the
      plan and the expiry. */
  lemma PlanUpdateOnlySelected(users: seq<UserProfile>, selected: UserProfile, newPlan: PlanTier, expiryDay: Option<int>)
    requires PlanUpdate(users, Some(selected), newPlan, expiryDay).Some?
    ensures var r := PlanUpdate(users, Some(selected), newPlan, expiryDay).value;
      && |r| == |users|
      && (forall j :: 0 <= j < |users| && users[j].id != selected.id ==> r[j] == users[j])
      && (forall j :: 0 <= j < |users| ==>
            r[j].(plan := users[j].plan, planExpiryDate := users[j].planExpiryDate) == users[j])
  {
  }

  /** Opening the dialog on a paid user and confirming it unchanged moves the expiry back
      to midnight UTC of its day: never later, and by less than a day. */
  lemma ReconfirmTruncatesExpiry(users: seq<UserProfile>, u: UserProfile, now: int, j: nat)
    requires u.plan != FREE && u.planExpiryDate.Some?
    requires j < |users| && users[j].id == u.id
    ensures var r := PlanUpdate(users, Some(u), u.plan, Some(DefaultExpiryDay(u, now)));
      && r.Some? && r.value[j].planExpiryDate.Some?
      && u.planExpiryDate.value - MsPerDay < r.value[j].planExpiryDate.value <= u.planExpiryDate.value
  {
  }

  /** The filter tabs 'ALL', 'PRO' (every paid plan), 'FREE' and 'EXPIRING'. */
  datatype UserFilter = ShowAll | ShowPaid | ShowFree | ShowExpiring

  /** The search term, case-insensitively, in the email or the username. */
  predicate MatchesSearch(u: UserProfile, term: string): (b: bool)
    ensures term == [] ==> b
    ensures Lower(u.username) == Lower(term) ==> b
  {
    (u.email.Some? && Contains(Lower(u.email.value), Lower(term)))
    || Contains(Lower(u.username), Lower(term))
  }

  /** `(expiry - now) / (1000 * 3600 * 24)`. */
  function DaysLeft(expiry: int, now: int): (d: real)
    ensures d > 0.0 <==> expiry > now
    ensures d * MsPerDay as real == (expiry - now) as real
  {
    (expiry - now) as real / MsPerDay as real
  }

  /** Between zero and five days left means the expiry lies in the next five days. */
  lemma DaysLeftWindow(expiry: int, now: int)
    ensures 0.0 < DaysLeft(expiry, now) < 5.0 <==> now < expiry < now + 5 * MsPerDay
  {
  }

  predicate PassesTab(u: UserProfile, f: UserFilter, now: int): (b: bool)
    ensures f == ShowAll ==> b
    ensures f == ShowFree ==> (b <==> u.plan == FREE)
    ensures f == ShowPaid ==> (b <==> u.plan != FREE)
    ensures f == ShowExpiring ==>
      (b <==> u.planExpiryDate.Some? && now < u.planExpiryDate.value < now + 5 * MsPerDay)
  {
    match f
    case ShowAll => true
    case ShowFree => u.plan == FREE
    case ShowPaid => u.plan == PRO || u.plan == ADVANCED || u.plan == BASIC
    case ShowExpiring =>
      u.planExpiryDate.Some? && DaysLeft(u.planExpiryDate.value, now) < 5.0 && DaysLeft(u.planExpiryDate.value, now) > 0.0
  }

  predicate Keep(u: UserProfile, f: UserFilter, term: string, now: int)
  {
    MatchesSearch(u, term) && PassesTab(u, f, now)
  }

  /** `filteredUsers`: the users kept by the search and the tab, in list order. */
  function FilterUsers(users: seq<UserProfile>, f: UserFilter, term: string, now: int): (r: seq<UserProfile>)
    ensures |r| <= |users|
    ensures forall u :: u in r <==> u in users && Keep(u, f, term, now)
  {
    if users == [] then []
    else (if Keep(users[0], f, term, now) then [users[0]] else []) + FilterUsers(users[1..], f, term, now)
  }

  /** Filtering a list in two parts filters each part in place: the order is kept. */
  lemma {:induction false} FilterUsersAppend(a: seq<UserProfile>, b: seq<UserProfile>, f: UserFilter, term: string, now: int)
    ensures FilterUsers(a + b, f, term, now) == FilterUsers(a, f, term, now) + FilterUsers(b, f, term, now)
  {
    if a == [] {
      assert a + b == b;
    } else {
      assert (a + b)[0] == a[0];
      assert (a + b)[1..] == a[1..] + b;
      FilterUsersAppend(a[1..], b, f, term, now);
    }
  }

  /** The 'PRO' tab and the 'FREE' tab split the searched users between them. */
  lemma {:induction false} PaidAndFreeSplit(users: seq<UserProfile>, term: string, now: int)
    ensures |FilterUsers(users, ShowPaid, term, now)| + |FilterUsers(users, ShowFree, term, now)|
         == |FilterUsers(users, ShowAll, term, now)|
  {
    if users != [] {
      PaidAndFreeSplit(users[1..], term, now);
    }
  }

  /** An empty search on the 'ALL' tab shows every user. */
  lemma {:induction false} EmptySearchShowsAll(users: seq<UserProfile>, now: int)
    ensures FilterUsers(users, ShowAll, "", now) == users
  {
    if users != [] {
      ContainsEmpty(Lower(users[0].username));
      EmptySearchShowsAll(users[1..], now);
    }
  }

  datatype DeviceIcon = Globe | Smartphone | Tablet | Laptop

  predicate IsPhoneName(d: string)
  {
    Contains(d, "iphone") || Contains(d, "android") || Contains(d, "pixel") || Contains(d, "samsung")
  }

  predicate IsTabletName(d: string)
  {
    Contains(d, "ipad") || Contains(d, "tablet")
  }

  /** `getDeviceIcon`: no device is a globe; phone names win over tablet names; anything
      else is a laptop. */
  function DeviceIconOf(device: Option<string>): (icon: DeviceIcon)
    ensures icon == Globe <==> device.None? || device.value == ""
    ensures icon == Smartphone <==> device.Some? && device.value != "" && IsPhoneName(Lower(device.value))
    ensures icon == Tablet <==> device.Some? && device.value != "" && !IsPhoneName(Lower(device.value)) && IsTabletName(Lower(device.value))
  {
    if device.None? || device.value == "" then Globe
    else
      var d := Lower(device.value);
      if IsPhoneName(d) then Smartphone
      else if IsTabletName(d) then Tablet
      else Laptop
  }

  /** Phone names are tried first: a name with "android" in it is a phone even when it
      also says "tablet", as the seed's "Android Tablet" does. */
  lemma AndroidIsPhone(device: string)
    requires Contains(Lower(device), "android")
    ensures DeviceIconOf(Some(device)) == Smartphone
  {
    ContainsWitness(Lower(device), "android");
  }

  /** The console's state: the loaded users, their statistics and the override dialog. */
  class AdminConsole {
    var users: seq<UserProfile>
    var stats: Stats
    var selectedUser: Option<UserProfile>
    var newPlan: PlanTier
    var expiryDay: Option<int>
    const store: LocalStore

    constructor(store: LocalStore)
      ensures this.store == store && users == [] && stats == Stats(0, 0, 0, 0, 0, 0)
      ensures selectedUser == None && newPlan == FREE && expiryDay == None
    {
      this.store := store;
      users := [];
      stats := Stats(0, 0, 0, 0, 0, 0);
      selectedUser := None;
      newPlan := FREE;
      expiryDay := None;
    }

    /** `loadDatabase`: read the store (an absent list is empty), seed it when small,
        and recompute the statistics. */
    method LoadDatabase(ids: seq<string>, lifetimeDraws: seq<real>, todayDraws: seq<real>)
      requires |ids| == |MockSeeds| && ValidDraws(lifetimeDraws) && ValidDraws(todayDraws)
      modifies this, store
      ensures var loaded := old(store.users).GetOr([]);
        var merged := SeedMockUsers(loaded, ids, lifetimeDraws, todayDraws);
        && users == merged && stats == CalculateStats(merged)
        && store.users == (if |loaded| < 5 then Some(merged) else old(store.users))
      ensures store.session == old(store.session) && store.adminAuth == old(store.adminAuth)
      ensures selectedUser == old(selectedUser) && newPlan == old(newPlan) && expiryDay == old(expiryDay)
    {
      var loadedUsers := if store.users.Some? then store.users.value else [];
      if |loadedUsers| < 5 {
        loadedUsers := SeedMockUsers(loadedUsers, ids, lifetimeDraws, todayDraws);
        store.users := Some(loadedUsers);
      }
      users := loadedUsers;
      stats := CalculateStats(loadedUsers);
    }

    /** `openManageModal`. */
    method OpenManageModal(u: UserProfile, now: int)
      modifies this
      ensures selectedUser == Some(u) && newPlan == u.plan && expiryDay == Some(DefaultExpiryDay(u, now))
      ensures users == old(users) && stats == old(stats)
    {
      selectedUser := Some(u);
      newPlan := u.plan;
      expiryDay := Some(DefaultExpiryDay(u, now));
    }

    /** The plan buttons of the dialog. */
    method ChoosePlan(p: PlanTier)
      modifies this
      ensures newPlan == p && selectedUser == old(selectedUser) && expiryDay == old(expiryDay)
      ensures users == old(users) && stats == old(stats)
    {
      newPlan := p;
    }

    /** The date input of the dialog; None is an emptied input. */
    method ChooseExpiry(day: Option<int>)
      modifies this
      ensures expiryDay == day && selectedUser == old(selectedUser) && newPlan == old(newPlan)
      ensures users == old(users) && stats == old(stats)
    {
      expiryDay := day;
    }

    /** `confirmPlanUpdate`: apply the override to the list, the statistics and the
        store, and close the dialog; an early return changes nothing. */
    method ConfirmPlanUpdate()
      modifies this, store
      ensures var r := PlanUpdate(old(users), old(selectedUser), old(newPlan), old(expiryDay));
        && (r.None? ==> users == old(users) && stats == old(stats) && store.users == old(store.users)
                        && selectedUser == old(selectedUser))
        && (r.Some? ==> users == r.value && stats == CalculateStats(r.value) && store.users == Some(r.value)
                        && selectedUser == None)
      ensures newPlan == old(newPlan) && expiryDay == old(expiryDay)
      ensures store.session == old(store.session) && store.adminAuth == old(store.adminAuth)
    {
      if selectedUser.None? {
        return;
      }
      var finalExpiry := expiryDay;
      if newPlan == FREE {
        finalExpiry := None;
      } else if finalExpiry.None? {
        return;
      }
      var updatedUsers := ApplyPlan(users, selectedUser.value.id, newPlan,
        if finalExpiry.Some? then Some(DayStart(finalExpiry.value)) else None);
      users := updatedUsers;
      stats := CalculateStats(updatedUsers);
      store.users := Some(updatedUsers);
      selectedUser := None;
    }
  }
}
