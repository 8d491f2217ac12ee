/** The records and closed enumerations of the trading dashboard's data model. */
module Types {

  datatype Option<T> = None | Some(value: T) {
    /** The wrapped value, or `default` when there is none (JavaScript's `x ?? default`). */
    function GetOr(default: T): T {
      match this
      case Some(v) => v
      case None => default
    }
  }

  /** Subscription tiers. */
  datatype PlanTier = FREE | BASIC | ADVANCED | PRO

  /** Broker account types; the source spells them 'Standard', 'Raw' and 'Pro'. */
  datatype AccountType = Standard | Raw | ProAccount

  /** The direction of a trade, 'BUY' or 'SELL'. */
  datatype Side = BUY | SELL

  /** The status of a logged trade. */
  datatype TradeStatus = WIN | LOSS | BE | PENDING

  /** The result of a journal entry: there is no pending journal entry. */
  datatype JournalResult = JWIN | JLOSS | JBE

  datatype Notifications = Notifications(signals: bool, marketAlerts: bool, updates: bool)

  datatype UserSettings = UserSettings(
    accountSize: real,
    riskPercentage: real,
    accountType: AccountType,
    notifications: Option<Notifications>)

  datatype TradeLog = TradeLog(
    id: string,
    date: string,
    pair: string,
    side: Side,
    entry: real,
    exit: real,
    pnl: real,
    status: TradeStatus,
    timeframe: Option<string>,
    reasoning: Option<string>,
    sl: Option<real>,
    tp1: Option<real>,
    tp2: Option<real>,
    strategy: Option<string>)

  /** A manual journal entry. `growthPercentage` is None where the source stores a
      non-finite number (a previous balance of 0). */
  datatype JournalEntry = JournalEntry(
    id: string,
    date: string,
    pair: string,
    direction: Side,
    setupType: string,
    lotSize: real,
    result: JournalResult,
    pnlAmount: real,
    accountBalanceAfter: real,
    growthPercentage: Option<real>,
    notes: string,
    screenshot: Option<string>)

  /** A user record; `planExpiryDate` is a timestamp in milliseconds since the epoch. */
  datatype UserProfile = UserProfile(
    id: string,
    username: string,
    email: Option<string>,
    plan: PlanTier,
    planExpiryDate: Option<int>,
    signalsUsedLifetime: nat,
    signalsUsedToday: nat,
    joinDate: string,
    settings: UserSettings,
    idTheme: string,
    avatarImage: Option<string>,
    tradeHistory: seq<TradeLog>,
    journalEntries: Option<seq<JournalEntry>>,
    lastDevice: Option<string>,
    ipAddress: Option<string>)

  /** A generated trade signal. */
  datatype TradeSignal = TradeSignal(
    id: string,
    timestamp: int,
    pair: string,
    timeframe: string,
    direction: Side,
    strategy: string,
    entry: real,
    sl: real,
    tp1: real,
    tp2: real,
    slPips: real,
    tpPips: real,
    lotSize: real,
    riskAmount: real,
    rewardTp1: real,
    rewardTp2: real,
    reasoning: string)

  /** The analysis service's answer; its direction is any string. */
  datatype AIAnalysisResponse = AIAnalysisResponse(
    pair: string,
    timeframe: string,
    direction: string,
    strategy: string,
    entry: real,
    sl: real,
    tp1: real,
    tp2: real,
    reasoning: string,
    isSetupValid: bool,
    marketStructure: seq<string>)

  /** `Partial<UserProfile>` as the core's callers send it to `updateUser`:
      None means the key is absent from the update. */
  datatype UserPatch = UserPatch(
    signalsUsedLifetime: Option<nat>,
    signalsUsedToday: Option<nat>,
    tradeHistory: Option<seq<TradeLog>>,
    journalEntries: Option<seq<JournalEntry>>,
    settings: Option<UserSettings>)

  const NoChanges := UserPatch(None, None, None, None, None)

  /** The unchecked cast `direction as 'BUY' | 'SELL'`: every direction other than
      "BUY" is handled as a sell. */
  function SideOf(direction: string): (s: Side)
    ensures s == BUY <==> direction == "BUY"
  {
    if direction == "BUY" then BUY else SELL
  }
}
