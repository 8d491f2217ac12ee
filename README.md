# TradeVision dashboard core, modelled in Dafny

TradeVision is a single-page trading dashboard. All of its data lives in the browser's
local storage: a cached session (`tv_session`), a master user list (`tv_users`) and an
admin flag (`tv_admin_auth`). This project models the logic behind the pages:

- the chart-analysis page, which turns an analysis of a chart into a trade signal and
  sizes the position from the account's risk settings;
- the application shell, which reconciles the cached session with the master list at
  start-up and writes every page's changes back through `updateUser`;
- the admin console, which seeds demo users, counts tiers and monthly revenue, and lets
  an admin override a user's plan and expiry;
- the automated trade log and the manual PRO journal, with their statistics, charts and
  create/edit/delete operations;
- the login/signup page;
- the identity card's display helpers.

Local storage is modelled by the class `Storage.LocalStore`. Each page's component state is
a class whose methods update its fields and call `Session.App.UpdateUser`. Each method
is tied by its `ensures` to a pure function of the old state (`Reconcile`, `Scan`,
`SaveTrade`, `SaveEntry`, `PlanUpdate`, `Submit`, ...). The lemmas then prove the source's
promises about those functions.

Conventions:
- Money and prices are exact reals. `toFixed(d)` is `Numbers.RoundTo`, rounding half away
  from zero.
- Timestamps are integers in milliseconds since the epoch.
- A date picked in the admin dialog is a day number.
- Randomness, fresh UUIDs, the clock, the window width, the answers to `confirm` dialogs
  and the analysis service's reply are all parameters.

Files: `types.dfy` (data model), `text.dfy` (case mapping, `includes`), `numbers.dfy`
(`toFixed`), `storage.dfy`, `session.dfy` (App.tsx), `analysis.dfy`, `admin.dfy`,
`journey.dfy` (trade log), `journal.dfy`, `auth.dfy`, `identity_card.dfy`.

The model follows the code where its behaviour may be unexpected:
- there is no 0.01 minimum lot;
- the analyst's targets are always replaced;
- the rewards are fixed multiples of the risk, not proportional to the target distances;
- a direction other than "BUY" is treated as a sell and never rejected;
- a bad JSON value in storage is not caught;
- a non-metal stop can be reported below one pip;
- the second reward is rounded on its own, so it is not always twice the first.

## Model

| member | source | states |
|---|---|---|
| Types.SideOf | pages/AnalysisPage.tsx:121 | the unchecked cast of the analysis's free-form direction: BUY exactly for "BUY", otherwise SELL |
| Text.Lower | pages/AdminPanel.tsx:186-187 | `toLowerCase` keeps the length and lowers each character |
| Text.Upper | components/UserIdentityCard.tsx:152 | `toUpperCase` keeps the length and upper-cases each character |
| Text.Contains | pages/AdminPanel.tsx:186-187 | `includes` of the empty term always holds, and of a term longer than the string never does |
| Text.ContainsWitness | pages/AdminPanel.tsx:186-187 | `includes` holds only if the term occurs at some position |
| Text.ContainsAt | pages/AdminPanel.tsx:205-206 | a term occurring at a position makes `includes` hold |
| Numbers.RoundTo | pages/AnalysisPage.tsx:97-100 | `toFixed` keeps the sign of its argument |
| Numbers.RoundToMonotone | pages/AnalysisPage.tsx:97-100 | `toFixed` never reverses the order of two values |
| Numbers.RoundToWhole | pages/AnalysisPage.tsx:49 | `toFixed` leaves whole numbers unchanged |
| Session.FindIndex | App.tsx:209 | `find` by id gives the first record with that id, and none exactly when no record has it |
| Session.FindIndexAfterWrite | App.tsx:218-219 | overwriting the found record with one of the same id keeps it the first match |
| Session.Downgrade | App.tsx:214-215 | the downgrade sets the plan to FREE and clears the expiry, and changes nothing else |
| Session.Expired | App.tsx:213 | a plan without an expiry, or with one at or after now, has not expired |
| Session.Reconcile | App.tsx:197-231 | a user exactly when a session is stored, with the session's id, written to the session key; the list is kept present or absent with its length |
| Session.ReconcileNoSession | App.tsx:199-200 | with no stored session the user stays null and nothing is written |
| Session.ReconcileWithoutMaster | App.tsx:206-210 | without a list or a master record the cached session is used unchanged and the store is untouched |
| Session.ReconcileAdoptsMaster | App.tsx:209-224 | the session becomes the master record (downgraded if expired), is written to the session key, and only that list entry can change |
| Session.ReconcileDowngradesExpired | App.tsx:213-220 | an expiry before now gives FREE with no expiry; no expiry or a later one keeps the plan and the list |
| Session.ReconcileIdempotent | App.tsx:197-231 | reconciling again at the same instant changes nothing |
| Session.Merge | App.tsx:235 | fields present in the update take its values, every other field keeps the user's |
| Session.MergeNoChanges | App.tsx:235 | an empty update is the identity, and no update changes the id |
| Session.WriteBack | App.tsx:246-251 | the list keeps its length, and a list without the id is unchanged |
| Session.WriteBackOnlyAtIndex | App.tsx:247-249 | only the first entry with the id is replaced |
| Session.WriteBackIdempotent | App.tsx:246-251 | writing the same user back twice equals writing it once |
| Session.App.LoadSession | App.tsx:197-231 | the start-up effect leaves the user and both keys as `Reconcile` says |
| Session.App.UpdateUser | App.tsx:233-253 | no user: nothing is written; otherwise the merged user goes to the state, the session key and the matching list entry |
| Session.App.HandleLogin | App.tsx:255-258 | the logged-in user becomes the current user |
| Analysis.CheckLimits | pages/AnalysisPage.tsx:23-28 | refused exactly for FREE with 5 or more lifetime signals, with the fixed message |
| Analysis.PaidPlansUnlimited | pages/AnalysisPage.tsx:24 | BASIC, ADVANCED and PRO are never refused |
| Analysis.StopPips | pages/AnalysisPage.tsx:31-44 | metals use tenths with a floor of 1; JPY uses hundredths, others ten-thousandths; a zero distance is 10 pips |
| Analysis.RiskAmount | pages/AnalysisPage.tsx:46 | 100 × the risk amount is accountSize × riskPercentage, non-negative for non-negative settings |
| Analysis.RawLots | pages/AnalysisPage.tsx:46-47 | non-negative, and for a metal at most a tenth of the risk amount (the stop is at least one pip) |
| Analysis.RawLotsRiskExactly | pages/AnalysisPage.tsx:46-47 | losing the stop on the unrounded lot costs exactly accountSize * risk% / 100 |
| Analysis.CalculateLots | pages/AnalysisPage.tsx:30-50 | lots are the raw lots to 2 decimals, pips the pips to 1; both are non-negative |
| Analysis.GoldStopAtLeastOnePip | pages/AnalysisPage.tsx:36-38 | a metal's reported stop is at least one pip |
| Analysis.NoLotFloor | pages/AnalysisPage.tsx:47-49 | a small risk rounds the lot to 0: no minimum lot |
| Analysis.FxStopBelowOnePip | pages/AnalysisPage.tsx:39-49 | outside metals the reported stop can be 0.1 pip |
| Analysis.Precision | pages/AnalysisPage.tsx:85-87 | 3 decimals for JPY, 2 for "XAU", 5 otherwise |
| Analysis.GoldSymbolPricedAsFx | pages/AnalysisPage.tsx:31-87 | a "GOLD" symbol is sized as a metal but priced with 5 decimals |
| Analysis.DeriveTargets | pages/AnalysisPage.tsx:82-95 | BUY adds one and two risk distances; any other direction subtracts them |
| Analysis.TargetsMirror | pages/AnalysisPage.tsx:89-95 | the sell targets mirror the buy targets about the entry, and the second target is the farther one |
| Analysis.BuyStopNotChecked | pages/AnalysisPage.tsx:89-91 | a BUY with its stop above the entry still gets targets above it |
| Analysis.TpPipFactor | pages/AnalysisPage.tsx:105-109 | 10 for "XAU" pairs, then 100 for JPY, then 10000 |
| Analysis.BuildSignal | pages/AnalysisPage.tsx:97-129 | entry and sl rounded to the pair's precision; lots and slPips sized on those rounded prices; tpPips the rounded tp1 distance in pips; rewardTp1 = riskAmount = risk to 2 decimals, rewardTp2 = twice the risk to 2 decimals; direction by the cast; id, timestamp, pair, timeframe, strategy and reasoning carried over |
| Analysis.AnalystTargetsIgnored | pages/AnalysisPage.tsx:116-120 | the analysis's tp1/tp2 never reach the signal, which carries the derived, rounded targets |
| Analysis.SignalTargetsOrdered | pages/AnalysisPage.tsx:89-98 | after rounding, BUY targets are at or above the entry in order, sell targets at or below |
| Analysis.GoldBuyScenario | pages/AnalysisPage.tsx:80-128 | a 0.5 gold stop on a 1000 account at 1% gives risk 10, 5 pips, 0.2 lots, targets 2025 and 2025.5 |
| Analysis.RewardsRoundedSeparately | pages/AnalysisPage.tsx:125-127 | a risk of 0.125 reports rewards 0.13 and 0.25, not exactly double |
| Analysis.XauUsdIsMetal | pages/AnalysisPage.tsx:31-87 | "XAUUSD" is a metal for sizing and precision, and not a JPY pair |
| Analysis.GoldLots | pages/AnalysisPage.tsx:30-50 | a 0.5 gold stop at 1% of 1000 sizes to 0.2 lots over 5 pips |
| Analysis.PendingLog | pages/AnalysisPage.tsx:137-152 | the log of a new signal is PENDING with pnl and exit 0, carrying the signal's id and levels |
| Analysis.ScanPatch | pages/AnalysisPage.tsx:154-159 | today's count +1, lifetime +1 on FREE only, the pending log in front of the history, nothing else |
| Analysis.Scan | pages/AnalysisPage.tsx:52-160 | no file, a refused quota, a rejected analysis and a generated signal, each exactly in its case, with the rejection's message and the signal built from the user's settings |
| Analysis.ScanBookkeeping | pages/AnalysisPage.tsx:154-159 | success adds 1 to today's count, 1 to lifetime only on FREE, and prepends the log to the kept history; nothing else changes |
| Analysis.ScanFailuresWriteNothing | pages/AnalysisPage.tsx:57-78 | a refused quota or an invalid analysis produces no update |
| Analysis.AnalysisView.HandleFileUpload | pages/AnalysisPage.tsx:52-160 | the page's error, signal and the stored user follow `Scan`, with the update going through `updateUser` |
| Admin.Scale | pages/AdminPanel.tsx:70-71 | `Math.floor(Math.random() * n)` is below n |
| Admin.SeedUser | pages/AdminPanel.tsx:67-78 | a demo user has the seed's name and plan, counters below 500 and 10, the cyan card, an empty history and no expiry |
| Admin.SeedMockUsers | pages/AdminPanel.tsx:64-85 | fewer than 5 users: the 8 seeds are appended after them in order; otherwise the list is unchanged |
| Admin.SeedOnce | pages/AdminPanel.tsx:66 | seeding a seeded store changes nothing |
| Admin.SeedStats | pages/AdminPanel.tsx:11-20 | the demo users add 2 FREE, 1 BASIC, 2 ADVANCED, 3 PRO users and 140 of revenue |
| Admin.CountPlan | pages/AdminPanel.tsx:99-105 | a tier count never exceeds the number of users |
| Admin.CountPlanAppend | pages/AdminPanel.tsx:99-105 | tier counts add up over concatenated lists |
| Admin.PlanCountsPartition | pages/AdminPanel.tsx:99-105 | the four tier counts sum to the list length |
| Admin.CalculateStats | pages/AdminPanel.tsx:98-110 | total is the length, the tiers partition it, mrr = 10 basic + 20 advanced + 30 pro |
| Admin.DayOfBounds | pages/AdminPanel.tsx:140 | the date part of a timestamp is the day that contains it |
| Admin.DefaultExpiryDay | pages/AdminPanel.tsx:136-146 | the dialog pre-fills the day of the current expiry, or the day 30 days from now |
| Admin.ApplyPlan | pages/AdminPanel.tsx:160-169 | users with the selected id get the plan and expiry; all others are kept, and the length is the same |
| Admin.PlanUpdate | pages/AdminPanel.tsx:148-169 | aborts exactly without a selection, or for a paid plan without a date; otherwise the list keeps its length and the selected id gets the new plan |
| Admin.PlanUpdateExpiryRules | pages/AdminPanel.tsx:148-166 | FREE always clears the expiry; a paid plan without a date aborts; a paid plan with one expires at that day's midnight UTC |
| Admin.PlanUpdateOnlySelected | pages/AdminPanel.tsx:160-169 | an override changes only users with the selected id, and only their plan and expiry |
| Admin.ReconfirmTruncatesExpiry | pages/AdminPanel.tsx:139-165 | re-confirming a paid user unchanged moves the expiry back to midnight UTC of its day, by less than a day |
| Admin.DaysLeft | pages/AdminPanel.tsx:196 | positive exactly for an expiry after now; times a day's milliseconds it is the time left |
| Admin.DaysLeftWindow | pages/AdminPanel.tsx:196-197 | 0 < daysLeft < 5 exactly when the expiry lies in the next five days |
| Admin.MatchesSearch | pages/AdminPanel.tsx:186-187 | an empty search matches everyone, and a username matches itself up to case |
| Admin.PassesTab | pages/AdminPanel.tsx:191-199 | 'ALL' keeps everyone, 'FREE' the FREE plans, 'PRO' every paid plan, 'EXPIRING' an expiry in the next five days |
| Admin.FilterUsers | pages/AdminPanel.tsx:185-200 | a user is listed exactly when it is in the list, matches the search and passes the tab |
| Admin.FilterUsersAppend | pages/AdminPanel.tsx:185 | filtering keeps the list order |
| Admin.PaidAndFreeSplit | pages/AdminPanel.tsx:191-193 | the 'PRO' and 'FREE' tabs split the searched users between them |
| Admin.EmptySearchShowsAll | pages/AdminPanel.tsx:186-191 | an empty search on 'ALL' lists every user |
| Admin.DeviceIconOf | pages/AdminPanel.tsx:202-208 | no device is a globe; phone names come first, then tablet names, then laptop |
| Admin.AndroidIsPhone | pages/AdminPanel.tsx:205-206 | a device with "android" in it is a phone even if it also says "tablet" |
| Admin.AdminConsole.LoadDatabase | pages/AdminPanel.tsx:87-96 | the list is the stored list seeded when small; stats follow it; the store is written only when seeding |
| Admin.AdminConsole.OpenManageModal | pages/AdminPanel.tsx:136-146 | selects the user, its plan and the default expiry day |
| Admin.AdminConsole.ChoosePlan | pages/AdminPanel.tsx:605 | sets the chosen plan of the dialog, nothing else |
| Admin.AdminConsole.ChooseExpiry | pages/AdminPanel.tsx:625 | sets the chosen expiry day of the dialog, nothing else |
| Admin.AdminConsole.ConfirmPlanUpdate | pages/AdminPanel.tsx:148-183 | applies `PlanUpdate` to the list, stats and store and closes the dialog; an early return changes nothing |
| Journey.CountStatus | components/TradingJourney.tsx:30-31 | a status count never exceeds the number of trades |
| Journey.TotalPnl | components/TradingJourney.tsx:33 | the sum of the trades' pnl, taken from the newest trade on; its sign is stated by TotalPnlSign and its additivity by TotalPnlAppend |
| Journey.TotalPnlSign | components/TradingJourney.tsx:33 | all-profitable trades give a non-negative total, all-losing a non-positive one |
| Journey.StatusCountsPartition | components/TradingJourney.tsx:30-31 | WIN, LOSS, BE and PENDING counts sum to the number of trades |
| Journey.TotalPnlAppend | components/TradingJourney.tsx:33 | the total pnl adds up over concatenated histories |
| Journey.WinRate | components/TradingJourney.tsx:32 | 0 without trades, otherwise between 0 and 100 |
| Journey.WinRateExtremes | components/TradingJourney.tsx:32 | all wins show 100, no wins show 0 |
| Journey.ProfitFactor | components/TradingJourney.tsx:108 | infinite exactly when there are no losses, otherwise non-negative |
| Journey.EquityChart | components/TradingJourney.tsx:36-40 | one point per trade, oldest first; point k is the total pnl of the k+1 oldest trades, and the last is the total pnl |
| Journey.BlankForm | components/TradingJourney.tsx:47-57 | the new-trade form is stamped now, on XAUUSD with entry 0 |
| Journey.FormOf | components/TradingJourney.tsx:44-45 | the edit form carries the trade's pair, side, prices, status, pnl and date |
| Journey.Payload | components/TradingJourney.tsx:74-87 | the editing id or a fresh id, the form's date or now, the form's fields; sl, tp1 and tp2 are dropped |
| Journey.ReplaceById | components/TradingJourney.tsx:89-90 | only entries with the id are replaced; length and order are kept |
| Journey.RemoveById | components/TradingJourney.tsx:62-66 | exactly the entries with the id are removed |
| Journey.RemoveByIdAppend | components/TradingJourney.tsx:64 | deleting keeps the relative order of the remaining trades |
| Journey.RemoveAbsentId | components/TradingJourney.tsx:64 | deleting an id that no trade has changes nothing |
| Journey.DeleteUndoesCreate | components/TradingJourney.tsx:62-92 | deleting a just-created trade with a fresh id restores the history |
| Journey.SaveTrade | components/TradingJourney.tsx:69-96 | no-op exactly for an empty pair or a zero entry; create prepends; edit replaces by id in place |
| Journey.CreateUpdatesStats | components/TradingJourney.tsx:29-33 | creating adds the trade's pnl to the total and one to its status count |
| Journey.BlankFormNotSaved | components/TradingJourney.tsx:47-70 | the blank form cannot be saved as it opens: its entry is 0 |
| Journey.EditUnchangedDropsLevels | components/TradingJourney.tsx:44-90 | saving an unchanged edit writes the trade back without its sl, tp1 and tp2 |
| Journey.JourneyView.HandleOpenModal | components/TradingJourney.tsx:43-60 | edits the given trade's fields, or starts a blank form stamped now |
| Journey.JourneyView.HandleDelete | components/TradingJourney.tsx:62-67 | on confirmation the user's history loses that id through `updateUser`; otherwise nothing is written |
| Journey.JourneyView.HandleSave | components/TradingJourney.tsx:69-97 | the history becomes `SaveTrade`'s result through `updateUser` and the modal closes; a no-op writes nothing |
| Journal.JournalGate | pages/JournalPage.tsx:14 | only PRO and ADVANCED unlock the journal |
| Journal.DisplayedBalance | pages/JournalPage.tsx:18-22 | as written: the last (oldest) entry's balance, or the account size when empty |
| Journal.CurrentBalance | pages/JournalPage.tsx:46-48 | the newest (index 0) entry's balance, or the account size when empty |
| Journal.GrowthPercent | pages/JournalPage.tsx:20-25 | as written: the growth is positive, zero or negative as the displayed (oldest) balance is above, at or below the 1000 start |
| Journal.CorrectedGrowthPercent | pages/JournalPage.tsx:25 | the growth is positive, zero or negative as the newest balance is above, at or below the 1000 start |
| Journal.TotalPnl | pages/JournalPage.tsx:24 | all-profitable entries give a non-negative total, all-losing a non-positive one |
| Journal.CountResult | pages/JournalPage.tsx:27-28 | a result count never exceeds the number of entries |
| Journal.ResultCountsPartition | pages/JournalPage.tsx:27-28 | WIN, LOSS and BE counts sum to the number of entries |
| Journal.WinRate | pages/JournalPage.tsx:29 | 0 for an empty journal, otherwise between 0 and 100 |
| Journal.Growth | pages/JournalPage.tsx:50-63 | the growth is absent (infinite) exactly when the previous balance is 0; on a positive balance it has the sign of the pnl |
| Journal.NewEntry | pages/JournalPage.tsx:46-65 | the new balance is the previous one plus the pnl; setupType defaults to 'Manual'; the form's fields are carried over |
| Journal.SaveEntry | pages/JournalPage.tsx:42-71 | no-op exactly for an empty pair or a zero pnl; otherwise the entry is prepended and accountSize set to the new balance |
| Journal.SaveMovesCorrectedGrowth | pages/JournalPage.tsx:25-71 | each save moves the corrected growth by a tenth of its pnl |
| Journal.SaveExtendsChain | pages/JournalPage.tsx:46-71 | after a save the current balance and the account size moved by the pnl, older entries are kept, other settings unchanged |
| Journal.SaveKeepsSynced | pages/JournalPage.tsx:44-71 | saving keeps every balance equal to the next older one plus its pnl, and the account size on the newest balance |
| Journal.ChainedBalanceIsTotal | pages/JournalPage.tsx:24-50 | in a chained journal the newest balance is the starting balance plus the total pnl |
| Journal.RemoveEntry | pages/JournalPage.tsx:76-80 | exactly the entries with the id are removed |
| Journal.RemoveEntryAppend | pages/JournalPage.tsx:78 | deleting keeps the order of the remaining entries |
| Journal.RemoveAbsentEntry | pages/JournalPage.tsx:78 | deleting an id no entry has changes nothing |
| Journal.DeletePatch | pages/JournalPage.tsx:76-80 | delete sends only the list: balances and accountSize are not recomputed |
| Journal.DeleteNewestDesyncs | pages/JournalPage.tsx:76-80 | deleting the newest entry, when its pnl is not 0, leaves accountSize different from the newest remaining entry's balance |
| Journal.BalanceChart | pages/JournalPage.tsx:84-94 | a start point at 1000, then one point per entry from oldest to newest |
| Journal.ChartEndsAtCurrentBalance | pages/JournalPage.tsx:84-94 | the chart ends at the newest balance |
| Journal.DisplayedBalanceFrozen | pages/JournalPage.tsx:18-50 | once the journal has an entry, saving moves the balance but never the displayed one nor the growth figure |
| Journal.DisplayedBalanceLags | pages/JournalPage.tsx:18-71 | saves of +100 and +50 on a 1000 account display 1100 and 10% growth while the balance is 1150, 15% |
| Journal.JournalView.HandleSave | pages/JournalPage.tsx:42-74 | the user becomes the merge of `SaveEntry`'s update through `updateUser`, and the form is closed and reset |
| Journal.JournalView.HandleDelete | pages/JournalPage.tsx:76-81 | on confirmation the delete update goes through `updateUser`; otherwise nothing is written |
| Auth.Strength | pages/AuthPage.tsx:22-29 | the score is in 0..3, 0 exactly for an empty password, and 3 above 10 characters |
| Auth.LongPasswordsAreStrong | pages/AuthPage.tsx:27 | every password over 10 characters scores 3, whatever its characters |
| Auth.StrengthGrowsWithLength | pages/AuthPage.tsx:22-29 | appending a character never lowers the score |
| Auth.AuthView.CalculateStrength | pages/AuthPage.tsx:22-29 | the page's step-by-step score equals `Strength` |
| Auth.AuthView.HandlePasswordChange | pages/AuthPage.tsx:31-35 | the password and its strength are updated together |
| Auth.MatchesLogin | pages/AuthPage.tsx:58-61 | no account matches an empty name |
| Auth.EmailTaken | pages/AuthPage.tsx:89-91 | an empty list has no taken email, and an empty email is never taken |
| Auth.FindLogin | pages/AuthPage.tsx:58-61 | the first account whose non-empty email or username equals the name case-insensitively |
| Auth.DeviceType | pages/AuthPage.tsx:98 | a width below 768 is the mobile string, any other the desktop string |
| Auth.NewUser | pages/AuthPage.tsx:100-121 | FREE, zero counters, 1000 Standard at 1% with all notifications, cyan card, empty history and the device |
| Auth.Submit | pages/AuthPage.tsx:37-130 | the admin pair always wins; a login yields the first match; a signup appends the new user at the end |
| Auth.SignupCheckOrder | pages/AuthPage.tsx:73-95 | missing username, then missing fields, then no '@', then a taken email; passing all four registers |
| Auth.LoginIgnoresPassword | pages/AuthPage.tsx:48-61 | the login outcome does not depend on which non-empty password is typed |
| Auth.LoginFindsMatch | pages/AuthPage.tsx:58-68 | a login succeeds exactly when some account matches the name |
| Auth.SignupKeepsEmailsUnique | pages/AuthPage.tsx:89-95 | signup keeps emails unique up to case (usernames are not checked) |
| Auth.SignupThenLogin | pages/AuthPage.tsx:58-124 | after signing up, logging in with the same email finds an account |
| Auth.AuthView.HandleSubmit | pages/AuthPage.tsx:37-130 | the error, route, storage keys and current user follow `Submit`; only the admin pair sets the admin flag |
| IdentityCard.ActiveThemeKey | components/UserIdentityCard.tsx:95-97 | team: 'founder' on a Pro account, else 'ceo'; otherwise the theme prop, the user's theme, then 'cyan' |
| IdentityCard.StyleFor | components/UserIdentityCard.tsx:99 | a known key gives its theme, an unknown one the cyan theme |
| IdentityCard.CardStyleIsATheme | components/UserIdentityCard.tsx:14-99 | every card wears one of the seven themes; a team card is gold or red |
| IdentityCard.UnknownThemeIsCyan | components/UserIdentityCard.tsx:97-99 | an unknown stored theme shows the cyan card |
| IdentityCard.DisplayId | components/UserIdentityCard.tsx:265 | ids over 12 characters show first 8 + '...' + last 4 (15 characters); shorter ids whole |
| IdentityCard.DisplayIdIdempotent | components/UserIdentityCard.tsx:265 | shortening a shown id again changes nothing |
| IdentityCard.DisplayIdKeepsEnds | components/UserIdentityCard.tsx:265 | long ids with the same first 8 and last 4 characters show alike |
| IdentityCard.DisplayName | components/UserIdentityCard.tsx:152 | the shown name has the username's length and no lower-case letter |
| IdentityCard.StripWhitespace | components/UserIdentityCard.tsx:129 | whitespace is removed and a string without it is unchanged |
| IdentityCard.StripWhitespaceAppend | components/UserIdentityCard.tsx:129 | removal keeps the other characters in order |
| IdentityCard.Slug | components/UserIdentityCard.tsx:129 | the slug has no whitespace and no upper-case letter |
| IdentityCard.ShareUrl | components/UserIdentityCard.tsx:129 | the fixed profile prefix, then a part without whitespace no longer than the username |
| IdentityCard.SlugIdempotent | components/UserIdentityCard.tsx:129 | the slug of a slug is itself |
| IdentityCard.SlugIgnoresSpace | components/UserIdentityCard.tsx:129 | a space typed anywhere in the username does not change the link |
| IdentityCard.AvatarCheck | components/UserIdentityCard.tsx:135-149 | upload exactly with a file, a callback and at most 2 MiB; rejected exactly above 2 MiB |
| IdentityCard.AvatarLimitBoundary | components/UserIdentityCard.tsx:139 | 2097152 bytes upload, 2097153 are rejected |

## Findings

| source | as written | input that shows it | evidently intended | confidence | as-written member | corrected member |
|---|---|---|---|---|---|---|
| pages/JournalPage.tsx:20-22 | the current balance is read from the last element of the journal, but entries are prepended, so that is the oldest entry | a 1000 account saving +100 and then +50: the page shows 1100 while the balance and accountSize are 1150 | the newest entry's balance (index 0), which `handleSave` already continues from and where the chart ends | medium, not executed | Journal.DisplayedBalanceLags | Journal.CurrentBalance |
| pages/JournalPage.tsx:25 | the growth figure is computed from that displayed balance, so it stays at the first entry's growth | the same two saves: the page shows 10% growth while the balance has grown 15% | the growth of the newest balance | medium, not executed | Journal.GrowthPercent | Journal.CorrectedGrowthPercent |

`Journal.DisplayedBalance`, `Journal.GrowthPercent`, `Journal.DisplayedBalanceFrozen` and
`Journal.DisplayedBalanceLags` model the code as written. `Journal.CurrentBalance` and
`Journal.CorrectedGrowthPercent` are the corrected figures:
`Journal.ChartEndsAtCurrentBalance`, `Journal.SaveExtendsChain` and
`Journal.SaveMovesCorrectedGrowth` show that they follow the balance the rest of the page
works with.

## Left out

- Rendering, styling, charts' date formatting (`toLocaleDateString`), alerts, routing except the route chosen on the auth page, clipboard writes and timers.
- The analysis service's image upload and the model call: its reply is a parameter of `Scan` and `HandleFileUpload`.
- Types.TradeLog: the optional journaling fields `confluence`, `emotions`, `notes` and `rr` are not modelled; no modelled page reads or writes them.
- Types.SideOf: the direction the analysis returns is stored as it is, so a value such as "N/A" reaches the signal and the log unchanged; the model keeps only BUY or SELL, which is all any modelled page tests.
- IdentityCard.StyleFor: a key that names a member every JavaScript object inherits, such as "constructor" or "toString", makes the page's theme lookup return that member instead of falling back to cyan; the model gives cyan. Such keys cannot arise, because the stored theme is only ever set from the theme picker.
- Analysis.BuildSignal: the signal does not carry the extra analysis fields that the object spread copies in (`isSetupValid`, `marketStructure`).
- The `try`/`catch` of `handleFileUpload`, and JSON parse failures: storage holds records, so a corrupt value cannot occur.
- IEEE floating point: amounts are exact reals, so NaN, infinities (other than the journal's growth on a zero balance) and binary rounding of `toFixed` are not modelled.
- The `|| 0` defaults on numeric form fields: an empty number field is 0 in the model.
- Numbers.RoundTo: rounds half away from zero on the exact value, where a browser rounds the binary double.
- Admin.DefaultExpiryDay: "30 days from now" is 30 × 86400000 ms; the local-time `setDate` can differ by an hour across a daylight-saving change.
- The admin console's own login screen, its 5-second polling, its logout and its system log lines; the fixed admin credentials are modelled only on the auth page, as a route.
- Auth.Strength: lengths count Unicode characters, while the page's `length` counts UTF-16 code units, so a password holding a character outside the Basic Multilingual Plane (an emoji, say) can cross the 6-, 7- and 10-character thresholds on the page and not in the model: "abc1!" followed by U+1F600 scores 3 there and 2 here.
- Auth.AuthView.CalculateStrength: takes the same character-count lengths as Auth.Strength, with the same difference for characters outside the Basic Multilingual Plane.
- IdentityCard.DisplayId: the 12-character test and the first-8/last-4 slices count Unicode characters where the page's `length` and `substring` count UTF-16 code units; the ids are ASCII in practice, where the two agree.
- Text.Lower and Text.Upper map the ASCII letters only; other scripts' case mapping is not modelled.
- The identity card's mouse-tilt rotation and the image data URL read by `FileReader`.
- Dashboard price simulation, the settings page and the landing page are not part of this model.
