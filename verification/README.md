# Koul, modelled and proved

Koul lets a person write an autopilot: an ordered list of rules ("when this holds, make this move") that a keeper's `tick`
runs on the person's own money. This project models the parts of Koul whose guarantees hold over every input, every run or
every interleaving, and proves them:

- **The rule engine** (`koul_router`). `RouterMath`, `RouterTypes`, `Reads`, `Engine`, `Registry` and `Router` follow the
  contract: integer arithmetic on a checked 128-bit width, plans, the step-by-step `run`, the stored registries, and the
  class `KoulRouter` with its state-changing methods. `PlanAmounts`, `RuleTruth` and `Settlements` say what these come to on
  the figures of the world: how much a rule moves, when it holds and fires, and what a tick leaves in the books.
  `Conservation`, `Walks`, `SwapFloors`, `Overflows` and `RouterRuns` prove what every tick and every history keeps, what a
  swap pays, and exactly when a tick overflows. A panic is a result (`Checked`), and a panicking call changes nothing.
- **The leash** (`koul_agent_policy`, `permissionsFor`, `buildGrantAgent`). `AgentPolicy` is the policy contract as a class,
  `PolicyRuns` proves its sessions and rate limit over whole histories, `Permissions` derives the parameters from an autopilot,
  `Leash` proves that what is derived is enough for every plan and that every call on the list is used, and `LeashRuns` joins
  them end to end, from the person's autopilot to each tick and to everything the agent can do at most.
- **Schema, validator, codec**. `Decimal`, `Schema` and `Codec`: print and parse, the validator against the contract's own
  check, and the round trip. `ContractReading` is the contract's own reading of what is encoded.
- **Entering the competition**. `EntryProtocol` has one step per store call; its invariant holds over all interleavings.
- **Scoring, ranking, chunking**. `Scoring`, `ScoringMeaning`, `ScoringRuns`, `ScoringWindows`, `Ranking`, `Chunks`.
- **Traction**. `Traction`, `TractionReplay`, `TractionTotals`, `TractionRecords`, `TractionSummary`,
  `TractionPage`.

`MachineInt`, `Basics` and `Sums` are the shared ground.

The outside world is data: balances, positions, hub figures, prices, sessions and the ledger number are one `World` value,
and the lending controller and the swap aggregator are arbitrary functions on it (`Engine.Outside`). Where a theorem needs a
controller that does what it is asked, it says so (`Conservation.Honest`, `Walks.PaysInFull`).

## Main results

- What a tick does: `RuleTruth.TickFiresTheFirst`, `PlanAmounts.PlanIsWhatWasAsked`, `Settlements.TickSettles`,
  `Settlements.TickSwapSettles`.
- Walks agree: `Walks.ChooseIsFirst`, `Walks.NextActionPredictsTick`, `SwapFloors.AnnouncedSwapIsRun`,
  `Walks.CheckShowsTheFiredRule`.
- Money: `Walks.TickConserves`, `SwapFloors.WithdrawSwapDrawsItsAmount`, `SwapFloors.SwapTickPaysTheOracle`,
  `RouterMath.WithdrawableNearlyOptimal`, `RouterMath.WithdrawableIsLargest`.
- Overflow: `Overflows.PlanPanicsExactly`, `Overflows.NextActionPanicsExactly`.
- Histories of the router: `RouterRuns.ExactAlways`, `RouterRuns.StoredIsLastSaved`, `RouterRuns.CooldownIsKept`,
  `RouterRuns.ReadyFromTheCooldownOn`, `Registry.EnumerationIsExact`.
- The leash: `PolicyRuns.RateLimit` with `PolicyRuns.RateLimitIsTight`, `PolicyRuns.ActsOnlyInsideATick`,
  `LeashRuns.GrantedTicksPass`, `LeashRuns.GrantedCallsAreConfined`, `LeashRuns.KeyIsIdleAfterATick`, `Leash.PermissionsAreMinimal`.
- Codec and validator: `Codec.CodecRoundTrip`, `ContractReading.RouterReadsWhatWasMeant`, `Schema.ValidatorAgreesWithRouter`.
- Entries: `EntryProtocol.EntriesAreExclusive`, `EntryProtocol.EnteringSucceeds`, `EntryProtocol.HistoryBreaksExactly`,
  `EntryProtocol.OverlappingRunsBreakTheHandle`.
- Off chain: `Chunks.ChunkBySize`, `Ranking.Rank`, `ScoringRuns.PnlExactly`, `ScoringRuns.OneTxRisesExactly`,
  `ScoringMeaning.OutsideMoneyIsNoProfit`, `ScoringRuns.NoProfitAtConstantPrices`, `ScoringWindows.RunsCountOnce`,
  `TractionReplay.RunsCountEachEventOnce`, `TractionRecords.RunsRecordTheEvents`, `TractionTotals.AlwaysBalanced`,
  `TractionSummary.SeriesAddsUp`, `TractionSummary.LastDayCountsEveryUser`.

## What the proofs turned up

- **A busy hub stops the tick.** `withdrawable` multiplies the hub's borrowed amount by 10^27 in `i128`. Above
  170,141,183,460 units, about 17,014 USDC borrowed, that overflows wherever the hub's ceiling binds and the position has
  collateral in it. Planning any rule that draws on that hub then panics, a repayment from collateral included, and while such
  a rule is due with nothing to do before it, so do `next_action` and every tick (`Overflows.BusyHubBlocksTheTick`;
  `Overflows.BusyHubHappens` gives a world). `Overflows.PlanPanicsExactly` is the exact condition for every action, and
  `Overflows.NextActionPanicsExactly` for the walk.
- **Entries rely on one run per wallet at a time.** A run that loses the race for a key its own wallet claimed shares that
  claim, and the run that made it may delete it later. With two overlapping runs of one wallet, two wallets end with one handle
  (`EntryProtocol.OverlappingRunsBreakTheHandle`). Many overlaps do no harm: over any history, an entry stays whole exactly as
  long as no store call deletes a key that an entry stands on, and none writes a record whose two keys its wallet no longer has
  (`EntryProtocol.HistoryBreaksExactly`). With one run at a time no call does either (`EntryProtocol.SerialNeverBreaks`).
- **When a score moves at constant prices.** It changes by what each transaction gains plus the value of tokens held before and
  read for the first time (`ScoringRuns.PnlExactly`). When everything held was read, one transaction that moves two tokens and
  sends something of value out raises the score exactly when the lending position gained more than the swap lost to the oracle;
  any other raises it exactly when what came in, with the position's change, is more than what went out
  (`ScoringRuns.OneTxRisesExactly`). So a payment from any contract that is not a smart wallet is profit
  (`ScoringRuns.ProtocolPaymentIsProfit`), and so is what a swap of an unpriced token buys (`ScoringRuns.UnpricedSwapIsProfit`).
  Conversely a withdrawal swapped in the same transaction costs the entry the whole amount withdrawn
  (`ScoringRuns.WithdrawSwapShiftsTheScore`).
- **A hidden token is profit later.** A token that is not built in, held from before the first scoring and moved later, appears
  at its full value (`ScoringRuns.HiddenTokenIsProfit`), although the code's comment says the opening value covers it. Over any
  transactions that gain nothing, a rise takes such a token, and one is enough when they came out even
  (`ScoringRuns.RisesExactly`).
- **The rate limit.** Any `window_ledgers` consecutive ledgers hold at most 2*max - 1 accepted calls, and max when the window is
  one ledger; for all parameters that allow a tick, a history of accepted ticks reaches that (`PolicyRuns.RateLimitIsTight`).
- **Tokens and recipients are checked apart.** An autopilot that both lends and swaps also permits a token it sells to go to
  the lending pool, and, when it sells no USDC, USDC to go to the aggregator; no rule makes these transfers, and no other unused
  pair is permitted (`LeashRuns.UnusedTransfersExactly`), while every transfer a rule does make is
  (`LeashRuns.UsedTransfersArePermitted`).

## Model

| member | source | states |
|---|---|---|
| RouterMath.FloorGrainIs | contracts/koul_router/src/lib.rs:361-363 | `floor_grain` is the largest non-negative multiple of the grain that is not above the amount |
| RouterMath.WithdrawableSound | contracts/koul_router/src/lib.rs:371-380 | what `withdrawable` returns is a non-negative multiple of the grain, at most the collateral, and if positive leaves the hub with cash and at or under its utilisation ceiling |
| RouterMath.WithdrawableNearlyOptimal | contracts/koul_router/src/lib.rs:371-380 | no withdrawal the pool would allow exceeds it by more than two grains |
| RouterMath.WithdrawableIsLargest | contracts/koul_router/src/lib.rs:371-380 | exactly how much: a whole number of grains is within it if and only if it is within the position and the pool would strictly allow one grain more |
| RouterMath.WithdrawablePanicsExactly | contracts/koul_router/src/lib.rs:371-380 | for sane figures it panics if and only if a ceiling is active and more than (2^127-1)/10^27 units are borrowed |
| RouterMath.WantIsExact | contracts/koul_router/src/lib.rs:390-397 | a valid amount resolves, before rounding, to all, the floor of the percentage, or the fixed amount capped at the base, with no overflow |
| RouterMath.ResolveIs | contracts/koul_router/src/lib.rs:390-397 | `resolve` is within a grain below what was wanted, on the grain, and never above the base |
| RouterMath.DebtBaseCovers | contracts/koul_router/src/lib.rs:644-647 | a repay-all base covers the debt with an overshoot below two grains |
| RouterMath.DebtBasePanicsExactly | contracts/koul_router/src/lib.rs:644-647 | the base overflows exactly for a debt within two grains of the largest i128 on the grain |
| RouterMath.UsdValueIsExact | contracts/koul_router/src/lib.rs:412-414 | the split evaluation of `usd_value` is exactly floor(amount * price / 10^decimals) |
| RouterMath.UsdValuePanicsExactly | contracts/koul_router/src/lib.rs:412-414 | it overflows exactly for a scale past 10^38, a remainder too big to price, or a value past i128 |
| RouterMath.CheckedPow10Fits | contracts/koul_router/src/lib.rs:407-409 | a power of ten panics exactly when it leaves i128 |
| RouterMath.SwapFloorIsNestedFloors | contracts/koul_router/src/lib.rs:417-423 | `swap_floor` is the chain of floors over the exact product |
| RouterMath.SwapFloorIsTight | contracts/koul_router/src/lib.rs:417-423 | it never exceeds the exact oracle output less slippage and is below it by less than 10^dec_out/price_out + 2 |
| RouterMath.SwapFloorMonotone | contracts/koul_router/src/lib.rs:417-423 | it grows with the amount and shrinks with the slippage |
| RouterMath.SwapFloorPanicsExactly | contracts/koul_router/src/lib.rs:417-423 | once the value fits, it overflows exactly when the value times the output's scale does; slippage never adds to it |
| Reads.ReadRule | contracts/koul_router/src/lib.rs:611-622 | the loop over a rule's conditions equals its specification: all states in order, combined by all or any, with a panic of any condition the panic of the rule |
| Reads.WithdrawableInSound | contracts/koul_router/src/lib.rs:637-640 | reading a hub and position gives an amount the hub can pay now |
| Reads.PlanIsSound | contracts/koul_router/src/lib.rs:686-726 | whatever `plan` returns is payable from its source: on the grain where a lending amount, within the wallet's balance, the position and the hub's limits |
| Reads.DebtBaseIsAmount | contracts/koul_router/src/lib.rs:644-647 | an amount resolved against a debt stays on the grain |
| PlanAmounts.PlanIsWhatWasAsked | contracts/koul_router/src/lib.rs:686-727 | for all seven actions: the plan is exactly what was asked (all, a share, a fixed amount) of what is there, in whole cents, in the hubs and tokens the action names, and none exactly under a dollar or for a swap not worth it |
| PlanAmounts.PriceIsExactly | contracts/koul_router/src/lib.rs:650-664 | a price is used exactly when its feed is registered and it is positive and within its age |
| PlanAmounts.SwapIsPlanned | contracts/koul_router/src/lib.rs:671-682 | a swap is planned exactly when both tokens are priced, it is worth a dollar and its floor is positive, with that floor as its minimum |
| RuleTruth.ConditionIs | contracts/koul_router/src/lib.rs:573-609 | every condition is read as true exactly when it holds on the figures, and only a gap of rates can panic |
| RuleTruth.RuleIs | contracts/koul_router/src/lib.rs:611-622 | a rule is read as true exactly when all of its conditions hold, or any of them if it asks for any |
| RuleTruth.TickFiresTheFirst | contracts/koul_router/src/lib.rs:1005-1040 | a committed tick fires the first rule that is off cooldown, holds on the figures and has something to do; none if there is none |
| RuleTruth.CheckMeans | contracts/koul_router/src/lib.rs:969-981 | the view shows of each rule whether it is off cooldown, whether it and each condition hold, and its last ledger |
| Engine.Run | contracts/koul_router/src/lib.rs:729-794 | the step-by-step run equals its specification for every controller and aggregator, including every panic |
| Engine.SwapPaysItsPlan | contracts/koul_router/src/lib.rs:767-792 | a committed swap had a fitting route and paid at least what its plan says, whatever the route and the aggregator do |
| Conservation.RunConserves | contracts/koul_router/src/lib.rs:729-766 | a committed lending plan keeps wallet USDC + collateral - debt, leaves no balance negative, and leaves the hub drawn on within its ceiling |
| Conservation.FullRepayClears | contracts/koul_router/src/lib.rs:644-647 | a full repay with enough idle USDC clears the debt and overshoots by less than two grains |
| Settlements.TickSettles | contracts/koul_router/src/lib.rs:729-766 | with honest contracts a committed lending tick moves exactly its plan: the wallet, collateral and debt of every hub, everybody else untouched, and the report, dust included when the controller pays less |
| Settlements.TickSwapSettles | contracts/koul_router/src/lib.rs:767-792 | a committed swap takes exactly its amount of the token it sells, from the wallet or the hub it names, and touches no other position |
| Registry.VecRemove | contracts/koul_router/src/lib.rs:541-559 | the loop that rebuilds a list without an entry equals its specification |
| Registry.WithoutKeepsOrder | contracts/koul_router/src/lib.rs:541-559 | removing an entry keeps the order of the rest |
| Registry.SetKeepsExact | contracts/koul_router/src/lib.rs:895-928 | saving keeps the registries exact and leaves no cooldown of the replaced rules |
| Registry.CooldownsForgotten | contracts/koul_router/src/lib.rs:903-911 | clearing indices below MAX_RULES clears every cooldown of that autopilot and no other |
| Registry.SaveMeans | contracts/koul_router/src/lib.rs:895-928 | a save is accepted exactly within the written limits and with tokens that can be priced and traded; then the key stores just it, and every other autopilot, cooldown and list is as it was |
| Registry.ClearMeans | contracts/koul_router/src/lib.rs:930-954 | a clear removes just that autopilot, its cooldowns and its list entries, and nothing else |
| Registry.ClearKeepsExact | contracts/koul_router/src/lib.rs:930-954 | clearing keeps the registries exact and leaves no cooldown behind |
| Registry.FireKeepsExact | contracts/koul_router/src/lib.rs:1014-1027 | recording a fire keeps the registries exact |
| Registry.EnumerationIsExact | contracts/koul_router/src/lib.rs:956-966 | users times their ids visits every stored autopilot exactly once |
| Router.KoulRouter.SweepCooldowns | contracts/koul_router/src/lib.rs:903-911 | the sweep over every rule index removes exactly that autopilot's cooldowns |
| Router.KoulRouter.SetAutopilot | contracts/koul_router/src/lib.rs:895-928 | a save is the specified one: refused without a trace, or the whole new storage |
| Router.KoulRouter.ClearAutopilot | contracts/koul_router/src/lib.rs:930-954 | a clear is the specified one |
| Router.KoulRouter.Check | contracts/koul_router/src/lib.rs:969-981 | the view reports every rule in order, or panics when there is no autopilot |
| Router.KoulRouter.NextAction | contracts/koul_router/src/lib.rs:985-1000 | the view's loop equals the first-choice walk |
| Router.KoulRouter.Tick | contracts/koul_router/src/lib.rs:1005-1040 | the tick's loop equals the first-choice walk followed by the run, the cooldown and the session close; a panic leaves the storage as it was |
| Walks.ChooseIsFirst | contracts/koul_router/src/lib.rs:1013-1033 | the walk chooses a rule if and only if it is ready, holds and has a plan, and every earlier one was cooling, false or without a plan |
| Walks.ChooseNothing | contracts/koul_router/src/lib.rs:1013-1040 | it chooses nothing if and only if no rule qualifies |
| Walks.RunReports | contracts/koul_router/src/lib.rs:798-828 | what a run reports is what its plan announced, with the amount when the controller pays in full |
| Walks.NextActionPredictsTick | contracts/koul_router/src/lib.rs:985-1040 | from any storage and world: none means the tick does nothing; a planned action means a committing tick fires that rule with that kind and amount; a panic means the tick panics |
| Walks.ChosenPlanIsSound | contracts/koul_router/src/lib.rs:985-1033 | the plan chosen is payable |
| Walks.CheckShowsTheFiredRule | contracts/koul_router/src/lib.rs:969-1040 | `check` shows the fired rule ready and holding, and every earlier rule not ready, not holding, or without a plan |
| Walks.TickConserves | contracts/koul_router/src/lib.rs:1005-1040 | a whole committed tick of a lending rule conserves the person's money, keeps it solvent, and leaves the hub it drew on with cash and under its ceiling |
| SwapFloors.PlanIsFloored | contracts/koul_router/src/lib.rs:671-682 | a planned swap is of its action's pair, for `swap_floor` of the prices read now and the action's slippage |
| SwapFloors.SwapTickPaysTheFloor | contracts/koul_router/src/lib.rs:671-792 | every tick that commits a swap ran a rule floored by the world's prices, and the wallet received at least that floor |
| SwapFloors.SwapTickPaysTheOracle | contracts/koul_router/src/lib.rs:412-423 | so it received more than the exact oracle output less slippage, minus 10^dec_out/price_out + 2 |
| SwapFloors.ReceivedIsTheRise | contracts/koul_router/src/lib.rs:767-792 | what it received is the rise over the tick's own start for a wallet swap, and for a withdrawn one with an honest controller and a token other than USDC |
| SwapFloors.WithdrawSwapDrawsItsAmount | contracts/koul_router/src/lib.rs:774-779 | with an honest controller, the lending leg of a committed withdraw-and-swap brings exactly the plan's amount, keeps the person's money and leaves the hub with cash and under its ceiling |
| SwapFloors.AnnouncedSwapIsRun | contracts/koul_router/src/lib.rs:985-1040 | a route is needed exactly as announced; a committed swap had a route for the announced pair, sold the announced amount and paid at least the announced minimum |
| Overflows.PlanPanicsExactly | contracts/koul_router/src/lib.rs:686-726 | for sane figures, planning a valid action panics if and only if its hub is busy, its debt too large or its swap's figures too big, and then by overflow |
| Overflows.NextActionPanicsExactly | contracts/koul_router/src/lib.rs:985-1040 | the view panics if and only if such a rule is due with nothing to do before it; then every tick panics too |
| Overflows.BusyHubBlocksTheTick | contracts/koul_router/src/lib.rs:371-380 | a due rule that draws on a busy hub, a repayment from collateral included, stops the tick whatever the rest of the world |
| Overflows.BusyHubHappens | contracts/koul_router/src/lib.rs:371-380 | for every valid drawing action there is a storable autopilot and a sane world in which its tick panics |
| RouterRuns.ExactAlways | contracts/koul_router/src/lib.rs:895-1040 | after any run of saves, clears and ticks the registries and cooldowns are exact |
| RouterRuns.CooldownIsKept | contracts/koul_router/src/lib.rs:399-401 | two fires of one rule with no save or clear between are at least its cooldown apart, in every run |
| RouterRuns.FiresAreReady | contracts/koul_router/src/lib.rs:1014-1027 | a rule that fired was stored, in range and ready, and its cooldown is all the tick wrote |
| RouterRuns.ReplacingResets | contracts/koul_router/src/lib.rs:903-911 | a save or a clear resets the cooldowns |
| RouterRuns.StoredIsLastSaved | contracts/koul_router/src/lib.rs:895-954 | after any history a key stores the autopilot of its last committed save with no committed clear since |
| RouterRuns.ReadyFromTheCooldownOn | contracts/koul_router/src/lib.rs:399-401 | a rule that fired is ready again exactly from its cooldown on, until it fires or is replaced |
| RouterRuns.ReadyAtOnce | contracts/koul_router/src/lib.rs:899-911 | a rule just saved is ready at once |
| AgentPolicy.Policy.EnforceContext | contracts/koul_agent_policy/src/lib.rs:134-209 | the guarded sequence of checks and writes equals its specification; a refusal reverts |
| AgentPolicy.Policy.InstallOn | contracts/koul_agent_policy/src/lib.rs:211-227 | installing stores exactly the parameters, or refuses empty ones and stores nothing |
| AgentPolicy.Policy.UninstallFrom | contracts/koul_agent_policy/src/lib.rs:229-233 | uninstalling removes the parameters and the window of that rule only |
| AgentPolicy.Policy.CloseSession | contracts/koul_agent_policy/src/lib.rs:240-247 | only the router that opened a session closes it |
| PolicyRuns.WellKeptAlways | contracts/koul_agent_policy/src/lib.rs:144-247 | in every history installed parameters are the ones install accepts, windows hold at least one call, and windows and sessions date from the past |
| PolicyRuns.ParamsStay | contracts/koul_agent_policy/src/lib.rs:211-233 | parameters change only by install and uninstall of that rule |
| PolicyRuns.StoreFollowsMarks | contracts/koul_agent_policy/src/lib.rs:197-207 | the stored window of a rule is a function of the ledgers of its accepted calls |
| PolicyRuns.BudgetKept | contracts/koul_agent_policy/src/lib.rs:197-207 | the calls in an interval stay within what the current window and its start allow |
| PolicyRuns.RateLimit | contracts/koul_agent_policy/src/lib.rs:197-207 | any window_ledgers consecutive ledgers of any history hold at most 2*max - 1 accepted calls, and max for windows of one ledger |
| PolicyRuns.RateLimitIsTight | contracts/koul_agent_policy/src/lib.rs:197-207 | for all installable parameters that allow a tick, a history of accepted ticks from a fresh install reaches that bound |
| PolicyRuns.WindowCounts | contracts/koul_agent_policy/src/lib.rs:197-207 | in any history the stored counter is the accepted calls since the window's start, with those counted before if it is still the same window, and above the maximum only if it was so from the start |
| PolicyRuns.SessionHasOrigin | contracts/koul_agent_policy/src/lib.rs:148-157 | an open session was opened by an accepted tick with no effective close since |
| PolicyRuns.ActsOnlyInsideATick | contracts/koul_agent_policy/src/lib.rs:148-157 | an accepted call other than tick is preceded, in its own ledger, by an accepted tick of that account with no effective close between |
| PolicyRuns.QuietUntilTheNextTick | contracts/koul_agent_policy/src/lib.rs:148-157 | without an open session no call but a tick is accepted until one is, in that ledger |
| PolicyRuns.EnforceExactly | contracts/koul_agent_policy/src/lib.rs:134-209 | a call is accepted if and only if it has a signer, an installed rule that lists it, a tick or this ledger's session, fitting arguments and room in its window; and what it writes |
| PolicyRuns.InstallExactly | contracts/koul_agent_policy/src/lib.rs:211-227 | parameters are installed exactly when they name an account, a call, a limit and a window, and nothing else changes |
| PolicyRuns.UninstallExactly | contracts/koul_agent_policy/src/lib.rs:229-233 | removing a rule takes its parameters and window and nothing else |
| PolicyRuns.CloseExactly | contracts/koul_agent_policy/src/lib.rs:240-247 | a close is accepted exactly from the opener or with nothing open, and removes just that session |
| PolicyRuns.SessionStays | contracts/koul_agent_policy/src/lib.rs:240-247 | in every history a session stays open until its opener closes it or the account ticks again; anybody else's close is refused |
| PolicyRuns.OpenerEnds | contracts/koul_agent_policy/src/lib.rs:240-247 | the opener's close ends it |
| Permissions.Unique | packages/core/src/permissions.ts:27-30 | the deduplicated list has the same members, each once |
| Permissions.SwapInputs | packages/core/src/permissions.ts:27 | the swap inputs are exactly the tokens some swap rule hands over |
| Permissions.CollectCalls | packages/core/src/permissions.ts:18-31 | the pushed calls are exactly those the collected needs call for |
| Permissions.PermissionsFor | packages/core/src/permissions.ts:15-36 | an error exactly for an invalid autopilot or a swap without an aggregator; otherwise the calls and recipients granted are those some rule makes or pays, plus tick |
| Leash.PermissionsAreEnough | packages/core/src/permissions.ts:11-36 | with a derived grant installed, every context in the tree of every plan of its rules passes the policy while the window has room; a tree has at most four |
| Leash.TicksFit | packages/core/src/permissions.ts:11-36 | ten ticks always fit forty calls |
| Leash.PlansArePlansOf | contracts/koul_router/src/lib.rs:686-726 | the router's plans have the shape the trees are built for |
| Leash.EveryActionPlans | contracts/koul_router/src/lib.rs:686-726 | every valid action has a world in which it plans |
| Leash.PermissionsAreMinimal | packages/core/src/permissions.ts:11-36 | every granted pair of contract and function other than tick is called by some rule in some world |
| LeashRuns.TreeIsTheRun | contracts/koul_router/src/lib.rs:729-794 | the tree checked against the policy is the tick's context and those of the calls `run` makes, in order |
| LeashRuns.GrantAgent | packages/core/src/write.ts:31-46 | the agent is granted exactly for valid days, autopilot, account and limits; the stored parameters are what the autopilot's rules use, with the configured aggregator or the default one; the rule lasts the days asked at 17,280 ledgers each |
| LeashRuns.GrantedTicksPass | packages/core/src/permissions.ts:11-36 | end to end: once granted, in every world the tree of the tick the router chooses passes the policy while four calls fit, and the session can be closed |
| LeashRuns.GrantedCallsAreConfined | contracts/koul_agent_policy/src/lib.rs:144-195 | end to end: in every history after the grant each accepted call is a tick or one some rule makes, on the autopilot's account, paying only the wallet, the pool or the aggregator |
| LeashRuns.KeyIsIdleAfterATick | contracts/koul_router/src/lib.rs:1013-1039 | after a committed tick no call of the agent is accepted until the next accepted tick |
| LeashRuns.UnusedTransfersExactly | contracts/koul_agent_policy/src/lib.rs:158-165 | which permitted pairs of token and recipient no rule makes, exactly |
| LeashRuns.UsedTransfersArePermitted | contracts/koul_agent_policy/src/lib.rs:158-165 | every pair of token and recipient that a rule transfers is permitted |
| Decimal.ParsePrint | packages/core/src/schema.ts:5 | printing a number gives a canonical string that parses back |
| Decimal.PrintParse | packages/core/src/schema.ts:5 | a canonical string is the print of what it parses to |
| Decimal.DigitsAreDecimal | packages/core/src/schema.ts:5 | each character of a decimal string is that digit of its number |
| Schema.ValidateAutopilot | packages/core/src/validate.ts:8-36 | the nested loops report no issue exactly for a valid autopilot, and each issue is of a rule that breaks a limit |
| Schema.ConditionsAgree | contracts/koul_router/src/lib.rs:440-450 | schema and limits accept a condition exactly when the contract does |
| Schema.ActionsAgree | contracts/koul_router/src/lib.rs:452-465 | the same for an action |
| Schema.ValidatorAgreesWithRouter | packages/core/src/validate.ts:7-36 | for in-range values the validator accepts exactly what `autopilot_ok` accepts |
| Schema.ValidIsTyped | packages/core/src/validate.ts:7-36 | what the validator accepts fits the contract's integer types |
| Codec.CodecRoundTrip | packages/core/src/codec.ts:16-110 | decoding an encoded valid autopilot gives it back |
| Codec.EncodeIsInjective | packages/core/src/codec.ts:46-59 | two valid autopilots with one encoding are equal |
| Codec.ConditionRoundTrip | packages/core/src/codec.ts:23-33 | every condition round-trips |
| Codec.ActionRoundTrip | packages/core/src/codec.ts:34-45 | every action round-trips |
| ContractReading.RouterReadsWhatWasMeant | contracts/koul_router/src/lib.rs:140-225 | what the router's types read in an encoded valid autopilot, by position and key, is field by field what the SDK meant, and the router accepts it |
| EntryProtocol.AdvanceTouchesOnlyItself | web/lib/competition-server.ts:90-122 | one store call of one wallet's run leaves another wallet's claims, record and place alone |
| EntryProtocol.StepKeepsInv | web/lib/competition-server.ts:60-122 | every store call, start or stop keeps the invariant while each wallet runs one entry at a time |
| EntryProtocol.EntriesAreExclusive | web/lib/competition-server.ts:84-122 | over all interleavings verified entries have distinct handles (ignoring case) and emails, own both keys, hold a place, and places never pass the cap |
| EntryProtocol.RefusalLeavesNothing | web/lib/competition-server.ts:97-108 | in every history a refused run leaves the wallet with exactly the keys it held when the run began |
| EntryProtocol.EnteringSucceeds | web/lib/competition-server.ts:94-122 | with handle and email free or its own and a place left or held, a wallet's run alone ends entered with both keys and the place, and a replaced pending entry's other keys are let go |
| EntryProtocol.EnteringMeans | web/lib/competition-server.ts:111-119 | an entry that replaces a pending one keeps its own two keys, lets go the handle and email it no longer uses, and changes no other claim |
| EntryProtocol.HandleKeysAgree | packages/core/src/competition.ts:275 | two handles share a key exactly when they differ in nothing but the case of Latin letters |
| EntryProtocol.VerifiedStays | web/lib/competition-server.ts:94-96 | a verified record never changes, in every history with one run per wallet at a time |
| EntryProtocol.OverlappingRunsBreakTheHandle | web/lib/competition-server.ts:99-108 | with overlapping runs of one wallet, from every such start two wallets end entered under one handle |
| EntryProtocol.StepBreaksExactly | web/lib/competition-server.ts:99-122 | with any overlaps, a store call leaves some entry without its place or a key exactly when it deletes a key an entry stands on or writes a record whose keys are no longer held |
| EntryProtocol.HistoryBreaksExactly | web/lib/competition-server.ts:84-122 | over any history entries are whole throughout if and only if no call breaks one, and then they are exclusive; the places never pass the cap either way |
| EntryProtocol.SerialNeverBreaks | web/lib/competition-server.ts:60-122 | with one run per wallet at a time no call breaks an entry |
| Chunks.ChunkBySize | packages/core/src/competition.ts:356-367 | the groups are the items in order, none empty, each within the limit or one oversized item, and no other such split has fewer |
| Chunks.GreedyStaysAhead | packages/core/src/competition.ts:356-367 | after any number of items the split has no more groups than another, and with as many, no fuller a last one |
| Ranking.SortIsStable | packages/core/src/competition.ts:236-238 | the order is the stable descending sort: same rows, sorted, ties in the order they came |
| Ranking.Rank | packages/core/src/competition.ts:236-246 | each row's rank is one more than the ranked rows strictly ahead of it to four decimals, none for a flagged or return-less row |
| Ranking.BoardMeans | packages/core/src/competition.ts:235-246 | best return first and missing ones last; no rank exactly for a flagged or return-less row; otherwise one more than the unflagged rows with a better return to four decimals |
| Scoring.ValueUsd | packages/core/src/competition.ts:68-80 | the value is the lending position plus every priced token, and the unpriced list is exactly the tokens held without a price |
| Scoring.InsideMoves | packages/core/src/competition.ts:163-181 | manual transactions and swap edge are those of the moves grouped by transaction |
| Scoring.MoveOrderIsIrrelevant | packages/core/src/competition.ts:163-170 | the groups do not depend on the order of the moves |
| Scoring.IndexEntry | keeper/scripts/competition.ts:164-216 | a run's totals, score and return equal their specification: outside money, inside moves, tokens seen, the opening value |
| Scoring.TransferOrderIsIrrelevant | keeper/scripts/competition.ts:174-204 | a run does not depend on the order its transfers were read in |
| Scoring.FirstScoringIsNoProfit | keeper/scripts/competition.ts:207-215 | the first scoring takes value no flow explains as the opening value when it is over a dollar, and shows it as the score otherwise |
| Scoring.ReturnMeans | packages/core/src/competition.ts:192-195 | the return is the score in percent of what was put in, and there is one exactly when something was |
| ScoringMeaning.ClassifiedAs | packages/core/src/competition.ts:134-142 | by addresses alone: mints, classic accounts and smart wallets are outside money, any other contract is a move inside, the wallet itself and unlisted tokens are nothing |
| ScoringMeaning.TallyIs | keeper/scripts/competition.ts:174-204 | money in, money out and tokens seen are the sums and the set over those transfers at their dollar worth |
| ScoringMeaning.LegIs | packages/core/src/competition.ts:163-170 | a transaction's leg is the worth of what went to and came from protocols and the tokens of both |
| ScoringMeaning.ManualExactly | packages/core/src/competition.ts:171-177 | a transaction counts as manual exactly when the autopilot did not fire it and it moved two different tokens inside |
| ScoringMeaning.OutsideMoneyIsNoProfit | packages/core/src/competition.ts:134-142 | a transfer from or to a classic account or smart wallet, or a mint, leaves the score and is counted at its worth as money in or out |
| ScoringMeaning.TheRestIsNothing | keeper/scripts/competition.ts:176-184 | a transfer to oneself or of an unlisted token changes neither totals nor score |
| ScoringWindows.IndexRun | keeper/scripts/competition.ts:164-216 | a run reads its stretch of ledgers, if any, and scores from those transfers at the prices it finds |
| ScoringWindows.EachTransferOnce | keeper/scripts/competition.ts:166-204 | over any runs without a gap each transfer up to the ledger reached is read exactly once |
| ScoringWindows.ThroughIsTheFurthest | keeper/scripts/competition.ts:167-168 | the runs get as far as the furthest latest ledger any of them saw, and not past the competition's end |
| ScoringWindows.RunsCountOnce | keeper/scripts/competition.ts:166-216 | over any runs without a gap, each at its own prices, the running totals (money in and out, edge, manual transactions, tokens) are those of one pass over all the ledgers, each transaction once at the prices of the run that read it; the opening value is fixed once |
| ScoringWindows.RunsAreOneRun | keeper/scripts/competition.ts:166-216 | at one set of prices they are the totals of a single run over those ledgers |
| ScoringRuns.PnlExactly | keeper/scripts/competition.ts:164-216 | for any transactions at equal prices the score changes by exactly their gains and the value of tokens read for the first time |
| ScoringRuns.HiddenIsRevealed | keeper/scripts/competition.ts:125-134 | the value a run starts to read is what was held of tokens seen for the first time |
| ScoringRuns.OneTxRisesExactly | packages/core/src/competition.ts:163-181 | for any one transaction, once all held was read: by how much the score after the run differs from the one before, and exactly when it is above |
| ScoringRuns.ScoreIsItsGains | keeper/scripts/competition.ts:164-216 | however many runs score them, the transactions change the score by their gains alone once all held was read |
| ScoringRuns.NoProfitAtConstantPrices | packages/core/src/competition.ts:192-195 | over any mix of outside money, lending and priced swaps the score changes by minus the swap losses plus the value first read |
| ScoringRuns.RevealedExactly | keeper/scripts/competition.ts:125-134 | without negative holdings or prices, value is first read exactly when a held, priced token that is not built in moves for the first time |
| ScoringRuns.RisesExactly | packages/core/src/competition.ts:192-195 | for any transactions the score rises if and only if the value first read exceeds what they lost; if they gained nothing, only with a token that shows up, and if they came out even, exactly then |
| ScoringRuns.NeverRisesWhenAllWasRead | packages/core/src/competition.ts:192-195 | over outside money, lending and priced swaps it never rises while every scored token held is one the indexer has read, and that stays so |
| ScoringRuns.NeverAboveADollar | keeper/scripts/competition.ts:206-215 | when every scored token held was read, from the first scoring through any number of such runs at its prices the score is never above a dollar |
| ScoringRuns.ProtocolPaymentIsProfit | packages/core/src/competition.ts:134-142 | a payment from a contract that is not a smart wallet raises the score by all of it |
| ScoringRuns.UnpricedSwapIsProfit | packages/core/src/competition.ts:178 | a swap of an unpriced token raises the score by all it buys |
| ScoringRuns.HiddenTokenIsProfit | keeper/scripts/competition.ts:125-134 | sending one unit of a token never read before adds the value of all of it |
| ScoringRuns.WithdrawSwapShiftsTheScore | packages/core/src/competition.ts:163-181 | a withdrawal swapped in one transaction lowers the score by all of it, a swap of idle USDC only by what the fill lost |
| Traction.GrownAdds | packages/core/src/traction.ts:158 | rounding the running volume at each swap is rounding each amount |
| Traction.ApplyEvents | packages/core/src/traction.ts:164-212 | the loop with its address index equals the fold over events, trimmed |
| Traction.ApplyLive | packages/core/src/traction.ts:218-226 | the live counts are set on every wallet, unknown addresses added |
| TractionReplay.TwiceIsOnce | packages/core/src/traction.ts:160-162 | a batch read twice changes nothing, at one price list |
| TractionReplay.SplitIsWhole | packages/core/src/traction.ts:160-162 | two runs at rising clocks leave what one run at the later clock leaves, trimmed hours included, at one price list |
| TractionReplay.OverlapCountsOnce | packages/core/src/traction.ts:160-162 | overlapping batches count shared events once, at one price list |
| TractionReplay.RunsCountEachEventOnce | packages/core/src/traction.ts:164-212 | however runs cut up or repeat the history, each at its own prices, the state is the one that counts every event read exactly once, at the prices of the first run that read it |
| TractionTotals.RunsCountTheEvents | packages/core/src/traction.ts:164-212 | after any such runs each wallet's counts and cents are the sums over its own events, each at the prices of the first run that read it |
| TractionRecords.RunsRecordTheEvents | packages/core/src/traction.ts:160-212 | after any runs: exactly the users with an event are listed, with their first save, last trade, kinds and ids; each day's cell is that day's events; the day and week trades are the fired events of those hours |
| TractionRecords.LiveCountsAre | packages/core/src/traction.ts:218-226 | the views' counts are set on everyone they mention, listed or new, and on nobody else |
| TractionTotals.AlwaysBalanced | packages/core/src/traction.ts:164-226 | in every reachable state, for any choice of wallets and any count, the day cells add up to the wallets, and the hours hold no more than the trades |
| TractionTotals.AlwaysWellKept | packages/core/src/traction.ts:164-226 | in every reachable state each address is listed once, trades are the sum of their kinds, and first saves fall on days that have a row |
| TractionSummary.Headline | packages/core/src/traction.ts:305-334 | the three headline counts are sums over the wallets and recent hours of their groups |
| TractionSummary.AllIsOrganicAndTeam | packages/core/src/traction.ts:305-334 | every additive count of everyone is the organic one plus the team's |
| TractionSummary.RecentTradesAreTrades | packages/core/src/traction.ts:320-329 | in every reachable state day trades are at most week trades, and those at most all trades |
| TractionSummary.Series | packages/core/src/traction.ts:347-376 | one row a day from the first day to today with each day's sums and new and cumulative users |
| TractionSummary.SeriesAddsUp | packages/core/src/traction.ts:347-376 | the days add up to the wallets' totals when nothing is dated after now |
| TractionSummary.LastDayCountsEveryUser | packages/core/src/traction.ts:351-376 | the last cumulative count is the wallets that saved an autopilot or have one live |
| TractionPage.HeadlineCountsUsers | packages/core/src/traction.ts:305-320 | the headline's users are the numbers of chosen wallets with an autopilot live now and with one ever saved |
| TractionPage.RowCountsUsers | packages/core/src/traction.ts:347-376 | a day's new, cumulative and active users are the numbers of chosen wallets that first saved that day, had by then, and traded on it |
| TractionPage.OrganicMeans | packages/core/src/traction.ts:228-242 | a wallet is organic exactly when it is not tagged, not a team bot and does not match the load test |

## Left out

- Authorization itself (`require_auth`, signatures, passkeys): calls are taken as authorized; what the policy then checks is modelled.
- Storage lifetimes, events, contract upgrade and the admin setters: they carry none of the properties. `Settings` is fixed in a run.
- XOXNO, the swap aggregator and the oracle: arbitrary functions and data, with an explicit assumption where a theorem needs one.
- A contract call's partial effects: a panic is one result for the whole transaction, so nothing inside a failed call is observable.
- Ledger 0: the router reads a stored 0 as "never fired", so the cooldown theorems speak of ledgers from 1 on.
- Address checksums and the symbol alphabet: an address is its text, and a contract id that fits the pattern is one.
- Codec.Decode: values that neither the encoder nor the contract's types produce are read in one particular way, not as every JavaScript conversion would.
- The descriptions `permissionsFor` returns: text only.
- The hash in an email's key is taken as injective, and lower case is that of the Latin letters a handle may have.
- Changing the cap between entries: the protocol's cap is fixed for a history.
- EntryProtocol.EntriesAreExclusive: speaks of histories that start with no verified entry; the runs of one wallet are one at a time, for the reason its partner lemma shows.
- Floating point: dollars, returns and prices are exact numbers, volumes are whole cents, rounding is half up as in the source.
- Ranking.Rank: returns are numbers or missing; an infinite or not-a-number return has no counterpart.
- Reading failures of the indexer (a balance that cannot be read counts as 0 for that run), flow and history lists, the Redis budget.
- The capital check, the flag reasons and the FX rule count: each follows from its one body.
- Scoring.IndexEntry: leaves out the units per token of outside money, the flag reasons, and the flow and history lists, which only the flags and the page read; tokens are named by contract id, to which the source's symbols are one to one.
- ScoringWindows.RunsCountOnce: the token list and the smart wallets are the same in every run; prices and holdings are each run's own.
- Event ids are numbers in their order; the source compares fixed-width strings, which order the same way.
- TractionRecords.RunsRecordTheEvents: a wallet's list of token symbols and the hash of its last trade are not part of it.
- TractionSummary.Headline: the ratio of trades to autopilots, the wallets created and the funnel are not part of it.
- TractionSummary.Series: the live snapshots per day and the sorted wallet table are not part of it.
- The web pages, prompts, keeper scheduling, the anchor flow and the other contracts.
