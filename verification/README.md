# DeathRun power and survival patches, modelled in Dafny

This project models two pieces of decision logic from the DeathRun mod for
Subnautica.

- **Power patches** (`DeathRun/Patchers/PowerPatcher.cs`):
  - The patches decide whether a power interface is in radiation.
  - They scale energy gained and energy spent by the `powerCosts` difficulty
    setting, by radiation, by whether the store is a base, and by four
    activity semaphores (crafting, filter, scanner, charging).
  - Each semaphore is raised by a prefix and lowered by a postfix around a
    fabricator, filtration, scanning or charging call.
  - When crafting from a base that holds less than the adjusted amount, the
    base prefix refuses the host call, so the stored power is not drained.
- **Survival patches** (`DeathRun/Patchers/SurvivalPatcher.cs`):
  - A First Aid Kit (`Survival.Use`) or a raw Boomerang (`Survival.Eat`)
    halves the nitrogen safe depth, or clears nitrogen.
  - Notices about this are throttled to one per 60 seconds.
  - A death after the first five minutes refills food and water only to
    `clamp(x * 0.9, 12, 90.5)`.

Modules:

- `Radiation`: locations, power interfaces, the radiation classifier.
- `Semaphores`: the flag record, the prefix/postfix pair, traces of hook calls.
- `PowerRules`: `AdjustAddEnergy` and `AdjustConsumeEnergy`.
- `PowerHooks`: the base, tool and vehicle hooks, the crafting veto, and a
  whole base consumption with the host's own call as a parameter.
- `Survival`: the Use, Eat and Reset hooks over an explicit state record.
- `Wrappers`: `Option`, standing in for a C# reference that may be null.

Each hook is a pure function from a state record to a new state record.
A prefix's boolean "run the original" result is an explicit field.

Inputs that the game supplies:

- the radiation geometry, as a predicate over locations;
- `Time.time` and the day-night clock, as reals;
- the power available at an interface;
- the item's tech type, as `Option<TechType>`, where `None` is a null object;
- the host's own `ConsumeEnergy`, `Use` and `Eat` results.

Messages are appended to a log.

Floats are modelled as `real`. The `powerCosts` string becomes
`Tier = Deathrun | Hard | Normal`, where `Normal` stands for every setting
other than DEATHRUN and HARD. A `BasePowerRelay` is a `PowerRelay` whose
`isBaseRelay` is set.

Two facts about the code shape what the model claims:

- The semaphore postfixes at `PowerPatcher.cs:206-249` are ordinary
  postfixes, not finalizers. A host call that throws leaves its semaphore
  raised, so the model only claims lowering for a call that returns.
- `__result` at `PowerPatcher.cs:134` is passed by value, so the assignment
  at line 145 has no effect. A vetoed call skips the original and reports
  false.

## Model

| member | source | states |
|---|---|---|
| Radiation.GetTransform | DeathRun/Patchers/PowerPatcher.cs:32-48 | A location exists exactly for battery sources, power sources and relays, and it is that interface's own location. |
| Radiation.IsTransformInRadiation | DeathRun/Patchers/PowerPatcher.cs:53-57 | A missing location is never in radiation. A present one is in radiation exactly when the host's test says so. |
| Radiation.IsPowerInRadiation | DeathRun/Patchers/PowerPatcher.cs:62-65 | An interface of any other kind is never in radiation. Otherwise the result is the host's test at its location. |
| PowerRules.AdjustAddEnergy | DeathRun/Patchers/PowerPatcher.cs:71-94 | Gain is divided by 4 (DEATHRUN) or 3 (HARD) in radiation, and by 3 or 2 outside it. Any other tier gains the full amount. |
| PowerRules.AdjustConsumeEnergy | DeathRun/Patchers/PowerPatcher.cs:100-127 | In radiation, cost is ×5 (DEATHRUN) or ×3 (HARD). Outside radiation, in a base or with any semaphore raised, it is ×3 or ×2. Otherwise it is unchanged, and any other tier always pays the request. |
| PowerRules.RadiationDominates | DeathRun/Patchers/PowerPatcher.cs:102-112 | In radiation the cost does not depend on the base flag or on the semaphores. |
| PowerRules.ElevatedGatesConsumption | DeathRun/Patchers/PowerPatcher.cs:113-126 | Outside radiation, a nonzero request is changed iff (base or a semaphore is raised) and the tier is DEATHRUN or HARD. |
| PowerRules.RadiationNeverHelps | DeathRun/Patchers/PowerPatcher.cs:71-127 | For a nonnegative amount, radiation never raises gain and never lowers cost. |
| PowerRules.TiersAreOrdered | DeathRun/Patchers/PowerPatcher.cs:71-127 | For a nonnegative amount, DEATHRUN gains least and pays most, HARD is in between, and any other tier gains most and pays least. |
| PowerRules.RulesAreLinear | DeathRun/Patchers/PowerPatcher.cs:71-127 | Both rules are proportional: scaling the request by k scales the result by k. |
| PowerRules.RaisingNeverLowersCost | DeathRun/Patchers/PowerPatcher.cs:113-126 | Raising any activity semaphore never lowers the cost of a nonnegative request. |
| Semaphores.AnyRaisedIsSomeActivity | DeathRun/Patchers/PowerPatcher.cs:113-114 | The elevated test on the four semaphores holds exactly when some activity's semaphore is raised. |
| Semaphores.ActivityPrefix | DeathRun/Patchers/PowerPatcher.cs:199-243 | An activity prefix always lets the host run. It raises that activity's semaphore, and the cost context becomes elevated. No other semaphore changes. |
| Semaphores.ActivityPostfix | DeathRun/Patchers/PowerPatcher.cs:206-249 | An activity postfix lowers that activity's semaphore. No other semaphore changes. |
| Semaphores.PairRestores | DeathRun/Patchers/PowerPatcher.cs:199-249 | A prefix followed by its postfix, starting from a lowered semaphore, gives back exactly the starting flags. |
| Semaphores.RunLastTouch | DeathRun/Patchers/PowerPatcher.cs:199-249 | After any trace of hook calls, a semaphore is raised iff the last call on its activity was the prefix. If no call touched it, it keeps its starting value. |
| Semaphores.BalancedReturnsToLowered | DeathRun/Patchers/PowerPatcher.cs:199-249 | Start with every semaphore lowered and run a trace where each prefix is followed later by its postfix. However the activities nest or overlap, every semaphore ends lowered. |
| PowerHooks.ConsumeEnergyBase | DeathRun/Patchers/PowerPatcher.cs:134-150 | The amount is adjusted, and only a base relay counts as a base. The host call is skipped iff crafting and the stored power is below the adjusted amount. In that case exactly one "Not Enough Power" message is logged; otherwise the log is unchanged. |
| PowerHooks.AddEnergyBase | DeathRun/Patchers/PowerPatcher.cs:156-159 | Gain at a base is judged by the base's own location; none means no radiation. A nonnegative gain is never increased. |
| PowerHooks.ConsumeEnergyMobile | DeathRun/Patchers/PowerPatcher.cs:165-186 | A tool's cost is judged at the player and a vehicle's at the vehicle, never as a base. With no radiation and no semaphore it is the request. It never falls below a nonnegative request. |
| PowerHooks.AddEnergyMobile | DeathRun/Patchers/PowerPatcher.cs:174-195 | A tool's gain is judged by radiation at the player and a vehicle's at the vehicle. It is never more than a nonnegative request. |
| PowerHooks.NoTransformNoRadiation | DeathRun/Patchers/PowerPatcher.cs:32-65 | An interface with no location takes the non-radiation branch of both rules, and it is not a base. |
| PowerHooks.OnlyBaseRelaysAreBases | DeathRun/Patchers/PowerPatcher.cs:134-186 | Tools, vehicles, battery sources, power sources and non-base relays at one place pay the same. With no radiation and no semaphore they pay the request, while a base relay pays more under DEATHRUN or HARD. |
| PowerHooks.ConsumeOnBase | DeathRun/Patchers/PowerPatcher.cs:134-150 | A vetoed consumption reports failure, leaves the stored power untouched and logs one message. Any other consumption is the host's call with the adjusted amount. |
| PowerHooks.ConsumeForCrafting | DeathRun/Patchers/PowerPatcher.cs:134-210 | A fabricator's consumption always pays the elevated or radiation price. It is refused iff the relay holds less than that price; then the power is kept and exactly one "Not Enough Power" message is logged. Otherwise it is the host's call with that price and the log is unchanged. Afterwards crafting is lowered and the other semaphores are as before. |
| PowerHooks.VetoKeepsPower | DeathRun/Patchers/PowerPatcher.cs:138-147 | With 4 units stored and a request that DEATHRUN turns into 15, the craft fails, the 4 units remain, and one message is logged. |
| PowerHooks.NormalRequestPassesThrough | DeathRun/Patchers/PowerPatcher.cs:134-150 | A request of 1 at the Normal tier, outside radiation and any activity, goes to the host unchanged. |
| Survival.UsePrefix | DeathRun/Patchers/SurvivalPatcher.cs:24-63 | The Use prefix always lets the host run. The semaphore is set iff the kit changed the safe depth or nitrogen. A kit above depth 10 halves it and pins nitrogen to 10× a depth below 10. A kit at or below 10 clears positive nitrogen. Any other item or null only clears the semaphore. A notice is shown iff more than 60 s have passed, and only then is the Use clock moved. |
| Survival.EatPrefix | DeathRun/Patchers/SurvivalPatcher.cs:83-109 | The Eat prefix always lets the host run and changes no modelled state. |
| Survival.UsePostfix | DeathRun/Patchers/SurvivalPatcher.cs:66-73 | The result is forced to true when the semaphore is set; otherwise the host's result stands. |
| Survival.UseItem | DeathRun/Patchers/SurvivalPatcher.cs:24-73 | A whole Use call reports success iff the host did or the kit changed the nitrogen state. Its state is exactly the Use prefix's; any other item leaves everything but the semaphore alone. |
| Survival.EatPostfix | DeathRun/Patchers/SurvivalPatcher.cs:111-142 | Only a successfully eaten Boomerang or Lava Boomerang acts. It applies the same halving rule, and at or below depth 10 it zeroes nitrogen unconditionally, with its own 60 s notice clock. |
| Survival.EatItem | DeathRun/Patchers/SurvivalPatcher.cs:83-142 | Eating never changes the host's result. Its state is exactly the Eat postfix's (the Boomerang purge), and a failed eat changes nothing. |
| Survival.ResetPrefix | DeathRun/Patchers/SurvivalPatcher.cs:152-162 | After the first 300 s of a started game, the respawn refill is skipped. Food and water become clamp(x·0.9, 12, 90.5), so both lie in [12, 90.5], and nothing else changes. Otherwise the prefix changes nothing and the game's own Reset runs. |
| Survival.RefillIsNoBonus | DeathRun/Patchers/SurvivalPatcher.cs:149-162 | The reduced refill never exceeds the old value, or 12 if that is higher. Within range it is exactly 90% of the old value. |
| Survival.UseNoticeThrottled | DeathRun/Patchers/SurvivalPatcher.cs:41-45 | Two Use calls at most 60 s apart show at most one notice. |
| Survival.EatNoticeThrottled | DeathRun/Patchers/SurvivalPatcher.cs:125-129 | Two Eat calls at most 60 s apart show at most one notice. |
| Survival.ThrottlesAreSeparate | DeathRun/Patchers/SurvivalPatcher.cs:21-81 | The Use and Eat patches keep separate notice clocks: neither hook moves the other's clock. |
| Survival.ReplayNeverRaisesSafeDepth | DeathRun/Patchers/SurvivalPatcher.cs:36-59 | Over any sequence of Use, Eat and Reset calls, from any state, the safe depth never rises. |
| Survival.ReplayKeepsNitrogenSane | DeathRun/Patchers/SurvivalPatcher.cs:36-59 | Over any sequence of calls, a nonnegative safe depth and nitrogen level stay nonnegative. |
| Survival.ReplayQuietWithinInterval | DeathRun/Patchers/SurvivalPatcher.cs:41-45 | Take any sequence of calls where every Use and Eat comes at most 60 s after both notice clocks. It shows no notice and moves neither clock. |
| Survival.NoNoticeInFirstMinute | DeathRun/Patchers/SurvivalPatcher.cs:21-22 | Both notice clocks start at 0 and the semaphore starts lowered. So no notice appears while every Use and Eat call comes at clock time 60 s or earlier. |
| Survival.ItemsLeaveFoodAndWater | DeathRun/Patchers/SurvivalPatcher.cs:24-142 | The Use and Eat patches never change food or water; among the patches, only the death reset does. |

## Left out

- The method-interception framework itself: hooks are functions over explicit records, and a whole host call is their composition.
- Exceptions: a host call that throws between a prefix and its postfix leaves its semaphore raised in the code. The model covers only calls that return.
- The radiation geometry and the Unity objects (`Transform`, `Player`, the `NitrogenLevel` component lookup) are inputs. The `NitrogenLevel` component is assumed present, where the code would throw on a missing one.
- IEEE float rounding: all quantities are `real`.
- The Eat prefix's vegan, vegetarian and pescatarian messages are UI only. `Survival.EatPrefix` keeps only its "run the original" result.
- `DeathRun/Items/PhotosynthesisSmallTank.cs`: a static recipe registration with no behaviour of its own.
- `BiomeHUDIndicator/Main.cs`: asset-bundle loading and bootstrap glue.
- The host's own `ConsumeEnergy`, `Use` and `Eat` are parameters. Their results are not modelled.
- Survival.Apply: treats the game's own Reset refill (when the prefix lets it run) and the food and water that the game's own Eat adds as no change to food or water, because those host routines are not part of this model; replay lemmas about food and water speak of the patches only.
