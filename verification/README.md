# Wheel game control logic in Dafny

This project models the gameplay core of a spin-to-advance wheel game. The player spins a wheel to collect rewards and climb numbered zones. Multiples of 5 that are not multiples of 30 are *safe* zones, and multiples of 30 are *super* zones; both allow cashing out. A bomb slice loses everything not yet collected. The model covers:

- the zone counter and its classification (`Zones`);
- the cash-out risk policy (`Risk`);
- the bank total and the itemised inventory (`Bank`, `Inventory`);
- the cyclic slice shift (`Shift`);
- the tier-template wheel factory and its reward-scaling modifier (`WheelFactory`);
- the HUD presenter's command bindings and press handlers (`Hud`);
- the five-state round controller (`StateMachine`).

`WheelData` holds the slice and wheel types. `CSharpArith` holds C#'s truncating `/` and `%`.

Objects that the source updates in place are classes with `modifies` clauses: `ZoneService`, `RewardBank`, `RewardInventory`, `WheelConfigFactory`, `HUDPresenter` and `GameStateMachine`. Their specifications are pure functions, predicates and two-state predicates, and lemmas prove the source's properties about those functions. Templates and configs are immutable values, so the Unity clone in `BuildFor` is a value copy and no modifier can reach a template. The wheel view is reduced to the config it shows and whether its last swap was animated. The HUD view is reduced to five things: whether the spin and exit buttons are interactable, whether the fail view is shown, the inventory it last rendered, the keys of the image map that rendering filled, and a ghost log of notifications. The source has two asynchronous continuations: the spin-completion callback and the 0.25 s deferred entry into Ready. Each is a queue of pending steps. The environment fires them with `CompleteSpin` and `FireDeferredReady`, at any time and in any order. Neither checks which state is current, because the source does not. The random draw is a nondeterministic choice of an index in `[0, |slices|)`.

Behaviour of the code that the model makes explicit:

- Tier scaling is linear and uncapped: a value is multiplied by `1 + floor((zone-1)/5) * 0.15` and rounded. Zone 6 turns 100 into 115 (`LinearUncapped`).
- `ZoneService.Reset` notifies `ZoneChanged`. Only the `OnEnable` initialisation is silent.
- The slices are never rotated before a draw. Every `SpinningState` is new, with `rotationValue = 0`, so the shift is 0 (`FreshSpinningNeverShifts`).
- `OnStop` re-enables both buttons before Ready is queued. `SetButtonsEnabled(true)` also overrides the cash-out visibility that `ShowTotals` set just before, because both write the exit button's `interactable`. So the exit button stays clickable in an ordinary zone until Ready is entered. The press handler's zone test still blocks the command.
- The states never consult `RiskPolicy`. They test `IsSafeZone || IsSuperZone` directly. `StandardPolicyIsMultipleOfFive` shows that the two tests agree.
- The deferred callback first looks up the flight's target by the slice's trimmed id in the inventory view's image map, whose keys are the trimmed ids of the rendered entries. A null id always makes that lookup throw. A Multiplier slice, which is never filed, and a Reward with an empty id, filed under `"_anon"`, make it throw unless some other key trims to the same string. When it throws, Ready is not entered (`FireDeferredReady`, `EmptyIdFlowMisses`, `MultiplierFlowMisses`, `NullIdFlowThrows`).
- Entering Idle, including through a cash-out or a give-up, renders the empty inventory and so empties the image map. A deferred callback that fires before the inventory is rendered again throws at its lookup whatever the slice, and Ready is not entered (`IdleEntered`, `EmptyMapFlowThrows`). If a new spin's prize renders the inventory first, the pending callback looks up the new map instead. The source's 0.25 s delay is far shorter than the default `spinDuration` of 2.5 s, so with that default the other order does not occur. The model keeps no timing, so it admits both orders.

## Model

| member | source | states |
|---|---|---|
| `CSharpArith.CsRem` | Assets/Scripts/Core/Game/ZoneService.cs:15-16 | C#'s `%`: `a == CsDiv(a,b)*b + r`, and the remainder takes the sign of `a` with magnitude below `|b|` |
| `CSharpArith.CsRemZeroIffDivides` | Assets/Scripts/Core/Game/ZoneService.cs:15-16 | a zero C# remainder is exactly divisibility, for negative operands too |
| `CSharpString.TrimStart` | Assets/Scripts/UI/HUDPresenter.cs:105 | `TrimStart()`: no longer than the input, and empty or starting with a non-white-space character |
| `CSharpString.TrimStartIsSuffix` | Assets/Scripts/UI/HUDPresenter.cs:105 | `TrimStart()` returns a suffix of the input |
| `CSharpString.TrimStartDropsWhiteSpace` | Assets/Scripts/UI/HUDPresenter.cs:105 | every character `TrimStart()` drops is white space |
| `CSharpString.TrimEnd` | Assets/Scripts/UI/HUDPresenter.cs:105 | `TrimEnd()`: no longer than the input, and empty or ending with a non-white-space character |
| `CSharpString.TrimEndIsPrefix` | Assets/Scripts/UI/HUDPresenter.cs:105 | `TrimEnd()` returns a prefix of the input |
| `CSharpString.TrimEndDropsWhiteSpace` | Assets/Scripts/UI/HUDPresenter.cs:105 | every character `TrimEnd()` drops is white space |
| `CSharpString.Trim` | Assets/Scripts/UI/InventoryView.cs:29 | `Trim()`: `TrimStart` then `TrimEnd` |
| `CSharpString.TrimEnds` | Assets/Scripts/UI/InventoryView.cs:29 | a non-empty trimmed string neither starts nor ends with white space |
| `CSharpString.TrimOfTrimmed` | Assets/Scripts/UI/InventoryView.cs:29 | a string that neither starts nor ends with white space is its own trim |
| `CSharpString.TrimIdempotent` | Assets/Scripts/UI/HUDPresenter.cs:105 | trimming an already trimmed key changes nothing |
| `Zones.IsSafeZone` | Assets/Scripts/Core/Game/ZoneService.cs:15 | `zone % 5 == 0 && zone % 30 != 0` with C#'s `%`; characterised by `ClassificationByDivisibility` |
| `Zones.IsSuperZone` | Assets/Scripts/Core/Game/ZoneService.cs:16 | `zone % 30 == 0` with C#'s `%`; characterised by `ClassificationByDivisibility` |
| `Zones.ClassificationByDivisibility` | Assets/Scripts/Core/Game/ZoneService.cs:15-16 | super iff `z % 30 == 0`; safe iff `z % 5 == 0 && z % 30 != 0`; no zone is both |
| `Zones.CashOutZoneIffMultipleOfFive` | Assets/Scripts/Core/Game/ZoneService.cs:15-16 | safe-or-super is exactly the multiples of 5 |
| `Zones.NextMultipleOf` | Assets/Scripts/Core/Game/ZoneService.cs:36-41 | with `from` clamped to ≥ 1: the result is a multiple of `n`, ≥ `from` (> when strict), and no multiple lies between `from` (exclusive when strict) and it |
| `Zones.GetNextSafeZone` | Assets/Scripts/Core/Game/ZoneService.cs:26-29 | a multiple of 5, ≥ 1, ≥ / > `fromZone` by the flag, and safe or super |
| `Zones.GetNextSuperZone` | Assets/Scripts/Core/Game/ZoneService.cs:31-34 | a multiple of 30, ≥ 1, ≥ / > `fromZone` by the flag, and super |
| `Zones.NextSafeAfter29IsSuper` | Assets/Scripts/Core/Game/ZoneService.cs:26-29 | next safe after 29 is 30, a super and not a safe zone; next safe from 5 (non-strict) is 5 |
| `Zones.ZoneService.constructor` | Assets/Scripts/Core/Game/ZoneService.cs:13 | `OnEnable` sets the zone to `max(1,startZone)` without notifying |
| `Zones.ZoneService.SetCurrent` | Assets/Scripts/Core/Game/ZoneService.cs:20-24 | zone becomes `max(1,x)`, so it stays ≥ 1; observers get the updated value iff `notify` |
| `Zones.ZoneService.Advance` | Assets/Scripts/Core/Game/ZoneService.cs:17 | from z ≥ 1 the zone becomes z+1 and `ZoneChanged(z+1)` fires |
| `Zones.ZoneService.Reset` | Assets/Scripts/Core/Game/ZoneService.cs:18 | zone becomes `max(1,startZone)` and `ZoneChanged` does fire |
| `Risk.RiskStrategy.Applies` | Assets/Scripts/Core/Risk/RiskPolicy.cs:10-23 | the safe strategy applies at safe zones, the super strategy at super zones, the default strategy elsewhere; `StrategiesPartitionZones` shows exactly one applies |
| `Risk.RiskPolicy.IsSafe` | Assets/Scripts/Core/Risk/RiskPolicy.cs:36 | the safe or the super strategy applies; `NormalNeverConsulted` and `StandardPolicyIsMultipleOfFive` state what that means |
| `Risk.NormalNeverConsulted` | Assets/Scripts/Core/Risk/RiskPolicy.cs:27-36 | swapping the `normal` strategy never changes `IsSafe` |
| `Risk.StandardPolicyIsMultipleOfFive` | Assets/Scripts/Core/Risk/RiskPolicy.cs:10-36 | with the installed strategies `IsSafe(z) <==> z % 5 == 0`, and it equals the states' direct safe-or-super test |
| `Risk.DefaultIsComplement` | Assets/Scripts/Core/Risk/RiskPolicy.cs:20-23 | the default strategy applies exactly where the policy refuses cash-out |
| `Risk.StrategiesPartitionZones` | Assets/Scripts/Core/Risk/RiskPolicy.cs:10-23 | exactly one of the three standard strategies applies to any zone |
| `Bank.Applied` | Assets/Scripts/Systems/RewardBank.cs:9-16 | the total after one `Apply`; its cases are stated by `AppliedByKind` |
| `Bank.AppliedByKind` | Assets/Scripts/Systems/RewardBank.cs:9-16 | Reward adds its value; Multiplier multiplies by the value when > 1 and is the identity when ≤ 1; Bomb changes nothing |
| `Bank.NonNegativeStaysNonNegative` | Assets/Scripts/Systems/RewardBank.cs:13-14 | from a total ≥ 0, any sequence of non-negative slices keeps it ≥ 0 |
| `Bank.RewardsCommute` | Assets/Scripts/Systems/RewardBank.cs:13 | two Reward applications commute |
| `Bank.MultiplierDoesNotCommuteWithReward` | Assets/Scripts/Systems/RewardBank.cs:13-14 | Reward 10 then ×2 gives 20, ×2 then Reward 10 gives 10 |
| `Bank.RewardBank.constructor` | Assets/Scripts/Systems/RewardBank.cs:8 | a new bank's total is 0 |
| `Bank.RewardBank.Apply` | Assets/Scripts/Systems/RewardBank.cs:9-16 | the new total is `Applied(old total, slice)` |
| `Bank.RewardBank.Reset` | Assets/Scripts/Systems/RewardBank.cs:17 | the total becomes 0 |
| `Inventory.KeyOf` | Assets/Scripts/Systems/RewardInventory.cs:23 | a null or empty id files under `"_anon"`, any other id verbatim |
| `Inventory.AddTo` | Assets/Scripts/Systems/RewardInventory.cs:20-28 | the dictionary after one `Add`; its effect is stated by `AddToEffect` |
| `Inventory.AddToEffect` | Assets/Scripts/Systems/RewardInventory.cs:20-28 | non-Reward slices leave the map unchanged; a Reward adds exactly its value to its key's count, creates `Id == key, Count == value` on first use, keeps the icon unless the new one is non-null, and touches no other key |
| `Inventory.TallyContents` | Assets/Scripts/Systems/RewardInventory.cs:20-31 | the map has a key iff a Reward was filed under it since the last reset; its entry has that id, the sum of those values and the last non-null icon |
| `Inventory.TallyKeyed` | Assets/Scripts/Systems/RewardInventory.cs:20-31 | every entry of the dictionary is filed under its own id and holds that key's history |
| `Inventory.SnapshotOfEmpty` | Assets/Scripts/Systems/RewardInventory.cs:30-31 | the snapshot of an emptied inventory is empty |
| `Inventory.SnapshotCovers` | Assets/Scripts/Systems/RewardInventory.cs:31 | a snapshot leaves no key out: its ids are exactly the dictionary's keys |
| `Inventory.ListEntries` | Assets/Scripts/Systems/RewardInventory.cs:31 | listing a dictionary's values gives each entry exactly once: as many items as keys, distinct ids, each equal to its key's entry |
| `Inventory.RewardInventory.constructor` | Assets/Scripts/Systems/RewardInventory.cs:10 | a new inventory is empty and consistent with an empty history |
| `Inventory.RewardInventory.Add` | Assets/Scripts/Systems/RewardInventory.cs:20-28 | the map becomes `AddTo(old map, slice)` and stays the tally of the history |
| `Inventory.RewardInventory.Reset` | Assets/Scripts/Systems/RewardInventory.cs:30 | the map and the history become empty |
| `Inventory.RewardInventory.Snapshot` | Assets/Scripts/Systems/RewardInventory.cs:31 | one entry per key, each equal to the map's entry, with distinct ids (so every key is listed, by `SnapshotCovers`), each count the sum of that key's Rewards since the last reset |
| `Shift.Normalize` | Assets/Scripts/Infra/Utils.cs:11 | `((n % len) + len) % len` with C#'s `%` lies in `[0,len)` and equals the Euclidean `n % len` |
| `Shift.Shifted` | Assets/Scripts/Infra/Utils.cs:11-22 | the cyclic shift by `n`; its meaning is stated by `ShiftedAt`, `ShiftedRoundTrip` and `ShiftedIsPermutation` |
| `Shift.ShiftedAt` | Assets/Scripts/Infra/Utils.cs:16-20 | element i of the input is at position `(i + n) mod len` of the result |
| `Shift.ShiftedPeriodic` | Assets/Scripts/Infra/Utils.cs:11 | shifting by `n` and by `n + k*len` agree, for every `k` and negative `n` |
| `Shift.ShiftedRoundTrip` | Assets/Scripts/Infra/Utils.cs:11-22 | shifting by `n` then by `-n` restores the sequence |
| `Shift.ShiftedIsPermutation` | Assets/Scripts/Infra/Utils.cs:16-20 | the result has the same multiset of elements |
| `Shift.ShiftArray` | Assets/Scripts/Infra/Utils.cs:5-23 | a null or empty array, or a shift that normalises to 0, returns the argument itself; otherwise a fresh array holding `Shifted(a, n)` |
| `WheelFactory.RoundHalfEven` | Assets/Scripts/Core/Wheel/WheelConfigFactory.cs:80 | `Mathf.RoundToInt` on an exact quotient: the nearest integer, ties to even |
| `WheelFactory.RoundExact` | Assets/Scripts/Core/Wheel/WheelConfigFactory.cs:80 | rounding an integer-valued quotient returns it |
| `WheelFactory.Modifier.Tier` | Assets/Scripts/Core/Wheel/WheelConfigFactory.cs:74 | `floor((zone - 1) / tierSpan)` |
| `WheelFactory.Modifier.ScaledValue` | Assets/Scripts/Core/Wheel/WheelConfigFactory.cs:74-80 | `RoundToInt(value * (1 + Tier(zone) * step))` on the exact product; `FirstTierUnscaled` and `LinearUncapped` state its values |
| `WheelFactory.Modifier.ScaleSlice` | Assets/Scripts/Core/Wheel/WheelConfigFactory.cs:77-82 | id, kind and icon are kept; Bomb slices are untouched |
| `WheelFactory.Modifier.Scaled` | Assets/Scripts/Core/Wheel/WheelConfigFactory.cs:72-84 | the config after one modifier's `Apply`; `ApplyModifier` is proved to compute it |
| `WheelFactory.ApplyModifier` | Assets/Scripts/Core/Wheel/WheelConfigFactory.cs:72-84 | same slice count and order and all other config fields kept; slice i becomes `ScaleSlice(zone, slice i)` |
| `WheelFactory.ApplyChain` | Assets/Scripts/Core/Wheel/WheelConfigFactory.cs:50-57 | the modifiers run in the order added; `BuildFor` is proved to compute it and `DefaultChainScalesOnce` states its result for the installed chain |
| `WheelFactory.TierFor` | Assets/Scripts/Core/Wheel/WheelConfigFactory.cs:34-48 | the if-chain's template choice; characterised by `TierByDivisibility` |
| `WheelFactory.TierByDivisibility` | Assets/Scripts/Core/Wheel/WheelConfigFactory.cs:34-48 | Gold iff multiple of 30, Silver iff multiple of 5 but not 30, Bronze otherwise; zone 5 → Silver, 30 → Gold, 1 → Bronze |
| `WheelFactory.WheelConfigFactory.constructor` | Assets/Scripts/Core/Wheel/WheelConfigFactory.cs:18-21 | holds the three templates and no modifiers |
| `WheelFactory.WheelConfigFactory.AddModifier` | Assets/Scripts/Core/Wheel/WheelConfigFactory.cs:23-27 | appends the modifier at the end and returns the factory itself |
| `WheelFactory.WheelConfigFactory.BuildFor` | Assets/Scripts/Core/Wheel/WheelConfigFactory.cs:29-58 | the result is the current zone's tier template with every modifier applied once, in the order added; it changes nothing, so repeated builds at a zone are equal |
| `WheelFactory.DefaultChainScalesOnce` | Assets/Scripts/Core/Wheel/WheelConfigFactory.cs:50-57 | with the installed chain, each slice of a build is its template slice scaled exactly once |
| `WheelFactory.FirstTierUnscaled` | Assets/Scripts/Core/Wheel/WheelConfigFactory.cs:66-74 | zones 1–5 leave every value unchanged (`mul = 1`) |
| `WheelFactory.LinearUncapped` | Assets/Scripts/Core/Wheel/WheelConfigFactory.cs:74-81 | at zone `5k+1` a value of 100 becomes `100 + 15k` for every k, with no cap; at zone 6 it is 115 |
| `WheelFactory.ScalingTwiceCompounds` | Assets/Scripts/Core/Wheel/WheelConfigFactory.cs:50-56 | rescaling a scaled copy at zone 6 would give 132, not 115 |
| `Hud.RenderedKeys` | Assets/Scripts/UI/InventoryView.cs:20-29 | the image map's keys after a render: exactly the trimmed ids of the rendered entries |
| `Hud.FlowLookup` | Assets/Scripts/UI/HUDPresenter.cs:105 | `imageRefMap[id.Trim()]`: a null id throws NullReference, an id whose trim is no key throws KeyNotFound |
| `Hud.RenderedSnapshot` | Assets/Scripts/UI/InventoryView.cs:20-29 | rendering an inventory snapshot fills the image map with exactly the trimmed keys of the inventory |
| `Hud.FlowLookupBySnapshot` | Assets/Scripts/UI/HUDPresenter.cs:105 | against a rendered snapshot, the lookup succeeds iff the id is not null and trims to the trim of some inventory key; a null id throws |
| `Hud.FlowFindsAddedReward` | Assets/Scripts/UI/HUDPresenter.cs:105 | after adding a Reward with a non-empty id and rendering the snapshot, its lookup succeeds |
| `Hud.EmptyIdKeepsKeysNonBlank` | Assets/Scripts/Systems/RewardInventory.cs:23 | filing a Reward with id `""` adds only `"_anon"`, so no key trims to `""` if none did before |
| `Hud.EmptyIdFlowMisses` | Assets/Scripts/Systems/RewardInventory.cs:23 | a Reward with id `""` is filed under `"_anon"`, so its lookup of `""` throws KeyNotFound unless an earlier key trims to `""` |
| `Hud.MultiplierFlowMisses` | Assets/Scripts/Systems/RewardInventory.cs:22 | a Multiplier is never filed, so its lookup throws KeyNotFound unless some key trims like its id |
| `Hud.NullIdFlowThrows` | Assets/Scripts/UI/HUDPresenter.cs:105 | a null id throws NullReference |
| `Hud.EmptyMapFlowThrows` | Assets/Scripts/UI/HUDPresenter.cs:105 | against an empty image map every lookup throws: KeyNotFound for any id, NullReference for a null one |
| `Hud.FlowIgnoresSurroundingWhiteSpace` | Assets/Scripts/UI/HUDPresenter.cs:105 | trimming the slice's id beforehand never changes the lookup's outcome |
| `Hud.HUDPresenter.constructor` | Assets/Scripts/UI/HUDPresenter.cs:61-65 | no command and no zone service bound, and the image map is empty |
| `Hud.HUDPresenter.Bind` | Assets/Scripts/UI/HUDPresenter.cs:67-73 | replaces all three commands and the zone reference at once |
| `Hud.HUDPresenter.ShowTotals` | Assets/Scripts/UI/HUDPresenter.cs:75-78 | cash-out visibility becomes exactly `canCashOut`; the zone is ignored |
| `Hud.HUDPresenter.ShowInventory` | Assets/Scripts/UI/HUDPresenter.cs:80-83 | the view renders exactly the given entries, and the image map is rebuilt from them (`RenderedKeys`) |
| `Hud.HUDPresenter.SetButtonsEnabled` | Assets/Scripts/UI/HUDPresenter.cs:85 | spin and exit buttons both become `on` |
| `Hud.HUDPresenter.NotifyLost` | Assets/Scripts/UI/HUDPresenter.cs:87-91 | the fail view is shown |
| `Hud.HUDPresenter.NotifyRestart` | Assets/Scripts/UI/HUDPresenter.cs:93-98 | both buttons enabled, fail view hidden |
| `Hud.HUDPresenter.NotifyCollected` | Assets/Scripts/UI/HUDPresenter.cs:100-101 | the showcase receives a snapshot of the inventory as it is at the call |
| `Hud.HUDPresenter.NotifyRewardFlowAnimation` | Assets/Scripts/UI/HUDPresenter.cs:103-107 | the outcome is `FlowLookup` of the slice in the image map; the reward flight is recorded only when the lookup succeeds |
| `Hud.HUDPresenter.OnSpinPressed` | Assets/Scripts/UI/HUDPresenter.cs:109-112 | the bound spin command's action runs; nothing runs when none is bound |
| `Hud.HUDPresenter.OnCashOutPressed` | Assets/Scripts/UI/HUDPresenter.cs:114-118 | the cash-out action runs iff a zone service is bound, its zone is safe or super and a command is bound |
| `Hud.HUDPresenter.OnGiveUpPressed` | Assets/Scripts/UI/HUDPresenter.cs:120-123 | the bound give-up command's action runs; nothing runs when none is bound |
| `StateMachine.Create` | Assets/Scripts/Core/State/GameStateMachine.cs:56-69 | a state of the requested type for the five known types, NotSupported for any other; a Spinning state gets the passed config and rotation 0 |
| `StateMachine.TruncateToInt` | Assets/Scripts/Core/State/GameStateMachine.cs:195 | C#'s `(int)` cast of a float: truncation toward zero |
| `StateMachine.FreshSpinningNeverShifts` | Assets/Scripts/Core/State/GameStateMachine.cs:169-195 | a created Spinning state's shift `(int)(rotationValue/45)` is 0 and leaves the slice order unchanged |
| `StateMachine.RotateSlices` | Assets/Scripts/Core/State/GameStateMachine.cs:194-195 | the config comes back with its slices `Shifted` by `(int)(rotation/45)`, every other field kept, the same multiset of slices |
| `StateMachine.GameStateMachine.constructor` | Assets/Scripts/Core/State/GameStateMachine.cs:33-45 | holds the services; no state is current |
| `StateMachine.GameStateMachine.ExitCurrent` | Assets/Scripts/Core/State/GameStateMachine.cs:257-260 | leaving Lost notifies the restart; every other Exit does nothing |
| `StateMachine.GameStateMachine.ResetAccounts` | Assets/Scripts/Core/State/GameStateMachine.cs:96-98 | zone back to `max(1,startZone)` with a notification, bank 0, inventory empty |
| `StateMachine.GameStateMachine.ShowAccounts` | Assets/Scripts/Core/State/GameStateMachine.cs:99-100 | cash-out shown iff the zone is safe or super, and the inventory view shows a snapshot of the inventory, its image map rebuilt from that snapshot |
| `StateMachine.GameStateMachine.ShowWheel` | Assets/Scripts/Core/State/GameStateMachine.cs:141-151 | the wheel shows the config built for the current zone, and the three commands are bound, the spin command passing that config on only for Ready |
| `StateMachine.GameStateMachine.EnterIdle` | Assets/Scripts/Core/State/GameStateMachine.cs:94-108 | zone reset (notified), bank 0, inventory empty, cash-out shown iff the reset zone is safe or super, the empty inventory shown and the image map emptied, wheel built for that zone, commands bound with a config-less spin |
| `StateMachine.GameStateMachine.EnterReady` | Assets/Scripts/Core/State/GameStateMachine.cs:139-152 | cash-out shown iff zone safe or super, the inventory snapshot shown and the image map rebuilt from it, wheel rebuilt, swap animated iff this or the previous zone is safe or super, spin bound to Ready's config |
| `StateMachine.GameStateMachine.EnterSpinning` | Assets/Scripts/Core/State/GameStateMachine.cs:185-199 | buttons disabled, config built only if none passed, slices shifted by `(int)(rotation/45)`, index drawn in `[0,|slices|)` and its completion queued; an empty wheel fails |
| `StateMachine.GameStateMachine.EnterLost` | Assets/Scripts/Core/State/GameStateMachine.cs:252-255 | the fail view is shown |
| `StateMachine.GameStateMachine.EnterCollected` | Assets/Scripts/Core/State/GameStateMachine.cs:281-288 | the showcase gets the inventory before it is reset, then bank and inventory are reset and Idle is entered, the image map ending empty |
| `StateMachine.GameStateMachine.Set` | Assets/Scripts/Core/State/GameStateMachine.cs:49-54 | the old state's Exit runs before the new state becomes current and is entered; the whole effect per state: Idle and Collected empty the image map, Ready rebuilds it from the shown snapshot, Spinning and Lost keep it |
| `StateMachine.GameStateMachine.SetIdle` | Assets/Scripts/Core/State/GameStateMachine.cs:49-54 | `Set` for Idle: exit, then Idle's entry effects, the image map ending empty |
| `StateMachine.GameStateMachine.SetReady` | Assets/Scripts/Core/State/GameStateMachine.cs:49-54 | `Set` for Ready: exit, then Ready's entry effects, the image map rebuilt from the shown snapshot |
| `StateMachine.GameStateMachine.SetSpinning` | Assets/Scripts/Core/State/GameStateMachine.cs:49-54 | `Set` for Spinning: exit, then Spinning's entry effects |
| `StateMachine.GameStateMachine.SetLost` | Assets/Scripts/Core/State/GameStateMachine.cs:49-54 | `Set` for Lost: exit, then the fail view; the accounts, the wheel, the bindings, the rendered inventory and the image map stay, and leaving Lost on the way re-enables both buttons |
| `StateMachine.GameStateMachine.SetCollected` | Assets/Scripts/Core/State/GameStateMachine.cs:49-54 | `Set` for Collected: exit, collection, then Idle, the image map ending empty |
| `StateMachine.GameStateMachine.Enter` | Assets/Scripts/Core/State/GameStateMachine.cs:47 | an unknown state type fails with NotSupported and changes nothing; otherwise `Set` of the created state, with its whole effect per state, the image map included |
| `StateMachine.GameStateMachine.PressSpin` | Assets/Scripts/UI/HUDPresenter.cs:109-112 | a click on a spin button that is not interactable changes nothing; otherwise the bound spin action runs, or nothing if none is bound |
| `StateMachine.GameStateMachine.PressCashOut` | Assets/Scripts/UI/HUDPresenter.cs:114-118 | with the exit button not interactable, outside a safe or super zone, or unbound, nothing changes; otherwise the bound action runs |
| `StateMachine.GameStateMachine.PressGiveUp` | Assets/Scripts/UI/HUDPresenter.cs:120-123 | runs the bound give-up action, or nothing if none is bound |
| `StateMachine.GameStateMachine.CompleteSpin` | Assets/Scripts/Core/State/GameStateMachine.cs:201-227 | Bomb: accounts cleared and the empty inventory shown before Lost's notification; zone, wheel and bindings unchanged; buttons unchanged unless Lost is left on the way. Otherwise bank `Apply`, inventory `Add` with the slice appended to the history, its snapshot shown and the image map rebuilt, zone +1 (notified), both buttons enabled, state, wheel and bindings unchanged, Ready queued |
| `StateMachine.GameStateMachine.StopOnBomb` | Assets/Scripts/Core/State/GameStateMachine.cs:204-209 | bank 0 and inventory empty, the empty inventory shown, then Lost entered; zone, wheel and bindings unchanged; each button enabled iff Lost was current or it already was |
| `StateMachine.GameStateMachine.Collect` | Assets/Scripts/Core/State/GameStateMachine.cs:213-215 | bank `Apply`, inventory `Add`, and the inventory view shows the updated snapshot, its image map rebuilt |
| `StateMachine.GameStateMachine.StopOnPrize` | Assets/Scripts/Core/State/GameStateMachine.cs:211-223 | apply, add (the slice appended to the history), show the snapshot and rebuild the image map, advance by exactly 1, recompute cash-out, then enable both buttons, then queue Ready; state, fail view, wheel and bindings unchanged |
| `StateMachine.GameStateMachine.TakePrize` | Assets/Scripts/Core/State/GameStateMachine.cs:213-218 | bank `Apply`, inventory `Add` with the slice appended to the history, snapshot shown and image map rebuilt, zone +1 (notified), both buttons enabled; state, wheel and bindings unchanged |
| `StateMachine.GameStateMachine.AdvanceZone` | Assets/Scripts/Core/State/GameStateMachine.cs:216-218 | the zone advances by exactly 1 (notified), then both buttons end up enabled |
| `StateMachine.GameStateMachine.FireDeferredReady` | Assets/Scripts/Core/State/GameStateMachine.cs:219-222 | the outcome is the flight's lookup in the image map as it stands; when the lookup throws nothing but the queue changes; otherwise the flight plays and Ready is entered, whatever state was current, with the accounts unchanged, the image map rebuilt from the shown snapshot, and the button and fail-view effects of leaving Lost |
| `StateMachine.GameStateMachine.FlyThenEnterReady` | Assets/Scripts/Core/State/GameStateMachine.cs:219-223 | the callback's body: the outcome is the flight's lookup; on a throw nothing changes, otherwise the flight is recorded and Ready is entered with the accounts unchanged and the image map rebuilt from the shown snapshot |
| `StateMachine.GameStateMachine.EnterReadyLater` | Assets/Scripts/Core/State/GameStateMachine.cs:222 | `fsm.Enter<ReadyState>()` from any state: Ready's entry effects, the image map rebuilt from the shown snapshot, accounts unchanged |

## Left out

- 32-bit wrap-around is not modelled. Integers are unbounded, so `Advance` at `int.MaxValue`, large bank sums and products, and large scaled values do not overflow here.
- Float arithmetic is not modelled. `step` is exactly 3/20, where the source uses the float nearest 0.15. `RoundHalfEven` rounds the exact product. This changes results on small inputs as well as above 2^24; see the next line.
- `WheelFactory.Modifier.ScaledValue`: the source's single-precision multiplier `1f + k * 0.15f` is not exactly `1 + 0.15k`. At tier 2 it is 5452595/2^22, about 1.29999995, and at tier 7 about 2.05000019. So a product that is exactly half-way in rationals lies just below or just above the tie in the source. Zone 11 with value 95 gives 123 in the source (from about 123.4999924) and 124 here; zone 36 with value 10 gives 21 in the source and 20 here. The model rounds the exact product half-to-even, so it agrees with the source except on such near-ties.
- `Bank.Applied`: the Multiplier case is the exact integer product. The source passes `Total * max(1,v)` through `Mathf.RoundToInt`, which leaves an integer unchanged except for float precision loss.
- `WheelFactory.WheelConfigFactory.AddModifier`: requires `tierSpan > 0` and a positive step denominator. A zero `tierSpan`, which the float division turns into infinity or NaN, is not modelled.
- `WheelFactory.WheelConfigFactory.constructor`: requires all three tiers. It does not model the `KeyNotFoundException` of a missing tier; the start-up wiring always supplies all three.
- The `ScriptableObject` built at WheelConfigFactory.cs:52-54 and then discarded is not modelled. Neither are Unity object identity and the `!currentConfig` null test; they become a value copy and an `Option`.
- Spinning writes the shifted slices back into the config object it was handed. That object is shared with the wheel view and with Ready's spin command. With values instead of objects, that aliasing is not captured. It is harmless because the shift is always 0.
- The rotation returned by `WheelView.SpinTo` is stored in a state object that is never entered again. It is not modelled.
- The random draw's distribution is not modelled, only its range. `System.Random` is not part of this model.
- Presentation is not modelled: sprites, colours, texts, DOTween animations, the wheel-swap animation's timing, `UIRewardFlow`, and the other views.
- `NotifyCollected` and the flight of `NotifyRewardFlowAnimation` are recorded as events only. Of the flight, only its target lookup is modelled.
- `Hud.RenderedKeys`: assumes every pooled inventory entry has an `Image` child, as the entry prefab does. An entry without one is left out of the image map, which is not modelled.
- Inside the delayed callback, an exception ends the callback. What DOTween then does with it (logging) is not modelled.
- The initial state of the HUD buttons and fail view is scene data, so the presenter's constructor says nothing about it.
- A command's null action (`action?.Invoke()`) is not modelled. Every command is built with a lambda.
- `RiskStrategy.Applies` drops its `ZoneService` argument, which supplies only the pure zone predicates.
- Wall-clock timing is not modelled: the spin duration and the 0.25 s delay become pending steps fired by the environment. Host teardown is not modelled.
- `GameBootstrap`, `EventBus`, `ButtonBinder` and `Debug.Log` are wiring or logging and are not part of this model. Button clicks are the `Press*` methods. A click on the spin or exit button while it is not interactable is dropped, as Unity's `Button` drops it.
- `StateMachine.GameStateMachine.PressGiveUp`: the give-up button sits in the fail view, whose canvas group becomes interactable, or stops being so, only when its 0.25 s fade completes (Assets/Scripts/Infra/ExtensionMethods.cs:8-15). That gate is timing, so the model admits a give-up click in any state and covers more interleavings than the program has.
