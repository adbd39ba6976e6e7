# Fighting Fantasy companion: the game-rules engine in Dafny

This project models the rules engine of a single-player companion for Fighting Fantasy
gamebooks (`app.js`). The engine tracks a character sheet, an encounter registry and three
event logs. The sheet has Skill, Stamina and Luck, each an `{initial, current}` pair that
stays null until rolled, plus provisions, gold, equipment, treasure and one potion. The
registry holds monsters, newest first, each active, defeated or escaped, plus the id of the
active one. The engine's rules are:
- the initial roll;
- eating a provision;
- testing luck;
- choosing and drinking a potion;
- the inventory lists and the +/- steppers;
- adding, selecting, damaging, removing and escaping encounters;
- the combat round;
- the clamp that keeps every stat in range (`enforceCaps`);
- the repair of a loaded save (`sanitizeState`).

The model has two layers.

- **Rules on values** (modules `Model`, `Rules`, `Registry`, `Combat`, `Persistence`).
  - `Game` is the state record of `createDefaultState`. Each operation is a function from the
    state before to the state after.
  - Dice are inputs: `D6` is 1..6 and `TwoDice` is a 2d6 roll used through its sum.
  - The id that `uid()` would produce is an input too.
  - Log lines are abstract `Entry` values, newest first.
  - Lemmas state what the rules promise.
- **The session object** (module `Engine`).
  - `Player` is `state.player` and `GameState` is the global `state`. Their fields are
    updated in place, as in the JavaScript.
  - Each method follows its JavaScript body statement by statement.
  - Each rule operation is proved to leave `Snapshot()` equal to the rule function applied to
    the old snapshot, and to keep `Valid()`, the caps. The two steps of a combat round
    (`TestLuckInCombat`, `ApplyRound`) are proved equal to their rule functions, and the round
    as a whole keeps `Valid()`.
  - `EnforceCaps` is the `forEach` over the three stat keys, written as a loop with invariants.

The module `Scenarios` replays fixed-dice games on the rule functions.

Some JavaScript behaviours are modelled as written:
- `clamp(n, min, max)` is `Math.max(min, Math.min(max, n))`, so the lower bound wins when
  `max < min`.
- `null` counts as 0 in arithmetic (`NumOr0`). `hasStatsRolled` checks only the initial
  values, so a save can hold rolled initials with null currents.
- `find` returns the first encounter with an id, while `filter` removes every encounter with it.
- `splice` counts a negative index from the end.
- `trim` removes ECMAScript white space and line terminators.

Behaviours of the code that the model keeps:
- The stat invariant is "0 <= current <= initial" only when initial is non-negative. A save
  may carry a negative initial, and then `clamp(cur, 0, init)` gives 0, which is above
  initial. `StatCapped` states what the code does guarantee, and `NegativeInitialCapsToZero`
  exhibits the case.
- `sanitizeState` keeps the saved encounters verbatim, so a loaded encounter can be out of
  bounds. Encounter bounds are therefore not part of `Valid()`. `RegistryKeepsBounds` and
  `CombatKeepsBounds` show that every registry operation and every combat round keep them
  once they hold.
- `addEncounter` with stamina 0 or less creates an active encounter with stamina
  `{initial: 1, current: 0}`.
- Toggling the escape of a defeated encounter makes it escaped, and toggling again makes it
  active (`ToggleTwice`).

## Model

| member | source | states |
|---|---|---|
| `Dice.TwoDice.Total` | app.js:21 | a 2d6 roll lies in 2..12 |
| `Model.Clamp` | app.js:14 | the result is at least `min`; it is at most `max` when `min <= max`; it equals `n` inside the range, `min` below it, and the larger bound above it |
| `Model.StatsRolled` | app.js:137-140 | the stats count as rolled exactly when every stat's initial value is a number |
| `Engine.Player.StatsRolled` | app.js:137-140 | the in-place check on the player object agrees with `StatsRolled` of its value |
| `Model.CapStat` | app.js:144-150 | a stat with both halves set ends capped, with initial unchanged; an already capped stat is left as is; a current above a non-negative initial drops to initial and a negative current rises to 0 |
| `Model.CapAll` | app.js:142-153 | after enforceCaps every stat is capped, provisions become clamp(p, 0, 999) and gold clamp(g, 0, 999999); only those five fields change; a capped state is a fixed point |
| `Model.CapAllIdempotent` | app.js:142-153 | applying enforceCaps twice equals applying it once |
| `Model.NegativeInitialCapsToZero` | app.js:147-148 | with a negative initial the clamp sets current to 0, which is above initial |
| `Model.DefaultIsCapped` | app.js:56-74 | the default state is capped, unrolled, with 10 provisions and 0 gold |
| `Engine.GameState.EnforceCaps` | app.js:142-153 | the loop over skill, stamina and luck, then provisions and gold, leaves exactly `CapAll` of the old state, and establishes `Valid()` |
| `Persistence.StatField` | app.js:92-94 | a stat half is kept exactly when the save holds a number there |
| `Persistence.NumberOr` | app.js:99-100 | a numeric field is kept; anything else becomes the default |
| `Persistence.ParseChoice` | app.js:102-105 | a potion is read only from its own name; any value other than the three potion names reads as none |
| `Persistence.MergePlayer` | app.js:90-106 | a missing or non-object player record gives the default sheet |
| `Persistence.Merge` | app.js:87-114 | the merge of a save over the defaults: a missing player gives the default sheet, a saved encounter array is kept and anything else gives none, and the active id is kept |
| `Persistence.Serialize` | app.js:83-85 | the saved document of a state merges back to exactly that state |
| `Persistence.Sanitize` | app.js:87-118 | any loaded record yields a capped state; a saved string name is kept, and any other name becomes empty; saved numeric provisions and gold are kept, clamped to [0, 999] and [0, 999999]; non-numeric provisions become 10 and gold 0; non-array lists and logs become empty, and the saved arrays of equipment, treasure, encounters and logs are kept; a missing player gives the default sheet; each stat is the capped merge of its saved halves; a potion choice other than the three potion names becomes none; `used` becomes its truthiness; the active id is kept |
| `Persistence.SanitizeEmpty` | app.js:87-118 | loading `{}` yields exactly the default state |
| `Persistence.RoundTrip` | app.js:83-124 | saving then loading a capped state gives it back unchanged |
| `Persistence.SanitizeStable` | app.js:87-118 | loading the save of a loaded state changes nothing more |
| `Engine.GameState.Sanitize` | app.js:87-118 | builds a fresh session whose state is `Sanitize` of the loaded record and which satisfies `Valid()` |
| `Rules.RollInitialStats` | app.js:166-180 | afterwards skill is die + 6, stamina the two dice + 12 and luck die + 6 (so 7..12, 14..24, 7..12), each current equal to its initial; only the three stats and the luck log change |
| `Rules.LogLuck` | app.js:155-157 | the entry is put on top of the luck log and nothing else changes |
| `Rules.LogCombat` | app.js:158-160 | the entry is put on top of the combat log and nothing else changes |
| `Engine.GameState.RollInitialStats` | app.js:166-180 | the in-place roll leaves the state `RollInitialStats` describes, with stats rolled |
| `Rules.EatProvision` | app.js:183-193 | eating keeps the caps |
| `Rules.EatProvisionEffect` | app.js:183-193 | unrolled stats or no provisions only log; otherwise provisions drop by exactly 1 and stamina becomes min(current + 4, initial), and nothing else changes |
| `Engine.GameState.EatProvision` | app.js:183-193 | the in-place update equals `EatProvision` and keeps `Valid()` |
| `Rules.LuckAfterTest` | app.js:203 | the luck left after a test keeps the stat capped and equals max(luck - 1, 0) on a capped stat |
| `Rules.TestLuck` | app.js:195-209 | a luck test keeps the caps |
| `Rules.LuckVerdict` | app.js:197-208 | the test returns a verdict exactly when all three initial stats are rolled |
| `Rules.TestLuckEffect` | app.js:195-209 | unrolled stats only log; otherwise the test is lucky exactly when the roll is at most the luck value before the test; luck drops by exactly 1, floored at 0, whatever the outcome; only luck and the luck log change |
| `Engine.GameState.TestLuck` | app.js:195-209 | the in-place test equals `TestLuck` and returns `LuckVerdict` |
| `Rules.ChoosePotion` | app.js:211-215 | only the potion choice changes; the used flag is kept |
| `Rules.PotionEffect` | app.js:223-233 | skill restores skill to its initial, strength restores stamina to its initial, fortune raises initial luck by 1 and sets luck to it; only that stat changes |
| `Engine.GameState.ChoosePotion` | app.js:211-215 | the in-place update equals `ChoosePotion` |
| `Rules.UsePotion` | app.js:217-239 | drinking keeps the caps; before the roll, with the potion used or with no potion chosen the sheet is untouched; a drunk potion leaves the sheet capped |
| `Rules.UsePotionEffect` | app.js:217-239 | unrolled stats, a used potion or no choice only log; otherwise skill or strength restore current to initial, fortune raises initial luck by 1 and sets luck to it, and the potion is marked used in every case |
| `Rules.PotionOncePerAdventure` | app.js:220 | once a potion is used, drinking again only logs "already used" |
| `Engine.GameState.UsePotion` | app.js:217-239 | the in-place update, ending with enforceCaps, equals `UsePotion` |
| `Text.TrimStart` | app.js:243 | only leading white space is removed; the result is a suffix that does not start with white space |
| `Text.TrimEnd` | app.js:243 | only trailing white space is removed; the result is a prefix that does not end with white space |
| `Text.Trim` | app.js:243 | the result is a slice of the input, only white space is cut on either side, and none is left at either end; it is empty exactly when the input is all white space |
| `Text.TrimIdempotent` | app.js:243 | trimming twice is trimming once |
| `Rules.AddListItem` | app.js:242-248 | only the named list may change |
| `Rules.AddListItemEffect` | app.js:242-248 | blank text changes nothing; otherwise the trimmed text is appended to the named list |
| `Engine.GameState.AddListItem` | app.js:242-248 | the in-place append equals `AddListItem` |
| `Rules.SpliceStart` | app.js:250 | splice starts at the index clamped to the list, with a negative index counted from the end |
| `Rules.RemoveAt` | app.js:250 | a valid index removes that item, a negative one counts from the end, one below minus the length removes the first item, one past the end removes nothing, and at most one item goes |
| `Rules.RemoveListItem` | app.js:249-253 | only the named list changes; it becomes `RemoveAt` of the old list at the index, so it loses items without gaining any |
| `Engine.GameState.RemoveListItem` | app.js:249-253 | the in-place splice equals `RemoveListItem` |
| `Rules.AdjustStat` | app.js:689-694 | the stepper keeps the caps, does nothing before the roll, and changes only the current value of its own stat |
| `Rules.Step` | app.js:696-721 | every stepper keeps the caps; provisions stay in [0, 999] and gold in [0, 999999]; the provisions and gold steppers change only their own field |
| `Rules.StepStatEffect` | app.js:689-702 | on a rolled stat, +1 gives min(current + 1, initial) and -1 gives max(current - 1, 0); below the cap, up then down is the identity |
| `Rules.StepEffect` | app.js:689-721 | on a capped state, provisions become min(p + 1, 999) or max(p - 1, 0), gold min(g + 1, 999999) or max(g - 1, 0), and nothing else changes; a stat stepper changes only that stat's current value |
| `Engine.GameState.AdjustStat` | app.js:689-694 | the in-place stepper equals `AdjustStat` |
| `Engine.GameState.Step` | app.js:696-721 | the in-place dispatch equals `Step` |
| `Registry.IndexOf` | app.js:290 | finds the first encounter with the id, or reports that no encounter has it |
| `Registry.FindActive` | app.js:285-287 | the active encounter is the first with the active id; a missing or dangling id gives none |
| `Registry.NewEncounter` | app.js:264-270 | the new encounter is active and within bounds: skill clamped to [1, 99], stamina initial to [1, 999], current to [0, 999] |
| `Registry.AddEncounter` | app.js:256-277 | an empty name or a non-numeric answer changes nothing; otherwise the encounter is prepended and becomes the active one |
| `Registry.AddEncounterEffect` | app.js:256-277 | the new encounter carries the trimmed name and clamped numbers, is active, and is what a lookup of its id finds |
| `Engine.GameState.AddEncounter` | app.js:256-277 | the in-place prepend equals `AddEncounter` |
| `Registry.SetActive` | app.js:279-283 | only the active id changes; what it then finds is the lookup of that id, possibly nothing |
| `Engine.GameState.SetActiveEncounter` | app.js:279-283 | the in-place update equals `SetActive` |
| `Registry.Damage` | app.js:293-294 | stamina goes down by the damage, clamped to [0, initial]; 0 means defeated; otherwise the status is kept |
| `Registry.DamageEncounter` | app.js:289-298 | an unknown id changes nothing; otherwise only the first matching encounter is damaged |
| `Engine.GameState.DamageEncounter` | app.js:289-298 | the in-place update equals `DamageEncounter` |
| `Registry.Without` | app.js:301 | exactly the encounters without the id remain |
| `Registry.WithoutAppend` | app.js:301 | the filter keeps the remaining encounters in order (it distributes over concatenation) |
| `Registry.WithoutAbsent` | app.js:301 | filtering an id nobody has keeps the list |
| `Registry.WithoutKeepsLookup` | app.js:301 | removing one id does not change what a lookup of another id finds |
| `Registry.RemoveEncounter` | app.js:300-305 | the encounters become `Without` of the old ones, so no encounter with the id remains and the rest keep their order, and the active id is cleared exactly when it was that id |
| `Registry.RemoveKeepsActive` | app.js:300-305 | removing the active encounter leaves none active; removing another one keeps the active encounter |
| `Engine.GameState.RemoveEncounter` | app.js:300-305 | the in-place filter equals `RemoveEncounter` |
| `Registry.Toggle` | app.js:310 | escaped becomes active and any other status, defeated included, becomes escaped |
| `Registry.ToggleTwice` | app.js:310 | toggling twice restores active or escaped, but turns defeated into active |
| `Registry.ToggleEscaped` | app.js:307-313 | an unknown id changes nothing; otherwise only the first matching encounter is toggled |
| `Engine.GameState.ToggleEncounterEscaped` | app.js:307-313 | the in-place update equals `ToggleEscaped` |
| `Registry.RegistryKeepsBounds` | app.js:256-313 | adding, selecting, damaging, removing and toggling keep every encounter within its creation bounds |
| `Combat.CombatKeepsBounds` | app.js:316-364 | a combat round keeps every encounter within its creation bounds |
| `Combat.Decide` | app.js:330-333 | the player wins exactly on a higher attack strength, the monster exactly on a lower one, and equal strengths tie |
| `Combat.Resolve` | app.js:324-346 | attack strength is roll plus skill; luck is tested exactly when asked for on a non-tie; damage lies in 1..4 |
| `Combat.DamageTable` | app.js:330-346 | damage is 2 without luck; with luck it is 4 or 1 on a player win and 1 or 3 on a monster win, lucky meaning the luck roll is at most the luck value before the test |
| `Combat.LuckNeverChangesWinner` | app.js:327-346 | the same attack rolls give the same outcome with or without luck, whatever the luck roll |
| `Combat.LuckStage` | app.js:335-348 | the luck test in combat changes only luck on the sheet and keeps the caps |
| `Combat.ApplyRound` | app.js:350-359 | applying the round keeps the caps and the number of encounters |
| `Combat.CombatRound` | app.js:316-364 | a round keeps the caps and never touches the active id, the luck log or the dice log |
| `Combat.CombatRefused` | app.js:320-322 | unrolled stats, no live active encounter, or a non-active encounter: only the combat log changes |
| `Combat.CombatEffect` | app.js:316-364 | a player win damages only the active encounter; a monster win lowers only the player's stamina, by the damage and floored at 0; a tie deals no damage; luck drops by exactly 1, floored at 0, exactly when tested; nothing else on the sheet changes; the combat log gains the round's line on top of the luck line, when luck was tested |
| `Engine.GameState.TestLuckInCombat` | app.js:335-347 | reports lucky exactly when the luck roll is at most the luck value before the test, and leaves the state `LuckStage` describes |
| `Engine.GameState.ApplyRound` | app.js:350-359 | the in-place damage step equals `ApplyRound` |
| `Engine.GameState.CombatRound` | app.js:316-364 | the in-place round equals `CombatRound` and keeps `Valid()` |
| `Scenarios.FirstRollAllFours` | app.js:166-175 | all dice at 4 give skill 10, stamina 20 and luck 10, all at full |
| `Scenarios.SkillPotionAtFullSkill` | app.js:223-235 | a skill potion at full skill leaves skill 10 and marks the potion used |
| `Scenarios.OverkillDefeats` | app.js:289-294 | 10 damage on stamina 8 leaves 0 and defeated |
| `Scenarios.PlayerWinsWithoutLuck` | app.js:324-353 | attack strength 16 against 11 without luck costs the monster 2 stamina and the player no luck |
| `Scenarios.PlayerWinsLucky` | app.js:335-353 | the same round with luck roll 2 against luck 10 costs the monster 4 stamina and the player 1 luck |

## Left out

- Rendering, navigation, tabs, the dice modal and event wiring (`renderApp`, `renderList`, `renderEncounters`, `showScreen`, `setupEvents`): these only display the state or call the operations above.
- The new-game wizard and the freeform dice roller: they animate dice with timers and promises. The wizard's effect (initial = current = die + 6, or two dice + 12) is what `RollInitialStats` does. The dice log is carried in the state, but no modelled operation writes it.
- Randomness and time: dice, `uid()` ids and timestamps are not generated. Dice and ids are inputs, and log entries carry no timestamp or message text. Nothing forces two ids to differ.
- Persistence I/O: `localStorage`, `saveState` after every operation, `hasSave`, `downloadJson`, and `loadState` falling back to the default state when parsing throws. Only the repair done by `sanitizeState` is modelled, plus saving as a value (`Serialize`).
- The `version` field and any extra keys of a save: they are copied along by the spread and never read by the rules.
- Persistence.StatField: a saved stat half that is neither a number nor null (a string, boolean or object) is kept verbatim by the source but read as null here; such a value already fails `hasStatsRolled` when it is an initial.
- Persistence.Merge: list items and log entries are taken as typed (strings and entries); saved encounters are taken as well-formed records; a non-string active id is not represented.
- JavaScript numbers: quantities are integers. Fractional values are not modelled. `Number()` applied to a prompt answer is an input `Option<int>`, with `None` for a non-finite answer. A cancelled name prompt is the empty name.
- Log length: the logs are unbounded, as in the source. Only the display truncates them (12/14/10 entries), and display is not modelled.
- Identity of encounter objects: the source updates an encounter object in place through `find`. The model replaces that element of the `encounters` sequence. Nothing else holds a reference to it.
- `service-worker.js`: offline caching, with no rules.
