# Emergency D20 — a verified model of the reroll rules

Emergency D20 is a Foundry VTT module. It gives an actor a consumable "Emergency D20" item. The item buys one reroll of a d20 check. The reroll keeps the check's modifiers. The reroll button is offered at most once per chat message, and never on a reroll.

This project models the rule set of `emergency-d20/scripts/emergency-d20.js` in Dafny and proves its properties. It has one module per part of the script:

- `Wrappers` (`wrappers.dfy`): `Option`, which stands for JavaScript's `null`, `undefined` and "not a number". It also has a first-present helper.
- `Decimal` (`decimal.dfy`): the text a template literal prints for an integer (below 10^21 in magnitude, where JavaScript switches to exponent notation), and the parser that reads it back.
- `Dice` (`dice.dfy`): roll terms, the d20-test classifier (`isD20TestMessage`) and the modifier loop (`computeModifierFromRoll`). It also holds the reroll formula, its parser, and the evaluation of the formula for a given die outcome.
- `Resource` (`resource.dfy`): the pool as a tagged variant `Unlimited | Quantity(n) | Uses(v)`, and the `Item` class with its two pool fields. It also has the availability policy (`hasUsesRemaining`) and the check-then-decrement (`consumeEmergencyD20`), planned as a value and applied as a partial update.
- `Actors` (`actors.dfy`): the host state the script reads, as values. It has speaker resolution (`getActorFromSpeaker`) and item lookup by configured name (`findEmergencyD20Item`).
- `Chat` (`chat.dfy`): the `ChatMessage` class. Its rolls and speaker are fixed. Its flags are written only through `SetFlag`.
- `Guard` (`guard.dfy`): the chain of skip conditions in the `renderChatMessageHTML` hook.
- `Reroll` (`reroll.dfy`): the `World` class, which holds the host state and the chat log. Its method `HandleEmergencyD20Click` models `handleEmergencyD20Click`.
- `Scenarios` (`scenarios.dfy`): small concrete sessions, with the render check's verdict and the handler's outcome proved for each.

Three things come into the model as parameters: the configured item name, the outcome of the reroll's die (1..20) and the id of the published message. The handler is one sequential step.

Three behaviours of the code are worth knowing, and the model keeps them:

- **The handler does not check `used`.** Two clicks on the same message spend two uses (`Scenarios.TwoClicksRun`). Only the render check, run again after the handler, stops a second offer (`HandleEmergencyD20Click`'s last ensures).
- **The classifier and the extractor read different parts of the roll.** The classifier reads `roll.dice`, which includes dice nested in pools. The extractor sums only top-level `Die` terms. So a message can pass as a d20 test while its modifier comes out 0 (`Dice.NestedD20LosesModifier`).
- **The formula is built before the item is consumed** (lines 266-268, then 272). It is pure, so this order is not observable.

## Model

| member | source | states |
|---|---|---|
| `Decimal.NatToString` | emergency-d20/scripts/emergency-d20.js:268 | the decimal text of a number is non-empty, all digits, and has no leading zero unless the number is 0 |
| `Decimal.IntToString` | emergency-d20/scripts/emergency-d20.js:268 | a printed integer starts with `-` exactly when it is negative |
| `Decimal.ParseNatToString` | emergency-d20/scripts/emergency-d20.js:268 | reading back the printed digits of n gives n |
| `Dice.AnyD20` | emergency-d20/scripts/emergency-d20.js:99 | the `some(faces === 20)` scan is true iff 20 is among the face counts |
| `Dice.IsD20TestMessage` | emergency-d20/scripts/emergency-d20.js:92-100 | true iff there is a first roll and 20 is among its dice's faces; no rolls or no dice gives false, and later rolls are never read |
| `Dice.D20DieMakesTest` | emergency-d20/scripts/emergency-d20.js:92-100 | a twenty-faced Die anywhere in the first roll makes the message a d20 test, whatever the other terms are |
| `Dice.ComputeModifierFromRoll` | emergency-d20/scripts/emergency-d20.js:102-115 | the loop returns 0 when the summed totals of the 20-faced Die terms (a missing total counts 0) are 0; otherwise modifier + that sum equals the roll's total |
| `Dice.NonD20TermsIgnored` | emergency-d20/scripts/emergency-d20.js:107-111 | terms that are not 20-faced Die terms add nothing to the d20 sum |
| `Dice.NestedD20LosesModifier` | emergency-d20/scripts/emergency-d20.js:92-115 | a d20 held only inside a pool passes the classifier, yet the recovered modifier is 0, so the bonus is lost |
| `Dice.Formula` | emergency-d20/scripts/emergency-d20.js:268 | the formula starts with `1d20`; it is exactly `1d20` iff the modifier is 0; otherwise the next character is `+` for a positive and `-` for a negative modifier |
| `Dice.FormulaRoundTrip` | emergency-d20/scripts/emergency-d20.js:268 | parsing the formula back gives the modifier |
| `Dice.FormulaInjective` | emergency-d20/scripts/emergency-d20.js:268 | different modifiers give different formulas |
| `Dice.RerollPreservesModifier` | emergency-d20/scripts/emergency-d20.js:266-282 | the roll of the formula, with a die showing 1..20, is a d20 test, has the original modifier, and totals die + modifier, in [1 + m, 20 + m] |
| `Dice.ScenarioModifierThree` | emergency-d20/scripts/emergency-d20.js:102-115 | a d20 of 12 in a total of 15 gives modifier 3 and the formula `1d20+3` |
| `Resource.HasUsesRemaining` | emergency-d20/scripts/emergency-d20.js:51-64 | false for no item; a numeric quantity decides (> 0) whatever the uses value is; otherwise a numeric uses value decides (> 0); otherwise true |
| `Resource.PlanConsume` | emergency-d20/scripts/emergency-d20.js:76-85 | refuses iff the pool is not available; issues no update iff the pool is unlimited; otherwise the one update lowers the counting field by 1 and leaves the other field alone |
| `Resource.Item.Update` | emergency-d20/scripts/emergency-d20.js:88 | the partial update changes only the field it names |
| `Resource.ConsumeEmergencyD20` | emergency-d20/scripts/emergency-d20.js:66-90 | returns true iff the item had uses remaining (false for no item); on success the pool is decremented once (quantity before uses value); on failure or for an unlimited pool the item is unchanged |
| `Resource.QuantityBudget` | emergency-d20/scripts/emergency-d20.js:76-78 | a quantity of n allows exactly n successful consumes; after that it stays at 0 and is unavailable |
| `Resource.UsesBudget` | emergency-d20/scripts/emergency-d20.js:79-81 | likewise for a uses value of v |
| `Resource.UnlimitedNeverExhausted` | emergency-d20/scripts/emergency-d20.js:82-85 | an item with neither field stays unlimited however often it is consumed |
| `Actors.ActorFromSpeaker` | emergency-d20/scripts/emergency-d20.js:24-42 | no speaker gives none. Otherwise the result is the first of: the actor id's actor, the token id's actor, the actor of the only selected token. Whatever it returns comes from the directory, a placed token or the one selected token |
| `Actors.FirstNamed` | emergency-d20/scripts/emergency-d20.js:47 | returns the first item whose name equals the given one, and none iff no item has that name |
| `Actors.FindEmergencyD20Item` | emergency-d20/scripts/emergency-d20.js:44-48 | none for no actor; otherwise the first item of that actor with exactly the configured name, found whenever one exists |
| `Chat.ChatMessage.SetFlag` | emergency-d20/scripts/emergency-d20.js:278 | writes one flag and keeps every other flag |
| `Guard.RenderVerdict` | emergency-d20/scripts/emergency-d20.js:123-170 | a button is offered iff the message is not flagged `isEmergency`, has rolls, is a d20 test and is not flagged `used`, and the speaker's actor resolves and is owned (or the user is GM), and the item is found and has uses left. The button carries that actor and item; `isEmergency` alone forces a skip, and so does `used` |
| `Reroll.NoticeOf` | emergency-d20/scripts/emergency-d20.js:253-276 | every early exit except the no-rolls one shows a warning; only a reroll shows the info message |
| `Reroll.RerollFlavor` | emergency-d20/scripts/emergency-d20.js:284-285 | the flavor is the roll's flavor, else the message's, else "Emergency D20", and always ends in " (Emergency D20)" |
| `Reroll.World.HandleEmergencyD20Click` | emergency-d20/scripts/emergency-d20.js:246-310 | the early exits happen in order (not in control, no uses, no rolls) and change nothing; consuming never fails after the availability check. A reroll decrements the pool once, sets `used` on the original and publishes one fresh message. That message has the original's speaker, the source/actor/item ids, `isEmergency` and the roll of `Formula(Modifier)` with total d20 + modifier. Flags are never removed, and re-rendering either message offers no button |
| `Scenarios.QuantityOneRun` | emergency-d20/scripts/emergency-d20.js:246-310 | quantity 1 and a check of 12 + 3: the button is offered; a die of 7 gives a reroll totalling 10; quantity is 0 afterwards; the original is `used`, the reroll `isEmergency`, and no button is offered again |
| `Scenarios.ExhaustedRun` | emergency-d20/scripts/emergency-d20.js:258-261 | quantity 0 (with a uses value of 3, which the quantity overrides): no button, the click warns "No Emergency D20 remaining.", nothing is published, quantity and uses value stay 0 and 3, and the message keeps its empty flags |
| `Scenarios.DamageRollRun` | emergency-d20/scripts/emergency-d20.js:139-142 | a 2d6 roll is skipped as not a d20 test |
| `Scenarios.TwoClicksRun` | emergency-d20/scripts/emergency-d20.js:246-302 | two clicks on one message spend two uses and publish two rerolls, although no button is offered between them |

## Left out

- Settings and hook registration (lines 5-20) are not modelled. The configured item name is `Host.itemName`.
- Button construction, the click listener and button removal (lines 172-237, 304-307) are DOM code and are not modelled. That includes the listener's lookups by message, actor and item id, and its fallback to the actor of a placed token. The handler receives the message, the actor and the item directly.
- `HandleEmergencyD20Click` takes a non-null actor and item. Its null checks at lines 253 and 258 are not modelled, because line 249-250 already reads `actor.id` and `item.id` and the listener never passes null.
- Dice evaluation and `roll.toMessage` (lines 281-298) are a foreign library with randomness. The die's outcome is the parameter `d20` (1..20). The new message's id is the parameter `newId`. Publication always yields a message, so the `if (newMessage)` at line 300 is always taken.
- `ui.notifications` is modelled only as the value `NoticeOf` returns. `console` logging is left out.
- The `item.system ?? item.data?.data` version shim is not modelled. An item has one record with `quantity` and `usesValue`, each `None` when not a number.
- JavaScript numbers are modelled as unbounded integers. Fractional or NaN quantities and totals are not modelled.
- The `try`/`catch` around the render hook is not modelled. The model's functions are total, so there is nothing to catch.
- The host calls `item.update`, `setFlag`, the roll evaluation and `toMessage` are taken to succeed. In the script a failure after line 278 leaves the item spent and the original flagged `used` with no reroll; the one-step handler does not show that state.
- Concurrency is not modelled. `consumeEmergencyD20` reads the counting field, refuses when it is at most 0 (line 77) and otherwise writes the value it read less 1 (line 78), so it never writes a negative value into a field that held a non-negative one. Two clicks that overlap across the `await` points on a quantity of 1 can end in two ways. Both handlers may read 1 and both write 0: a lost update that gives two rerolls for one use. Or the second handler reads after the first update has landed, sees 0 and stops with "Could not consume an Emergency D20." (line 274). That second way is the only route to `NotConsumed`; the handler here runs as one sequential step, so it never reaches `NotConsumed` (its `ensures !outcome.NotConsumed?`).
- Only the module's own flag namespace is modelled. Flags of other modules are not represented.
- `Reroll.World.HandleEmergencyD20Click`: this contract does not state the removal of the button after a successful run (line 304-307), because buttons are not modelled.
