# Tim's Love Letter agent, modelled in Dafny

This project models the card tracking and decision rules of `TimsAgent`. `TimsAgent` is an agent for the card game Love Letter.

- **Card types.** There are eight, from GUARD (value 1, 5 copies) to PRINCESS (value 8, 1 copy). Their ordinals are 0..7 and the copy counts are 5,2,2,2,2,1,1,1.
- **Deck counter `cardCounts`.** `newRound` resets it to the copy counts. `see` lowers it by one for every observed action.
- **`PlayerState`.** There is one per opponent. Its `potentialCardCount` array starts at the copy counts and is lowered by `update`. `getProb` and `getMostLikely` read it, and both use Java integer division.
- **Decision rules.** These are `hasCard`, the card switch of `decideAction` and the priority chain of `playCard`.

Modules:

- `Wrappers`: `Option`, standing in for a Java reference that may be `null`.
- `JavaInt`: Java's `int` division, which truncates toward zero. Dafny's `/` is Euclidean, so it is written out.
- `Cards`: the `Card` enum with `ordinal()`, `value()` and `count()`, and an `Action` with one constructor per card.
- `Counts`: count vectors of eight integers.
  - `DeckAfter` gives the deck counter after a sequence of observed cards, with lemmas on its entries and its total.
  - `Ratio` is the per-type ratio that `getMostLikely` compares.
  - `IsLastArgmax` is the tie-break rule: the result is the last type with the largest ratio.
- `Agents`: the two classes `PlayerState` and `TimsAgent`, whose arrays are changed in place, and the pure decision rules.
  - The `TimsAgent` object invariant `Valid()` ties `cardCounts` to the ghost sequence of observed cards.
  - Hence the deck total is always `16 - |observed|`.

## Consequences of the code

- A fresh opponent's most likely card is the PRINCESS: every ratio starts at 1, and the `>=` scan keeps the last type. More generally, while no Princess has been observed, every opponent is believed to hold the Princess (`Counts.PrincessLastArgmax`).
- Every observed action lowers the belief vector of every seat but the agent's own, whoever played the card. So with all belief objects in place, every opponent's vector equals the deck counter (`TimsAgent.BeliefsAgree`).
- Only the Princess branch of `decideAction` returns an action.
- The Countess branch computes a share and throws it away. Its integer division throws `ArithmeticException` exactly when the deck counter sums to 0, which happens once sixteen actions have been observed.

## Model

| member | source | states |
|---|---|---|
| `Cards.Card.Count` | src/agents/TimsAgent.java:20 | the copy count of each type is the entry of `totalCardCounts` at its ordinal (5,2,2,2,2,1,1,1) |
| `Cards.FromOrdinal` | src/agents/TimsAgent.java:17 | `CARD_VALUES[i]` is the type whose ordinal is `i` |
| `JavaInt.Div` | src/agents/TimsAgent.java:78 | Java `int` division: the quotient's magnitude is the floor of the magnitudes' quotient, and its sign is the product of the operands' signs (rounds toward zero) |
| `JavaInt.DivZero` | src/agents/TimsAgent.java:66 | for a positive divisor `b`, the quotient is 0 exactly when `-b < a < b` |
| `Counts.InitialCounts` | src/agents/TimsAgent.java:109-113 | the reset vector has eight entries, each equal to `count()` of its type |
| `Counts.DeckAfterEntry` | src/agents/TimsAgent.java:136-140 | after observing a sequence of cards, each entry of the deck counter is exactly its copy count minus the number of times that type was observed, so nothing is clamped at zero |
| `Counts.DeckAfterBounded` | src/agents/TimsAgent.java:138 | no entry of the deck counter ever exceeds its copy count |
| `Counts.InitialTotal` | src/agents/TimsAgent.java:20 | the copy counts sum to sixteen cards |
| `Counts.DeckAfter` | src/agents/TimsAgent.java:136-140 | the deck counter after a sequence of observed cards has eight entries and sums to 16 minus the number of observed actions |
| `Counts.Ratio` | src/agents/TimsAgent.java:78 | the truncated ratio `count / copies` of one type: 1 at the full copy count, never above 1 while the count is within its copies, and 0 exactly when the count lies strictly between minus and plus the copy count |
| `Counts.SumConcat` | src/agents/TimsAgent.java:167-175 | the low sum (ordinals 0..3) plus the high sum (ordinals 4..7) is the whole sum |
| `Counts.LastArgmaxUnique` | src/agents/TimsAgent.java:74-86 | the last index of largest ratio is unique, so `getMostLikely` is determined by the counts |
| `Counts.PrincessLastArgmax` | src/agents/TimsAgent.java:77-85 | while the Princess count is 1 and no count exceeds its copies, the Princess is the last type of largest ratio |
| `Counts.FreshLastArgmax` | src/agents/TimsAgent.java:41-47 | on the initial counts the last type of largest ratio is the Princess |
| `Agents.PlayerState.constructor` | src/agents/TimsAgent.java:41-47 | a new belief object has `playerIndex` as given and every count equal to its type's copy count |
| `Agents.PlayerState.Update` | src/agents/TimsAgent.java:54-56 | exactly the played type's count drops by one, without a clamp; the others are unchanged |
| `Agents.PlayerState.GetProb` | src/agents/TimsAgent.java:65-67 | count divided by 8, truncated: never positive, 0 exactly when the count is above -8, and for a non-positive count it is the truncated quotient |
| `Agents.PlayerState.GetMostLikely` | src/agents/TimsAgent.java:74-86 | returns the last type whose ratio is the maximum; every later type has a strictly smaller ratio |
| `Agents.FreshMostLikely` | src/agents/TimsAgent.java:41-86 | `getMostLikely` on a fresh belief object returns PRINCESS |
| `Agents.FirstMissingSeat` | src/agents/TimsAgent.java:123-126 | the first seat other than the agent's own whose belief object is `null`, or none when every such seat has one |
| `Agents.TimsAgent.constructor` | src/agents/TimsAgent.java:90-92 | the agent starts with no deck counter and no seat array |
| `Agents.TimsAgent.NewRound` | src/agents/TimsAgent.java:106-115 | as written: `current` and `myIndex` from the start state; the deck counter equals the copy counts; the seat array has `numPlayers` entries, all `null` |
| `Agents.TimsAgent.NewRoundFilled` | src/agents/TimsAgent.java:106-115 | corrected: as above, but every seat except the agent's own gets a fresh belief object for that seat, at the copy counts; no seat is missing and all beliefs agree with the deck counter |
| `Agents.TimsAgent.UpdatePlayerStates` | src/agents/TimsAgent.java:122-128 | each seat other than `myIndex`, up to the first missing one, loses one copy of the played type; seat `myIndex` and the seats after a missing one are untouched; the missing seat is reported |
| `Agents.TimsAgent.See` | src/agents/TimsAgent.java:136-140 | `current` becomes the observed state; the deck counter loses one copy of the played type and nothing else; the observed cards grow by that card; the seats are updated as by `UpdatePlayerStates`; when no seat is missing, beliefs that agreed with the counter still agree |
| `Agents.TimsAgent.DecideAction` | src/agents/TimsAgent.java:150-194 | only a believed Princess yields an action, and then it is the Princess response; a believed Countess faults exactly when sixteen actions have been observed; otherwise no action |
| `Agents.TimsAgent.DecideFor` | src/agents/TimsAgent.java:146-148 | the decision plays exactly when the opponent's last most-likely type is the Princess and a response exists; it faults exactly when that type is the Countess and sixteen actions have been observed |
| `Agents.HasCard` | src/agents/TimsAgent.java:142-144 | `hasCard(c, c1, c2)` holds exactly when `c` is one of the two held cards |
| `Agents.HasCardSymmetric` | src/agents/TimsAgent.java:142-144 | `hasCard` is symmetric in the two held cards |
| `Agents.PrincessResponse` | src/agents/TimsAgent.java:178-187 | there is an action exactly when King or Prince is held; it is a King or Prince action by the agent at the target, using a held card; the Prince is chosen only when no King is held |
| `Agents.PlayCard` | src/agents/TimsAgent.java:203-244 | as written: Countess exactly when the Countess is held; Handmaid exactly when the Handmaid is held and the Countess is not; otherwise `null` |
| `Agents.PlayCardCountessUnforced` | src/agents/TimsAgent.java:219-223 | holding the Countess and a Guard, `playCard` plays the Countess although neither King nor Prince is held, where the corrected rule plays nothing |
| `Agents.PlayCardForced` | src/agents/TimsAgent.java:219-223 | corrected: for every pair of held cards but two Countesses (there is one copy), Countess exactly when it is held beside the Prince, King or Princess; Handmaid exactly when the Handmaid is held and the Countess is not forced; `null` exactly when neither applies |
| `Agents.SeeAfterNewRound` | src/agents/TimsAgent.java:106-140 | after `newRound` as written with two or more seats, the first `see` faults at the first seat that is not the agent's |
| `Agents.SeeAfterNewRoundFilled` | src/agents/TimsAgent.java:106-140 | after the corrected round start, the first `see` completes; unless it played the Princess, the first opponent's most likely card is still the Princess |

## Findings

| source | as written | input that shows it | evidently intended | confidence | as-written member | corrected member |
|---|---|---|---|---|---|---|
| src/agents/TimsAgent.java:114 | `newRound` allocates `playerStates` but never stores a `PlayerState` in it, so `updatePlayerStates` dereferences `null` | a round with 2 seats and the agent at seat 0; the first `see` of any action throws NullPointerException at seat 1 | create a `PlayerState(i)` for every seat `i` other than the agent's own | high, not executed | `Agents.SeeAfterNewRound` (with `Agents.TimsAgent.NewRound`) | `Agents.TimsAgent.NewRoundFilled`, `Agents.SeeAfterNewRoundFilled` |
| src/agents/TimsAgent.java:220-221 | the value test `dealt.value() > 4 \|\| hand.value() > 4` includes the Countess itself (value 7), so it always holds once the Countess is held | dealt COUNTESS, hand GUARD: the Countess is played although nothing forces it | test the value of the card held beside the Countess ("play the countess if we have to") | medium, not executed | `Agents.PlayCardCountessUnforced` (with `Agents.PlayCard`) | `Agents.PlayCardForced` |

## Left out

- `LoveLetter.playGame`, `LoveLetter.main` and `test.py` are left out: they are the match driver, command-line parsing, printing and process launching.
- The unused `Random rand`, `toString` and the unused `CardState` class are left out.
- `State` is reduced to the seat count and the agent's own seat (`View`).
  - The agent's own card, `current.getCard(myIndex)`, is the `hand` parameter of `PlayCard`.
  - `State`'s other queries are not part of this model.
- Java `float` is not modelled. Every division in the code is integer division, so ratios are compared as integers. The rounding of a ratio beyond 2^24 in magnitude when it is stored in a `float` is not modelled.
- Java `int` wrap-around of a count decremented past -2^31 is not modelled: counts are unbounded integers.
- `IllegalActionException` from the `Action` factory methods, and the `catch` that then returns `null`, are not modelled. `PrincessResponse`, `PlayCard` and `PlayCardForced` assume that building the action succeeds.
- The target loop of `playCard` (lines 231-237) is not modelled. It discards its result, and its call `decideAction(opp, hand, dealt)` with a `Card` matches no declared overload.
- Agents.TimsAgent.See: requires the observed state's seat count to equal the round's. An observed state with more seats would throw ArrayIndexOutOfBoundsException, and that is not modelled.
