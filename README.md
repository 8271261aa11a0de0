# Three browser games, modelled in Dafny

This project models the game logic of three small browser toys and proves
properties of that logic.

- **Beach blackjack** (`blackjack/blackjack.js`). The model covers:
  - the 52-card deck and its Fisher-Yates shuffle;
  - soft-ace hand totals;
  - the greedy chip stack drawn under the bet;
  - the round engine. This is the single `state` object with its betting, playing and result phases, the player actions, the dealer's draw-to-17 rule, settlement, the statistics and the 20-entry history.
- **Rave Snake** (`Rave-Snake/script.js`). The model covers:
  - the 40 x 30 grid;
  - keyboard and mouse steering that never turns straight back;
  - food placed only on free cells;
  - one move per tick: crash, eat or shift;
  - the per-mode win rule and the Speed Demon interval.
- **Rave Neuron** (`rave-neuron/script.js`). The model covers the discrete side of this toy classifier:
  - the time-of-day zones and their boosts;
  - the 12-hour clock label;
  - picking the winning class;
  - the training panel. A click on the plot and a label button together make a training point. A training step counts how many points the network now gets right. Reset restarts everything.

Each part follows the source's form:
- Pure helpers become Dafny functions, with lemmas about them.
- Objects that the page updates in place become classes: the blackjack `state` object becomes `BlackjackTable.Table`, the snake globals become `RaveSnake.SnakeGame`, and the neuron training panel becomes `RaveNeuron.Trainer`. Their fields are updated by methods whose `modifies` clauses name the fields they touch.
- Loops stay loops with invariants: the deck build, the shuffle, the chip stack, the dealer's draws, spawnFood's attempts and the accuracy count.

`Math.random()` is modelled as a parameter. Each operation that draws random numbers takes the draws as a sequence of reals in [0, 1), and the properties hold for every such sequence. JavaScript numbers are modelled as Dafny reals or unbounded integers.

Files:
- `wrappers.dfy`: the `Option` type.
- `random_draws.dfy`: `Math.floor(Math.random() * n)`.
- `js_math.dfy`: `Math.min` and `Math.max` on integers.
- `blackjack_cards.dfy`: the deck, hand maths and chip stack.
- `blackjack_table.dfy`: the round engine.
- `snake.dfy`: Rave Snake.
- `neuron.dfy`: Rave Neuron.

## Model

| member | source | states |
|---|---|---|
| RandomDraws.PickIndex | blackjack/blackjack.js:92 | `Math.floor(r * n)` for a draw r in [0, 1) is an index in [0, n), namely the one whose unit interval contains r * n |
| BlackjackCards.StandardDeckIsComplete | blackjack/blackjack.js:82-88 | the built deck has 52 cards, holds every suit/rank pair, and no card twice |
| BlackjackCards.FullDeckEachCardOnce | blackjack/blackjack.js:82-88 | a collection is a permutation of the built deck exactly when it holds every card exactly once |
| BlackjackCards.BuildDeck | blackjack/blackjack.js:82-88 | the nested suit/rank loop produces exactly the standard deck, suit-major |
| BlackjackCards.Shuffle | blackjack/blackjack.js:90-96 | Fisher-Yates in place, swapping i with a drawn j <= i from the top down, leaves a permutation of the array |
| BlackjackCards.FreshShuffledDeck | blackjack/blackjack.js:337 | `shuffle(buildDeck())` yields 52 cards that are a permutation of the full deck |
| BlackjackCards.RawTotal | blackjack/blackjack.js:104-109 | the sum of the card values with every ace counted as 11 |
| BlackjackCards.Soften | blackjack/blackjack.js:110 | while the total exceeds 21 and an ace is left to demote, take 10 off the total and one off the ace count |
| BlackjackCards.HandTotal | blackjack/blackjack.js:104-112 | handTotal: the aces-high total softened by the aces of the hand |
| BlackjackCards.IsBust | blackjack/blackjack.js:114 | a hand whose total exceeds 21 |
| BlackjackCards.IsBlackjack | blackjack/blackjack.js:115 | a hand of exactly two cards totalling 21 |
| BlackjackCards.CardValue | blackjack/blackjack.js:10 | every card is worth 2 to 11, and 11 exactly when it is an ace |
| BlackjackCards.HandTotalSoftAce | blackjack/blackjack.js:104-112 | handTotal is the hard total (aces as 1), plus 10 exactly when the hand holds an ace and one ace as 11 keeps it at most 21 |
| BlackjackCards.BustIsHardBust | blackjack/blackjack.js:104-114 | a hand busts exactly when its hard total exceeds 21; a total is never below the card count |
| BlackjackCards.TwoCardsNeverBust | blackjack/blackjack.js:104-114 | a two-card hand never busts, so the opening hands are always playable |
| BlackjackCards.BlackjackIsAceAndTen | blackjack/blackjack.js:115 | a blackjack is exactly two cards: an ace and a ten-valued card |
| BlackjackCards.ChipStack | blackjack/blackjack.js:201-216 | the drawn chips are denominations in descending order; no chips for an empty bet; greedy: after the chips of each denomination and above, less than that denomination of the bet is left, so the chips sum to the bet minus a remainder below 10 |
| BlackjackCards.TakeChips | blackjack/blackjack.js:207-214 | the inner loop appends d-chips while the remainder covers d, leaving less than d; earlier chips and larger-denomination sums are untouched |
| BlackjackTable.Payout | blackjack/blackjack.js:473-500 | what the balance receives: floor(2.5 bet) for a blackjack, twice the bet for a win, the bet for a push, nothing for a loss |
| BlackjackTable.NextStreak | blackjack/blackjack.js:514-521 | a win or blackjack extends a winning streak or starts one at 1; a loss extends a losing streak or starts one at -1; a push resets it to 0 |
| BlackjackTable.Settle | blackjack/blackjack.js:465-521 | endRound's statistics update: one more game, the counter of the outcome, bestWin raised to the net, pnl moved by the net, the streak advanced |
| BlackjackTable.ResolveOutcome | blackjack/blackjack.js:453-461 | resolveRound: a win when the dealer busts or has less, a loss when the dealer has more, a push on equal totals |
| BlackjackTable.BoundedPrepend | blackjack/blackjack.js:541-545 | the history with the entry put first and cut back to 20 entries |
| BlackjackTable.Table.NaturalOutcome | blackjack/blackjack.js:349-362 | a natural on both sides is a push, the player's alone a blackjack, the dealer's alone a loss |
| BlackjackTable.NetFollowsOutcome | blackjack/blackjack.js:471-512 | the net of a round is +floor(1.5 bet) for a blackjack, +bet for a win, 0 for a push, -bet for a loss; the payout exceeds the bet exactly on a win or blackjack and falls short of it exactly on a loss |
| BlackjackTable.StreakIsCurrentRun | blackjack/blackjack.js:514-521 | the streak rule applied over any sequence of rounds equals the length of the run of wins (or minus the run of losses) that ends the sequence, and 0 after a push |
| BlackjackTable.SettleKeepsTally | blackjack/blackjack.js:465-512 | settling counts one more game and exactly one more win, loss or push (blackjacks among the wins); pnl moves by the net; bestWin never decreases |
| BlackjackTable.ShowdownByTotals | blackjack/blackjack.js:453-461 | for a player who has not bust: a win exactly when the dealer busts or has less, a loss exactly when the dealer has more without busting, a push on equal totals, never a blackjack |
| BlackjackTable.BoundedPrependKeepsNewest | blackjack/blackjack.js:541-545 | the history keeps at most 20 entries, newest first, dropping only the oldest |
| BlackjackTable.DealKeepsCards | blackjack/blackjack.js:340-342 | popping two cards for each hand off a full deck loses no card |
| BlackjackTable.Table.constructor | blackjack/blackjack.js:712-730 | a fresh table: 1000 balance, default stats, empty history, round 0, betting phase, a full shuffled deck, and the invariant (cards kept, books balanced) |
| BlackjackTable.Table.StartRound | blackjack/blackjack.js:291-309 | with no money left nothing changes; otherwise betting phase, empty hands, zero bet, hole card hidden, fresh full deck |
| BlackjackTable.Table.AddChip | blackjack/blackjack.js:313-319 | only while betting: the bet becomes min(bet + amount, balance, 1000) |
| BlackjackTable.Table.ClearBet | blackjack/blackjack.js:321-326 | only while betting: the bet returns to 0 |
| BlackjackTable.Table.DrawCard | blackjack/blackjack.js:340 | `deck.pop()` returns the last card and removes only it |
| BlackjackTable.Table.Deal | blackjack/blackjack.js:328-368 | outside betting or with a bet under 10 nothing changes; a bet above the balance is cut to the balance and nothing else changes; otherwise the round opens as OpenRound states, the hole card left as it was unless a natural settles the round |
| BlackjackTable.Table.OpenRound | blackjack/blackjack.js:333-366 | round + 1, the bet leaves the balance, the player gets the last two cards of a fresh deck and the dealer the two before; a natural on either side is settled at once with the hole card shown: the balance gains Payout of NaturalOutcome, the stats are Settle of it and the history is BoundedPrepend of the round's entry; otherwise play goes on with the hole card as it was (hidden since startRound) and stats and history unchanged |
| BlackjackTable.Table.ResolveNaturals | blackjack/blackjack.js:349-362 | with a natural on either side: the hole card is shown and the round is settled by NaturalOutcome (result phase, balance plus its payout, stats are Settle of it, history is BoundedPrepend of the entry); without a natural play goes on unchanged |
| BlackjackTable.Table.DealHands | blackjack/blackjack.js:337-342 | the player gets the last two cards of a fresh deck and the dealer the two before; no card is lost and the player cannot have bust |
| BlackjackTable.Table.PlayerDraws | blackjack/blackjack.js:386 | while playing the deck is never empty; the player's hand gets its last card |
| BlackjackTable.Table.Hit | blackjack/blackjack.js:384-398 | only while playing: one card for the player; a bust shows the hole card and settles the round as a loss (balance, stats by Settle, history by BoundedPrepend), otherwise play goes on with money, records and the hole card unchanged |
| BlackjackTable.Table.Stand | blackjack/blackjack.js:400-406 | only while playing: the hole card is shown; the dealer draws the deck's last cards in pop order, each only while the hand is below 17, and stands at the first total of 17 or more, the deck losing exactly those cards; the round is settled by ResolveOutcome (balance plus its payout, stats by Settle, history by BoundedPrepend) |
| BlackjackTable.Table.DoubleDown | blackjack/blackjack.js:408-433 | only on two cards: up to the bet again moves from balance to bet and exactly one card is drawn; a bust leaves the dealer's hand and the rest of the deck as they were and settles a loss; otherwise the dealer plays as in Stand and ResolveOutcome settles; either way stats and history follow Settle and BoundedPrepend on the doubled bet |
| BlackjackTable.Table.FinishDouble | blackjack/blackjack.js:424-432 | after the double's card: the hole card is shown; a bust settles a loss with the dealer's hand and the deck unchanged, otherwise the dealer plays as in Stand and ResolveOutcome settles, with stats and history by Settle and BoundedPrepend |
| BlackjackTable.Table.DealerPlay | blackjack/blackjack.js:437-451 | the dealer keeps its cards and adds the deck's last cards in pop order, drawing each only while its total is below 17 and stopping at the first total of 17 or more; the deck loses exactly the cards drawn; the round is settled by ResolveOutcome: result phase, balance plus its payout, stats by Settle, history by BoundedPrepend |
| BlackjackTable.Table.DealerDraws | blackjack/blackjack.js:440-442 | while the dealer is under 17 and the player has not bust, the deck is not empty; the dealer gets its last card |
| BlackjackTable.Table.EndRound | blackjack/blackjack.js:465-535 | result phase; the balance gains Payout of the outcome; the stats are Settle of the old ones; the history is BoundedPrepend of the round's entry; the books still balance (pnl equals the change in money) |
| BlackjackTable.Table.AddHistory | blackjack/blackjack.js:541-545 | the entry goes first and the list is cut back to 20 |
| BlackjackTable.Table.ResetGame | blackjack/blackjack.js:623-633 | back to 1000, default stats, empty history, round 0, then a new round on a full deck |
| RaveSnake.UnitIsNotReversed | Rave-Snake/script.js:114-140 | a unit direction is never its own reverse, and reversing twice gives it back |
| RaveSnake.KeyDirection | Rave-Snake/script.js:114-140 | the arrow and WASD keys map to the four unit steps; other keys to none |
| RaveSnake.SteerNeverReverses | Rave-Snake/script.js:350-366 | mouse steering yields a unit step that is never the reverse of the current direction |
| RaveSnake.Steer | Rave-Snake/script.js:350-366 | the step toward the pointer along the axis on which it is further from the head's centre (vertical on a tie), or the current direction if that step would reverse it |
| RaveSnake.IsOccupied | Rave-Snake/script.js:238-242 | a cell holds a snake segment or a food item |
| RaveSnake.SpawnChoice | Rave-Snake/script.js:219-236 | the first candidate from attempt k on that is free, among the attempts spawnFood can use (the first 99) |
| RaveSnake.WithSpawn | Rave-Snake/script.js:219-236 | the food list after spawnFood: the old list plus the chosen item, if any |
| RaveSnake.Candidate | Rave-Snake/script.js:222-229 | a spawn attempt proposes a cell on the grid worth 20 or 10 points |
| RaveSnake.SpawnChoiceIsFree | Rave-Snake/script.js:219-242 | spawned food is one of the drawn candidates, lies on the grid on a cell free of snake and food, and is worth 10 or 20; no food is placed exactly when every usable attempt hit an occupied cell |
| RaveSnake.SpawnKeepsFoodPlaced | Rave-Snake/script.js:219-236 | spawning keeps every food item on a free cell of its own, keeps the old items in order, and adds at most one |
| RaveSnake.SpawnAll | Rave-Snake/script.js:192 | the food after a sequence of spawns from an empty board is well placed and holds at most one item per spawn |
| RaveSnake.FoodIndex | Rave-Snake/script.js:388 | `findIndex`: the first food item on the cell, or none exactly when no item is there |
| RaveSnake.RemoveAt | Rave-Snake/script.js:390 | `splice(i, 1)`: the list without its i-th item, the rest in order |
| RaveSnake.MoveKeepsSnake | Rave-Snake/script.js:381-402 | a head moved onto a free grid cell keeps the snake on the grid without overlap; the length grows by one on food and stays the same otherwise |
| RaveSnake.ShiftKeepsFood | Rave-Snake/script.js:381-402 | moving onto a cell without food and dropping the tail keeps all food on free cells |
| RaveSnake.EatKeepsFood | Rave-Snake/script.js:381-391 | growing onto a food item and removing that item keeps the other food on free cells of their own |
| RaveSnake.WinReached | Rave-Snake/script.js:405-418 | the mode's goal: length 30 in Classic and Speed Demon, 120 s in Time Trial, 500 points in Score Rush, never in Endless |
| RaveSnake.SpeedDemonInterval | Rave-Snake/script.js:278-280 | 150 ms minus 5 ms per segment beyond 3, but never below 50 ms |
| RaveSnake.SpeedDemonBounds | Rave-Snake/script.js:278-280 | the Speed Demon interval lies in [50, 150), falls 5 ms per extra segment down to 50 ms, and never rises as the snake grows |
| RaveSnake.DeltaTime | Rave-Snake/script.js:248 | the frame time in seconds, capped at 0.1 |
| RaveSnake.StartSnakeWellFormed | Rave-Snake/script.js:172-176 | the starting snake has three distinct cells on the grid |
| RaveSnake.SnakeGame.constructor | Rave-Snake/script.js:22-36 | the page's globals followed by startGame: a valid game in the chosen mode with the saved high score, keyboard control, the pointer at (400, 300), the start snake heading right with that direction queued, the food of three spawns on an empty board, score and clocks at zero, the base interval, the frame clock at `now`, not paused, not over, objective not complete |
| RaveSnake.SnakeGame.StartGame | Rave-Snake/script.js:168-201 | the three-cell snake heading right, score and clocks at zero, the base interval, not paused, not over, and the food from three spawns on an empty board |
| RaveSnake.SnakeGame.SpawnEach | Rave-Snake/script.js:192 | startGame's loop of spawnFood calls leaves exactly the food of one spawn per stream of draws on an empty board, so every item is on a free cell of its own |
| RaveSnake.SnakeGame.ResetBoard | Rave-Snake/script.js:170-190 | the part of startGame before the spawns: the initial snake and direction, an empty board, and every counter reset |
| RaveSnake.SnakeGame.SpawnFood | Rave-Snake/script.js:219-236 | the attempt loop adds the first free candidate, if any, and keeps the food well placed |
| RaveSnake.SnakeGame.HandleKeyDown | Rave-Snake/script.js:114-140 | Space toggles the pause unless the game is over, and resuming sets the frame clock to `now`; C flips the control mode and leaves pause and frame clock alone; a direction key is queued only when the game is not paused, not over, not under mouse control, and the key is not the reverse of the current direction; every other field is kept |
| RaveSnake.SnakeGame.TogglePause | Rave-Snake/script.js:158-166 | no effect once the game is over; otherwise the pause flips and resuming restarts the frame clock |
| RaveSnake.SnakeGame.ToggleControl | Rave-Snake/script.js:148-151 | the control mode flips |
| RaveSnake.SnakeGame.ClickCanvas | Rave-Snake/script.js:71 | a click switches to mouse control unless the game is over |
| RaveSnake.SnakeGame.HandleMouseMove | Rave-Snake/script.js:142-146 | the stored pointer is the new position |
| RaveSnake.SnakeGame.MoveSnake | Rave-Snake/script.js:349-403 | the direction taken is the mouse steering (under mouse control) or the queued one; a head off the grid or on any segment ends the game as a loss with the snake unchanged; a head on food grows the snake, removes exactly that item, adds its points and spawns; otherwise the snake shifts; the invariant is kept |
| RaveSnake.SnakeGame.Advance | Rave-Snake/script.js:368-403 | the snake takes the queued direction and moves as MoveSnake describes |
| RaveSnake.SnakeGame.MoveHead | Rave-Snake/script.js:371-403 | crash, eat or shift for a given head cell, keeping the board and the pace invariant |
| RaveSnake.SnakeGame.SteerByMouse | Rave-Snake/script.js:350-366 | under mouse control the queued direction becomes the steered one, never a reversal |
| RaveSnake.SnakeGame.Eat | Rave-Snake/script.js:381-394 | the snake grows by the head, the eaten item is removed, its points are added, and food is spawned |
| RaveSnake.SnakeGame.Shift | Rave-Snake/script.js:381-402 | the head is added and the tail dropped, with the board still valid |
| RaveSnake.SnakeGame.CheckWinCondition | Rave-Snake/script.js:405-418 | the game ends as a win, the high score raised to the score, exactly when the mode's goal is reached (length 30 in Classic and Speed Demon, 120 s in Time Trial, 500 points in Score Rush, never in Endless); otherwise nothing changes |
| RaveSnake.SnakeGame.EndGame | Rave-Snake/script.js:753-779 | the game is over, the outcome is recorded, and the high score becomes the larger of itself and the score |
| RaveSnake.SnakeGame.Update | Rave-Snake/script.js:244-287 | over or paused: nothing changes; otherwise the clocks advance by the capped frame time; when the move timer reaches the interval it restarts and the snake moves in the heading moveSnake takes (steered under mouse control, queued otherwise) exactly as MovedBoard describes, a crash ending the game, and when no goal is reached the game-over flag, the objective and the high score are as MovedTo gives them; otherwise direction, board and score are kept, and when no goal is reached the game goes on with the objective and high score as they were; Speed Demon sets the interval from the length; a reached goal ends the game as complete and raises the high score to the larger of the old high score and the score, even in a frame where the snake also crashed |
| RaveSnake.SnakeGame.Tick | Rave-Snake/script.js:248-270 | the clocks advance by the capped frame time; a due move restarts the timer and moves the snake in its heading as MovedTo describes: a crash ends the game as a loss, any other move leaves the game-over flag, the objective and the high score as they were; otherwise the game state apart from the clocks is kept |
| RaveSnake.SnakeGame.PaceAndGoal | Rave-Snake/script.js:278-283 | Speed Demon sets the interval from the length, then a reached goal ends the game as complete with the high score raised to the score if that is larger; otherwise the outcome is kept |
| RaveSnake.SnakeGame.MoveWhenDue | Rave-Snake/script.js:267-270 | once the timer reaches the interval it restarts and the snake moves in its heading, as MoveSnake states; otherwise nothing changes |
| RaveSnake.SnakeGame.AdjustSpeed | Rave-Snake/script.js:278-280 | in Speed Demon with more than 3 segments the interval follows the length; it stays within [50, 150] |
| RaveNeuron.Trunc | rave-neuron/script.js:81 | truncation toward zero, the quotient JavaScript's `%` uses |
| RaveNeuron.Rem24 | rave-neuron/script.js:81 | `t % 24` takes the sign of t and is less than 24 in size |
| RaveNeuron.Normalise | rave-neuron/script.js:81 | `((t % 24) + 24) % 24` with JavaScript's truncating remainder |
| RaveNeuron.NormaliseIsFloorMod | rave-neuron/script.js:81 | `((t % 24) + 24) % 24` is t minus a whole number of days, in [0, 24) |
| RaveNeuron.NormaliseInRange | rave-neuron/script.js:81 | an hour in [0, 24) is left as it is |
| RaveNeuron.NormalisePeriodic | rave-neuron/script.js:81 | t and t + 24 give the same hour |
| RaveNeuron.ClassIndex | rave-neuron/script.js:56-59 | the three classes are 0, 1 and 2 |
| RaveNeuron.GetTimeZone | rave-neuron/script.js:95-100 | the zone of the normalised hour: doomscroll from 20 up or below 2.5, sleep from 2.5 below 7, schoolwork otherwise |
| RaveNeuron.ZonesOfTheDay | rave-neuron/script.js:95-100 | doomscroll from 20:00 to 2:30, sleep from 2:30 to 7:00, schoolwork from 7:00 to 20:00, repeating every day |
| RaveNeuron.BoostsFavourZone | rave-neuron/script.js:80-100 | the boost of the current zone's class is 1.5, strictly above the other two, so that class is the boosts' winner |
| RaveNeuron.GetTimeBoosts | rave-neuron/script.js:80-93 | one boost per class |
| RaveNeuron.MaxOf | rave-neuron/script.js:166 | `Math.max(...s)` is an element of s and at least every element |
| RaveNeuron.IndexOf | rave-neuron/script.js:166 | `indexOf` finds the first position of the value |
| RaveNeuron.Winner | rave-neuron/script.js:166 | `indexOf(Math.max(...s))`: the first index of the largest value |
| RaveNeuron.WinnerIsFirstMax | rave-neuron/script.js:166 | the predicted class holds the largest probability and is the first index that does |
| RaveNeuron.WinnerUnique | rave-neuron/script.js:166 | conversely, the first index of a largest value is the predicted class |
| RaveNeuron.Round | rave-neuron/script.js:131 | `Math.round` lies within half a unit, halves going up |
| RaveNeuron.TwelveHour | rave-neuron/script.js:130 | the 12-hour clock hour: 0 becomes 12, 13 to 23 lose 12, 1 to 12 stay |
| RaveNeuron.FormatHourAsWritten | rave-neuron/script.js:127-134 | the label as written has an hour from 1 to 12 and a minute from 0 to 60 |
| RaveNeuron.AsWrittenShowsMinuteSixty | rave-neuron/script.js:127-134 | at hour 1.995 the label as written reads "1:60 AM" |
| RaveNeuron.FormatHour | rave-neuron/script.js:127-134 | the corrected label has an hour from 1 to 12 and a minute from 0 to 59 |
| RaveNeuron.FormatHourIsNearestMinute | rave-neuron/script.js:127-134 | the corrected label names the minute of the day nearest the hour (midnight within half a minute of the next day) |
| RaveNeuron.FormatHourAgreesBelowSixty | rave-neuron/script.js:127-134 | whenever the label as written shows a real minute, the corrected label is the same |
| RaveNeuron.LabelText | rave-neuron/script.js:133 | the text is the hour, a colon, two minute digits, then " AM" or " PM" |
| RaveNeuron.Correct | rave-neuron/script.js:795-801 | the number of correctly predicted points is at most the number of points |
| RaveNeuron.Accuracy | rave-neuron/script.js:802 | the accuracy lies in [0, 100] and is 100 exactly when every point is right |
| RaveNeuron.Trainer.constructor | rave-neuron/script.js:66-74 | the initial weights and biases, no points, nothing pending, no steps, no celebration, accuracy shown as "--" |
| RaveNeuron.Trainer.PlotClick | rave-neuron/script.js:700-723 | off the plot nothing changes; on it the click waits for a label, or becomes a point at once when a label is chosen |
| RaveNeuron.Trainer.PressLabel | rave-neuron/script.js:731-762 | the label is chosen and a waiting click becomes a point with that label |
| RaveNeuron.Trainer.TrainStep | rave-neuron/script.js:765-818 | no points: nothing changes; otherwise the new weights are taken, the step count rises by one, the accuracy is the share of correct predictions, and reaching 90% with four or more points sets off the celebration once |
| RaveNeuron.Trainer.Reset | rave-neuron/script.js:847-862 | auto-training stops and the panel returns to its starting state |

## Left out

- Rendering, sound, animation, particles, confetti, screen shake, colours and the DOM. These are presentation only. So are the snake's smoothed drawing path and the neuron's background and plot drawing.
- Persistence in localStorage: the blackjack `save`/`load` and the snake's saved high score. The blackjack table starts as on a browser with nothing saved. The snake constructor takes the saved high score as a number.
  - The source reads that high score as a string and compares it with the score using `>`. The model does not reproduce JavaScript's string-to-number coercion.
- Timers. The card-animation delays in blackjack (`setTimeout`) and the neuron's auto-train interval are taken as immediate: each action runs its continuation at once. So no action arriving during a delay is modelled.
  - Auto-training is modelled only as the flag that reset clears.
  - The snake's `requestAnimationFrame` loop becomes one `Update` call per frame, with the timestamp as a parameter.
- `Math.random()` is a parameter: the draws are passed in as reals in [0, 1).
- BlackjackCards.Shuffle: states that the result is a permutation. It does not state that every order is equally likely, because the draws are a parameter here.
- BlackjackTable.Table.StartRound: requires that no hand is in play (the betting or result phase). The page calls `startRound` at load, from the "next round" button shown in the result phase, from the Enter or Space key in the result phase (blackjack/blackjack.js:701-704), and from resetGame. resetGame can be reached in the middle of a hand, since the new-game confirmation (blackjack/blackjack.js:688) has no phase guard; BlackjackTable.Table.ResetGame sets the betting phase before it calls StartRound, so the requirement holds on that path as well.
- JavaScript numbers become Dafny reals and unbounded integers. Floating-point rounding is not modelled.
- The neuron's arithmetic is not part of this model: the logits, the softmax, the gradient step of `trainStep`, the output panel and the weight display.
  - RaveNeuron.Trainer.TrainStep receives the updated weights and biases, and the class the updated network predicts for each point. So it states what happens to them, not how they are computed.
- RaveNeuron.LabelText: states the layout of the label (the hour, a colon, two minute characters, the suffix), not which digits appear. RaveNeuron.AsWrittenShowsMinuteSixty pins one full string.
- The snake's `init` page setup runs before any game. The snake array is empty until the first `startGame`. RaveSnake.SnakeGame.constructor models init together with the first startGame, so a game object always has a snake. The menu screen, the mode buttons and the HUD are not modelled.
- Snake food colour, rotation, pulse and hue are drawn at random but never affect play. They are not modelled.
- The Julia-set pages in the repository are not part of this model.

## Findings

| source | as written | input that shows it | evidently intended | confidence | as-written member | corrected member |
|---|---|---|---|---|---|---|
| rave-neuron/script.js:127-134 | `formatHour` rounds the minutes `Math.round((hour24 - hh) * 60)` separately from the hour `Math.floor(hour24)`, so a time less than half a minute before a full hour shows the minute 60 | h = 1.995 gives "1:60 AM" (1.995 h is 1 h 59.7 min) | round the time to a whole minute first and carry into the hour: "2:00 AM" | not executed; reachable only for slider values that are not whole minutes | RaveNeuron.AsWrittenShowsMinuteSixty | RaveNeuron.FormatHourIsNearestMinute |

Two further quirks are modelled as written rather than corrected.

The first only changes a probability:
- The snake's `spawnFood` draws up to 100 candidates but tests at most 99.
- On the hundredth draw the attempt count ends the loop before the occupancy test (Rave-Snake/script.js:233).
- So a free hundredth candidate is never used.
- RaveSnake.SpawnChoiceIsFree states the exact behaviour: food is placed exactly when one of the first 99 attempts is free.

The second only changes what the game-over screen says:
- `update` calls `checkWinCondition` after `moveSnake` even when the move crashed (Rave-Snake/script.js:267-283).
- So a crash in the frame that reaches the goal (Time Trial's 120 s, for instance) is reported as an objective complete.
- RaveSnake.SnakeGame.Update states this: a reached goal leaves the game over and complete, whether or not the snake crashed.
