# Balloon game: the Game component's state machine

A small mobile game: balloons appear at random horizontal positions while a
120-second countdown runs, tapping one scores two points and removes it, and
the round ends on the first tick after the countdown has reached zero. All of its logic lives in the
`Game` component of `App.js`: four state variables (`timer`, `score`,
`balloons`, `isGameStarted`) and five handlers that overwrite them
(`startGame`, `resetGame`, `handleBalloonPop`, `generateBalloon`,
`updateTimer`).

This project models that component in Dafny in two modules:

- `App` (`app.dfy`): the class `Game` with the four state variables as fields
  and one method per handler. Each method states its new fields in terms of
  the old ones, and states that it keeps the component invariant `Valid()`.
  Each method also ties the new state to the matching transition function of
  `GameState`.
- `GameState` (`game_state.dfy`): the same state as a value (`State`), the
  handlers as transition functions (`Start`, `Reset`, `Pop`, `Spawn`,
  `Tick`), the handler calls as events, and `Run`, which replays a sequence of
  events. Lemmas about `Run` and `Ticks` state what holds across a whole
  round: the countdown stays in [0, 120], the score stays non-negative and
  even and equals two points per pop since the last reset, the countdown never
  rises without a reset, nothing spawns while no round runs, and the round
  ends one tick after the countdown reaches zero.

The randomness of `generateBalloon` is passed in. `keyDraw` and
`positionDraw` stand for the two `Math.random()` results, reals in [0, 1).
`width` stands for `window.innerWidth`. The new position is
`Math.floor(positionDraw * width)`, so it lies in [0, width) when the width is
positive and is 0 when the width is 0.

As in the source, `handleBalloonPop` neither checks that a round is running
nor that the index is in range. An out-of-range index removes nothing but
still adds two points.

## Model

| member | source | states |
|---|---|---|
| `GameState.Initial` | App.js:20-23 | The mount-time state (timer 120 and score 0 from App.js:5-6, no balloons, not started) satisfies the invariant. |
| `GameState.WithoutIndex` | App.js:42 | The filter's result is one element shorter than the list when the index is in range and exactly as long otherwise. |
| `GameState.WithoutIndexSplice` | App.js:42 | `filter((_, i) => i !== index)` removes exactly the element at an in-range index and keeps the others in their order. An out-of-range index leaves the list unchanged. |
| `GameState.SpawnPosition` | App.js:49 | The floor of a draw in [0, 1) times the window width is non-negative and below the width, or 0 when the width is 0. |
| `GameState.Start` | App.js:26-28 | The round is running afterwards; timer, score and balloons are unchanged; the invariant is kept. |
| `GameState.Reset` | App.js:31-36 | Whatever the prior state, the result is the mount-time state (120, 0, no balloons, not started), which satisfies the invariant. |
| `GameState.Pop` | App.js:39-43 | Score rises by exactly 2. An in-range index removes exactly that balloon and keeps the rest in order; otherwise the list is unchanged. Timer and flag are unchanged; the invariant is kept. |
| `GameState.Spawn` | App.js:46-53 | Not started: nothing changes. Started: exactly one balloon is appended after the untouched existing prefix. It carries the given key and the position `floor(positionDraw * width)`, which lies in [0, width) when width > 0 and is 0 when width is 0. The invariant is kept. |
| `GameState.Tick` | App.js:56-64 | Started with time left: timer drops by exactly 1 and the round keeps running. Otherwise the round ends and the timer is unchanged. Score and balloons are unchanged; the invariant is kept. |
| `GameState.RunKeepsInv` | App.js:20-64 | From any state meeting the invariant, every sequence of handler calls keeps timer in [0, 120], score non-negative and even, and balloon positions non-negative. |
| `GameState.RunFromInitial` | App.js:5-6 | From the mount-time state, every sequence of handler calls keeps `0 <= timer <= 120` and the score non-negative and even. |
| `GameState.RunScore` | App.js:31-43 | After any sequence of handler calls, the score is the starting score (0 if a reset occurred) plus 2 for each pop since the last reset. |
| `GameState.TimerNeverRises` | App.js:56-64 | Without a reset, no sequence of handler calls raises the countdown. |
| `GameState.NoSpawnWhileIdle` | App.js:46-53 | From a state where no round runs, calls that never start one leave the round stopped and never add a balloon: the final list is a sub-multiset of the starting list, so it is no longer and holds no balloon that was not there. |
| `GameState.TicksCountDown` | App.js:56-59 | During a running round, `n` ticks with `n <= timer` take exactly `n` seconds off and change nothing else. |
| `GameState.IdleTicks` | App.js:60-63 | When no round runs, ticks change nothing. |
| `GameState.RoundEnds` | App.js:56-64 | After `timer + 1` ticks no round is running. A running round has counted down to exactly 0; a stopped one kept its timer. |
| `App.Game.constructor` | App.js:20-23 | Mount-time values: timer 120, score 0, no balloons, not started. The invariant holds. |
| `App.Game.StartGame` | App.js:26-28 | Sets `isGameStarted` and leaves timer, score and balloons unchanged. |
| `App.Game.ResetGame` | App.js:31-36 | Whatever the prior state: not started, timer 120, score 0, balloons empty. |
| `App.Game.HandleBalloonPop` | App.js:39-43 | Score plus exactly 2. An in-range index shrinks the list by one, removing exactly that element and keeping the others in order. An out-of-range index leaves the list unchanged. |
| `App.Game.GenerateBalloon` | App.js:46-53 | Not started: balloons unchanged. Started: one record is appended after the untouched old prefix. It carries the given key and the position `floor(positionDraw * width)`, in [0, width) when width > 0 and 0 when width is 0. |
| `App.Game.UpdateTimer` | App.js:56-64 | Started with `timer > 0`: decrement by exactly 1 and stay started. Otherwise: stop the round and keep the timer. |

## Left out

- Rendering: the `Balloon` view and the JSX tree (App.js:9-15, App.js:87-104). The tree also decides which handlers a user can reach: balloons, and so pops, are shown only while a round runs (App.js:91), and the Start and Play Again buttons only while none runs (App.js:94-102). `Run` accepts events in any order, a superset of what the UI permits, so the invariants proved for `Run` hold for every order the UI allows.
- The `StyleSheet` constants (App.js:108-143). They are presentation only.
- The `useEffect`/`setInterval`/`clearInterval` scheduling (App.js:67-84), including the random 1000-2000 ms spawn interval. Each tick and spawn is an explicit method call or event here.
- `Math.random()` and `window.innerWidth` are external sources, so they are parameters. The draws are reals in [0, 1) and the width is a natural number. That holds on a web target; on a native runtime `window.innerWidth` is undefined, App.js:49 yields `NaN`, and the non-negative-position part of the invariant does not describe that case.
- The `onPress` closure stored in each balloon record (App.js:51). It is a function value whose only behaviour is to call `handleBalloonPop`, which is modelled.
- React's state batching and stale closures. Each handler is modelled as one atomic update of the current state. The mild case is `setScore(score + 2)` reading a captured `score`. The case with real consequences is the spawn interval (App.js:67-74): it is re-created only when `isGameStarted` changes, so its `generateBalloon` appends to the `balloons` list captured when the round started. In the running component, each spawn therefore replaces the balloon spawned before it and brings back popped ones. The `Spawn` and `GenerateBalloon` contracts describe the handler applied to the current state, not that behaviour of the running app.
- JavaScript numbers are IEEE doubles; the model uses unbounded integers and exact reals. Timer and score stay far below 2^53, where doubles represent integers exactly. `SpawnPosition` computes `floor(draw * width)` over exact reals, while the source rounds the product to a double first; for realistic widths the rounded product stays in [0, width), so the proved bounds are unaffected.
