/**
 * The Game component's state machine: its four state variables as fields and
 * its five handlers as methods that overwrite them. Each handler is an atomic
 * update; the rendering, the intervals that call `GenerateBalloon` and
 * `UpdateTimer`, and the `Math.random()` draws are outside (the draws are parameters).
 */
module App {
  import opened GameState

  class Game {
    var timer: int
    var score: int
    var balloons: seq<Balloon>
    var isGameStarted: bool

    /** The four fields as one value. */
    function Snapshot(): State
      reads this
    {
      State(timer, score, balloons, isGameStarted)
    }

    /** The component's invariant: its state meets `Inv`, which every reachable state does. */
    ghost predicate Valid()
      reads this
    {
      Inv(Snapshot())
    }

    /** Mounting the component: the `useState` initial values. */
    constructor ()
      ensures timer == InitialTimer && score == InitialScore
      ensures balloons == [] && !isGameStarted
      ensures Snapshot() == Initial()
      ensures Valid()
    {
      timer := InitialTimer;
      score := InitialScore;
      balloons := [];
      isGameStarted := false;
    }

    /** `startGame`: the round runs; nothing else changes. */
    method StartGame()
      modifies this
      ensures isGameStarted
      ensures timer == old(timer) && score == old(score) && balloons == old(balloons)
      ensures Snapshot() == Start(old(Snapshot()))
      ensures old(Valid()) ==> Valid()
    {
      isGameStarted := true;
    }

    /** `resetGame`: whatever the state before, the mount-time values again. */
    method ResetGame()
      modifies this
      ensures !isGameStarted
      ensures timer == InitialTimer && score == InitialScore && balloons == []
      ensures Snapshot() == Reset(old(Snapshot()))
      ensures Valid()
    {
      isGameStarted := false;
      timer := InitialTimer;
      score := InitialScore;
      balloons := [];
    }

    /**
     * `handleBalloonPop(index)`: two points more and the balloon at `index`
     * removed, the others kept in order; an index out of range removes nothing
     * but still scores.
     */
    method HandleBalloonPop(index: int)
      modifies this
      ensures score == old(score) + PopReward
      ensures 0 <= index < |old(balloons)| ==>
        && |balloons| == |old(balloons)| - 1
        && balloons == old(balloons)[..index] + old(balloons)[index + 1..]
      ensures !(0 <= index < |old(balloons)|) ==> balloons == old(balloons)
      ensures timer == old(timer) && isGameStarted == old(isGameStarted)
      ensures Snapshot() == Pop(old(Snapshot()), index)
      ensures old(Valid()) ==> Valid()
    {
      WithoutIndexSplice(balloons, index);
      score := score + PopReward;
      balloons := WithoutIndex(balloons, index);
    }

    /**
     * `generateBalloon`: while the round runs, appends one balloon whose key is
     * `keyDraw` and whose position is `Math.floor(positionDraw * width)`, both
     * draws coming from `Math.random()` and `width` being the window's width.
     */
    method GenerateBalloon(keyDraw: real, positionDraw: real, width: nat)
      requires IsDraw(keyDraw) && IsDraw(positionDraw)
      modifies this
      ensures !old(isGameStarted) ==> balloons == old(balloons)
      ensures old(isGameStarted) ==>
        && |balloons| == |old(balloons)| + 1
        && balloons[..|old(balloons)|] == old(balloons)
        && balloons[|old(balloons)|].key == keyDraw
        && balloons[|old(balloons)|].position == SpawnPosition(positionDraw, width)
        && 0 <= balloons[|old(balloons)|].position
        && (width > 0 ==> balloons[|old(balloons)|].position < width)
        && (width == 0 ==> balloons[|old(balloons)|].position == 0)
      ensures timer == old(timer) && score == old(score) && isGameStarted == old(isGameStarted)
      ensures Snapshot() == Spawn(old(Snapshot()), keyDraw, positionDraw, width)
      ensures old(Valid()) ==> Valid()
    {
      if isGameStarted {
        var randomPosition := SpawnPosition(positionDraw, width);
        balloons := balloons + [Balloon(keyDraw, randomPosition)];
      }
    }

    /**
     * `updateTimer`: one second off while the round runs and time is left;
     * otherwise the round ends and the countdown stays.
     */
    method UpdateTimer()
      modifies this
      ensures old(isGameStarted) && old(timer) > 0 ==> timer == old(timer) - 1 && isGameStarted
      ensures !(old(isGameStarted) && old(timer) > 0) ==> timer == old(timer) && !isGameStarted
      ensures score == old(score) && balloons == old(balloons)
      ensures Snapshot() == Tick(old(Snapshot()))
      ensures old(Valid()) ==> Valid()
    {
      if isGameStarted && timer > 0 {
        timer := timer - 1;
      } else {
        isGameStarted := false;
      }
    }
  }
}
