/**
 * The state of one Game component of the balloon-popping game, seen as a value,
 * and the five handlers of that component as transitions between such values.
 *
 * The class `App.Game` updates its fields exactly as these functions say; the
 * functions exist so that whole sequences of handler calls (a round) can be
 * reasoned about with lemmas.
 */
module GameState {

  /** Seconds on the countdown when the component mounts or is reset. */
  const InitialTimer: int := 120
  /** Score when the component mounts or is reset. */
  const InitialScore: int := 0
  /** Points awarded for popping one balloon. */
  const PopReward: int := 2

  /**
   * One balloon record: `key` is the value `Math.random()` gave when it was
   * spawned, `position` its horizontal offset in pixels.
   */
  datatype Balloon = Balloon(key: real, position: int)

  /** The four state variables of the component. */
  datatype State = State(timer: int, score: int, balloons: seq<Balloon>, isGameStarted: bool)

  /** A value `Math.random()` can return. */
  predicate IsDraw(x: real) {
    0.0 <= x < 1.0
  }

  /** The state when the component mounts. */
  function Initial(): (r: State)
    ensures Inv(r)
    ensures !r.isGameStarted && r.balloons == []
  {
    State(InitialTimer, InitialScore, [], false)
  }

  /**
   * What every reachable state satisfies (some unreachable states satisfy it
   * too): the countdown lies between zero and
   * its initial value, the score is a non-negative even number, and every
   * balloon has a non-negative position and a key that `Math.random()` can return.
   */
  ghost predicate Inv(s: State) {
    && 0 <= s.timer <= InitialTimer
    && 0 <= s.score
    && s.score % 2 == 0
    && forall i :: 0 <= i < |s.balloons| ==> 0 <= s.balloons[i].position && IsDraw(s.balloons[i].key)
  }

  /**
   * `xs.filter((_, i) => i !== index)`: keeps, in order, every element whose
   * index differs from `index`.
   */
  function WithoutIndex<T>(xs: seq<T>, index: int): (r: seq<T>)
    ensures |r| == if 0 <= index < |xs| then |xs| - 1 else |xs|
    decreases |xs|
  {
    if xs == [] then []
    else
      var last := |xs| - 1;
      WithoutIndex(xs[..last], index) + (if last != index then [xs[last]] else [])
  }

  /**
   * The filter removes exactly the element at `index` when that index is in
   * range, keeping the others in their order, and leaves the list as it was otherwise.
   */
  lemma {:induction false} WithoutIndexSplice<T>(xs: seq<T>, index: int)
    ensures 0 <= index < |xs| ==> WithoutIndex(xs, index) == xs[..index] + xs[index + 1..]
    ensures !(0 <= index < |xs|) ==> WithoutIndex(xs, index) == xs
  {
    if xs != [] {
      var last := |xs| - 1;
      var prefix := xs[..last];
      WithoutIndexSplice(prefix, index);
      if index == last {
        assert WithoutIndex(xs, index) == WithoutIndex(prefix, index);
        assert xs[index + 1..] == [];
      } else if 0 <= index < last {
        assert WithoutIndex(xs, index) == WithoutIndex(prefix, index) + [xs[last]];
        assert xs[..index] == prefix[..index];
        assert xs[index + 1..] == prefix[index + 1..] + [xs[last]];
      } else {
        assert WithoutIndex(xs, index) == WithoutIndex(prefix, index) + [xs[last]];
        assert xs == prefix + [xs[last]];
      }
    }
  }

  /** `Math.floor(draw * width)`: the horizontal position of a new balloon. */
  function SpawnPosition(draw: real, width: nat): (p: int)
    requires IsDraw(draw)
    ensures 0 <= p
    ensures width > 0 ==> p < width
    ensures width == 0 ==> p == 0
  {
    var x := draw * width as real;
    assert x < width as real || width == 0 by {
      if width > 0 {
        assert draw * width as real < 1.0 * width as real;
      }
    }
    x.Floor
  }

  /** `startGame`. */
  function Start(s: State): (r: State)
    ensures r.isGameStarted
    ensures r.timer == s.timer && r.score == s.score && r.balloons == s.balloons
    ensures Inv(s) ==> Inv(r)
  {
    s.(isGameStarted := true)
  }

  /** `resetGame`: whatever the state before, the mount-time state again. */
  function Reset(s: State): (r: State)
    ensures r == Initial()
    ensures Inv(r)
  {
    Initial()
  }

  /**
   * `handleBalloonPop(index)`: two points more, and the balloon at `index`
   * removed if there is one. The handler neither checks that a round is running
   * nor that `index` is in range.
   */
  function Pop(s: State, index: int): (r: State)
    ensures r.score == s.score + PopReward
    ensures 0 <= index < |s.balloons| ==> r.balloons == s.balloons[..index] + s.balloons[index + 1..]
    ensures !(0 <= index < |s.balloons|) ==> r.balloons == s.balloons
    ensures r.timer == s.timer && r.isGameStarted == s.isGameStarted
    ensures Inv(s) ==> Inv(r)
  {
    WithoutIndexSplice(s.balloons, index);
    s.(score := s.score + PopReward, balloons := WithoutIndex(s.balloons, index))
  }

  /**
   * `generateBalloon`, with the two `Math.random()` draws and the window width
   * as parameters: while a round runs, one balloon is appended; otherwise nothing changes.
   */
  function Spawn(s: State, keyDraw: real, positionDraw: real, width: nat): (r: State)
    requires IsDraw(keyDraw) && IsDraw(positionDraw)
    ensures !s.isGameStarted ==> r == s
    ensures s.isGameStarted ==>
      && |r.balloons| == |s.balloons| + 1
      && r.balloons[..|s.balloons|] == s.balloons
      && r.balloons[|s.balloons|].key == keyDraw
      && r.balloons[|s.balloons|].position == SpawnPosition(positionDraw, width)
      && 0 <= r.balloons[|s.balloons|].position
      && (width > 0 ==> r.balloons[|s.balloons|].position < width)
      && (width == 0 ==> r.balloons[|s.balloons|].position == 0)
    ensures r.timer == s.timer && r.score == s.score && r.isGameStarted == s.isGameStarted
    ensures Inv(s) ==> Inv(r)
  {
    if s.isGameStarted then
      s.(balloons := s.balloons + [Balloon(keyDraw, SpawnPosition(positionDraw, width))])
    else
      s
  }

  /**
   * `updateTimer`: one second off the countdown while a round runs and time is
   * left; otherwise the round is over and the countdown stays where it is.
   */
  function Tick(s: State): (r: State)
    ensures s.isGameStarted && s.timer > 0 ==> r.timer == s.timer - 1 && r.isGameStarted
    ensures !(s.isGameStarted && s.timer > 0) ==> r.timer == s.timer && !r.isGameStarted
    ensures r.score == s.score && r.balloons == s.balloons
    ensures Inv(s) ==> Inv(r)
  {
    if s.isGameStarted && s.timer > 0 then s.(timer := s.timer - 1) else s.(isGameStarted := false)
  }

  /** One call of a handler, with the random draws it makes. */
  datatype Event =
    | StartGame
    | ResetGame
    | BalloonPop(index: int)
    | GenerateBalloon(keyDraw: real, positionDraw: real, width: nat)
    | UpdateTimer

  /** The draws of a spawn are values `Math.random()` can return. */
  predicate DrawsValid(e: Event) {
    e.GenerateBalloon? ==> IsDraw(e.keyDraw) && IsDraw(e.positionDraw)
  }

  predicate AllDrawsValid(evs: seq<Event>) {
    forall i :: 0 <= i < |evs| ==> DrawsValid(evs[i])
  }

  /** The effect of one handler call. */
  function Step(s: State, e: Event): State
    requires DrawsValid(e)
  {
    match e
    case StartGame => Start(s)
    case ResetGame => Reset(s)
    case BalloonPop(index) => Pop(s, index)
    case GenerateBalloon(keyDraw, positionDraw, width) => Spawn(s, keyDraw, positionDraw, width)
    case UpdateTimer => Tick(s)
  }

  /** The state after the handler calls `evs`, in order, starting from `s`. */
  function Run(s: State, evs: seq<Event>): State
    requires AllDrawsValid(evs)
    decreases |evs|
  {
    if evs == [] then s
    else
      var last := |evs| - 1;
      Step(Run(s, evs[..last]), evs[last])
  }

  /** Whether `evs` contains a reset. */
  predicate HasReset(evs: seq<Event>) {
    exists i :: 0 <= i < |evs| && evs[i].ResetGame?
  }

  /** The number of pops in `evs` after its last reset (all of them if there is none). */
  function PopsSinceReset(evs: seq<Event>): nat
    decreases |evs|
  {
    if evs == [] then 0
    else
      var last := |evs| - 1;
      match evs[last]
      case ResetGame => 0
      case BalloonPop(_) => PopsSinceReset(evs[..last]) + 1
      case _ => PopsSinceReset(evs[..last])
  }

  /** Every sequence of handler calls from a state meeting the invariant reaches a state meeting it. */
  lemma {:induction false} RunKeepsInv(s: State, evs: seq<Event>)
    requires Inv(s)
    requires AllDrawsValid(evs)
    ensures Inv(Run(s, evs))
  {
    if evs != [] {
      var last := |evs| - 1;
      assert AllDrawsValid(evs[..last]);
      RunKeepsInv(s, evs[..last]);
    }
  }

  /** From mount time, every round keeps the countdown in [0, 120] and the score even. */
  lemma RunFromInitial(evs: seq<Event>)
    requires AllDrawsValid(evs)
    ensures 0 <= Run(Initial(), evs).timer <= InitialTimer
    ensures 0 <= Run(Initial(), evs).score && Run(Initial(), evs).score % 2 == 0
  {
    RunKeepsInv(Initial(), evs);
  }

  /**
   * The score is the starting score (zero once a reset happened) plus two
   * points for each pop since the last reset.
   */
  lemma {:induction false} RunScore(s: State, evs: seq<Event>)
    requires AllDrawsValid(evs)
    ensures Run(s, evs).score == (if HasReset(evs) then InitialScore else s.score) + PopReward * PopsSinceReset(evs)
  {
    if evs != [] {
      var last := |evs| - 1;
      var prefix := evs[..last];
      assert AllDrawsValid(prefix);
      RunScore(s, prefix);
      HasResetSnoc(evs);
      var before := Run(s, prefix);
      assert Run(s, evs) == Step(before, evs[last]);
      match evs[last]
      case ResetGame =>
      case BalloonPop(index) =>
        assert Run(s, evs).score == before.score + PopReward;
      case StartGame =>
      case GenerateBalloon(_, _, _) =>
      case UpdateTimer =>
    }
  }

  /** A non-empty list contains a reset exactly when its prefix or its last event is one. */
  lemma HasResetSnoc(evs: seq<Event>)
    requires evs != []
    ensures HasReset(evs) <==> HasReset(evs[..|evs| - 1]) || evs[|evs| - 1].ResetGame?
  {
    var prefix := evs[..|evs| - 1];
    if HasReset(prefix) {
      var i :| 0 <= i < |prefix| && prefix[i].ResetGame?;
      assert evs[i] == prefix[i];
    }
    if HasReset(evs) && !evs[|evs| - 1].ResetGame? {
      var i :| 0 <= i < |evs| && evs[i].ResetGame?;
      assert prefix[i] == evs[i];
    }
  }

  /** Without a reset, the countdown never goes up. */
  lemma {:induction false} TimerNeverRises(s: State, evs: seq<Event>)
    requires AllDrawsValid(evs)
    requires !HasReset(evs)
    ensures Run(s, evs).timer <= s.timer
  {
    if evs != [] {
      var last := |evs| - 1;
      var prefix := evs[..last];
      assert AllDrawsValid(prefix);
      assert !HasReset(prefix);
      assert !evs[last].ResetGame?;
      TimerNeverRises(s, prefix);
    }
  }

  /** Whether `evs` contains a start. */
  predicate HasStart(evs: seq<Event>) {
    exists i :: 0 <= i < |evs| && evs[i].StartGame?
  }

  /**
   * Spawning is gated on the round running: from a state where no round runs,
   * handler calls that never start one never add a balloon: every balloon
   * afterwards was already there, and none appears more often than before.
   */
  lemma {:induction false} NoSpawnWhileIdle(s: State, evs: seq<Event>)
    requires AllDrawsValid(evs)
    requires !s.isGameStarted
    requires !HasStart(evs)
    ensures !Run(s, evs).isGameStarted
    ensures |Run(s, evs).balloons| <= |s.balloons|
    ensures multiset(Run(s, evs).balloons) <= multiset(s.balloons)
  {
    if evs != [] {
      var last := |evs| - 1;
      var prefix := evs[..last];
      assert AllDrawsValid(prefix);
      assert !HasStart(prefix);
      assert !evs[last].StartGame?;
      NoSpawnWhileIdle(s, prefix);
      IdleStep(Run(s, prefix), evs[last]);
    }
  }

  /** One handler call other than a start, made while no round runs. */
  lemma IdleStep(b: State, e: Event)
    requires DrawsValid(e)
    requires !b.isGameStarted && !e.StartGame?
    ensures !Step(b, e).isGameStarted
    ensures |Step(b, e).balloons| <= |b.balloons|
    ensures multiset(Step(b, e).balloons) <= multiset(b.balloons)
  {
    if e.BalloonPop? && 0 <= e.index < |b.balloons| {
      var bs, i := b.balloons, e.index;
      assert bs == bs[..i] + [bs[i]] + bs[i + 1..];
      assert multiset(bs) == multiset(bs[..i]) + multiset{bs[i]} + multiset(bs[i + 1..]);
    }
  }

  /** `n` calls of `updateTimer` in a row. */
  function Ticks(s: State, n: nat): State
    decreases n
  {
    if n == 0 then s else Tick(Ticks(s, n - 1))
  }

  /** While time is left, each tick of a running round takes exactly one second off. */
  lemma {:induction false} TicksCountDown(s: State, n: nat)
    requires s.isGameStarted
    requires n <= s.timer
    ensures Ticks(s, n) == s.(timer := s.timer - n)
  {
    if n > 0 {
      TicksCountDown(s, n - 1);
    }
  }

  /**
   * The round ends on the tick after the countdown reaches zero: `timer + 1`
   * ticks after any state with a non-negative countdown, no round is running;
   * a round that was running has counted down to exactly zero.
   */
  lemma RoundEnds(s: State)
    requires 0 <= s.timer
    ensures !Ticks(s, s.timer + 1).isGameStarted
    ensures s.isGameStarted ==> Ticks(s, s.timer + 1).timer == 0
    ensures !s.isGameStarted ==> Ticks(s, s.timer + 1).timer == s.timer
  {
    if s.isGameStarted {
      TicksCountDown(s, s.timer);
    } else {
      IdleTicks(s, s.timer + 1);
    }
  }

  /** Ticks change nothing but end the round when none is running. */
  lemma {:induction false} IdleTicks(s: State, n: nat)
    requires !s.isGameStarted
    ensures Ticks(s, n) == s
  {
    if n > 0 {
      IdleTicks(s, n - 1);
    }
  }
}
