/** The top-level game controller: single-player progression with its countdown, the
    two-player versus match (answers, health, rounds) and the peer messages an online
    match exchanges. Each state transition is a pure function on `GameState`; the class
    `AppState` holds the state the controller keeps and applies them. */
module App {
  import opened Text
  import opened Types
  import Constants

  // ---------------------------------------------------------------- peer messages

  /** The messages two online peers exchange (payloads typed by message kind). */
  datatype Message =
    | JoinMsg
    | StartMsg
    | SyncMsg
    | AnswerMsg(playerId: Side, isCorrect: bool, score: int)
    | HealthMsg(targetPlayerId: Side, newHealth: int)
    | NextMsg(levelIndex: int)
    | EndMsg(winner: Winner)

  /** What a transition does to the separate `roundWinner` state. */
  datatype RoundWinnerEffect = KeepRoundWinner | SetRoundWinner(to: Option<Side>)

  /** A transition's result: the new game state, its effect on `roundWinner` and the
      messages it sends to the peer, in order. */
  datatype Outcome = Outcome(state: GameState, roundWinner: RoundWinnerEffect, sent: seq<Message>)

  // ---------------------------------------------------------------- initial states

  /** The state before any game: the intro screen in single-player mode. */
  function InitialState(): GameState
  {
    GameState(0, 0, Constants.GAME_DURATION, Intro, Single, None, None)
  }

  function FreshPlayer(side: Side, name: string): (p: Player)
    ensures p.id == side && p.name == name
    ensures p.score == 0 && p.health == 100 && p.currentInput == "" && p.isCorrect == None
  {
    Player(side, name, 0, 100, "", None)
  }

  /** The state a versus match starts in, local or online. */
  function VersusStart(mode: Mode, name1: string, name2: string): (g: GameState)
    ensures g.currentLevelIndex == 0 && g.score == 0 && g.timeLeft == Constants.GAME_DURATION
    ensures g.status == Versus && g.gameMode == mode && g.winner == None
    ensures g.players == Some(Players(FreshPlayer(One, name1), FreshPlayer(Two, name2)))
  {
    GameState(0, 0, Constants.GAME_DURATION, Versus, mode,
      Some(Players(FreshPlayer(One, name1), FreshPlayer(Two, name2))), None)
  }

  // ---------------------------------------------------------------- versus transitions

  /** An answer is correct when it equals the level's word ignoring (ASCII) case. */
  predicate IsCorrectAnswer(answer: string, target: string)
  {
    ToLower(answer) == ToLower(target)
  }

  /** `handleVersusAnswer`: the answering player's input and verdict are recorded; a correct
      answer scores one point, names that player round winner and, online, is announced. */
  function AfterVersusAnswer(g: GameState, side: Side, answer: string, target: string): (o: Outcome)
    ensures g.players.None? ==> o == Outcome(g, KeepRoundWinner, [])
    ensures g.players.Some? ==>
      var correct := IsCorrectAnswer(answer, target);
      var before := g.players.value.Get(side);
      && o.state.players.Some?
      && o.state == g.(players := o.state.players)
      && var after := o.state.players.value.Get(side);
      && after.currentInput == answer
      && after.isCorrect == Some(correct)
      && after.score == (if correct then before.score + 1 else before.score)
      && after.(score := before.score, currentInput := before.currentInput, isCorrect := before.isCorrect) == before
      && o.state.players.value.Get(side.Other()) == g.players.value.Get(side.Other())
      && o.roundWinner == (if correct then SetRoundWinner(Some(side)) else KeepRoundWinner)
      && o.sent == (if correct && g.gameMode == Online then [AnswerMsg(side, true, after.score)] else [])
  {
    match g.players
    case None => Outcome(g, KeepRoundWinner, [])
    case Some(ps) =>
      var correct := IsCorrectAnswer(answer, target);
      var p := ps.Get(side).(currentInput := answer, isCorrect := Some(correct));
      if correct then
        var scored := p.(score := p.score + 1);
        Outcome(g.(players := Some(ps.With(side, scored))), SetRoundWinner(Some(side)),
          if g.gameMode == Online then [AnswerMsg(side, true, scored.score)] else [])
      else
        Outcome(g.(players := Some(ps.With(side, p))), KeepRoundWinner, [])
  }

  /** `Math.max(0, health - damage)` */
  function Damaged(health: int, damage: int): (h: int)
    ensures h >= 0
    ensures h == 0 <==> health <= damage
    ensures h > 0 ==> h == health - damage
  {
    if health - damage > 0 then health - damage else 0
  }

  /** `handleHealthUpdate`: the damaged player's health drops, floored at 0; health at 0 ends
      the match with the other player as winner. Online, the new health (and the end) is sent. */
  function AfterHealthUpdate(g: GameState, side: Side, damage: int): (o: Outcome)
    ensures g.players.None? ==> o == Outcome(g, KeepRoundWinner, [])
    ensures g.players.Some? ==>
      var before := g.players.value.Get(side);
      var h := Damaged(before.health, damage);
      && o.state.players == Some(g.players.value.With(side, before.(health := h)))
      && o.state.players.value.Get(side).health >= 0
      && o.state.currentLevelIndex == g.currentLevelIndex && o.state.score == g.score
      && o.state.timeLeft == g.timeLeft && o.state.gameMode == g.gameMode
      && (h == 0 ==> o.state.status == VersusResult && o.state.winner == Some(Won(side.Other())))
      && (h > 0 ==> o.state.status == g.status && o.state.winner == g.winner)
      && o.roundWinner == KeepRoundWinner
      && o.sent == (if g.gameMode != Online then []
                    else [HealthMsg(side, h)] + (if h == 0 then [EndMsg(Won(side.Other()))] else []))
  {
    match g.players
    case None => Outcome(g, KeepRoundWinner, [])
    case Some(ps) =>
      var newHealth := Damaged(ps.Get(side).health, damage);
      var updated := ps.With(side, ps.Get(side).(health := newHealth));
      var healthMsg := if g.gameMode == Online then [HealthMsg(side, newHealth)] else [];
      if newHealth <= 0 then
        var winner := Won(side.Other());
        Outcome(g.(players := Some(updated), status := VersusResult, winner := Some(winner)),
          KeepRoundWinner, healthMsg + (if g.gameMode == Online then [EndMsg(winner)] else []))
      else
        Outcome(g.(players := Some(updated)), KeepRoundWinner, healthMsg)
  }

  /** Both players with their input cleared and verdict reset, scores and health kept. */
  function ResetRound(ps: Players): (r: Players)
    ensures forall s: Side :: r.Get(s) == ps.Get(s).(currentInput := "", isCorrect := None)
  {
    Players(ps.p1.(currentInput := "", isCorrect := None), ps.p2.(currentInput := "", isCorrect := None))
  }

  /** The winner of a match that ran through every level: strictly more health wins. */
  function WinnerByHealth(h1: int, h2: int): (w: Winner)
    ensures w == Won(One) <==> h1 > h2
    ensures w == Won(Two) <==> h2 > h1
    ensures w == Draw <==> h1 == h2
  {
    if h1 > h2 then Won(One) else if h2 > h1 then Won(Two) else Draw
  }

  /** `handleVersusNextLevel` for a level list of length `levelCount`. */
  function AfterVersusNextLevel(g: GameState, levelCount: int): (o: Outcome)
    ensures g.players.None? ==> o == Outcome(g, KeepRoundWinner, [])
    ensures g.players.Some? && (g.players.value.p1.health <= 0 || g.players.value.p2.health <= 0)
      ==> o == Outcome(g, KeepRoundWinner, [])
    ensures g.players.Some? && g.players.value.p1.health > 0 && g.players.value.p2.health > 0 ==>
      var ps := g.players.value;
      if g.currentLevelIndex == levelCount - 1 then
        var w := WinnerByHealth(ps.p1.health, ps.p2.health);
        && o.state == g.(status := VersusResult, winner := Some(w))
        && o.roundWinner == KeepRoundWinner
        && o.sent == (if g.gameMode == Online then [EndMsg(w)] else [])
      else
        && o.state == g.(currentLevelIndex := g.currentLevelIndex + 1, players := Some(ResetRound(ps)))
        && o.roundWinner == SetRoundWinner(None)
        && o.sent == (if g.gameMode == Online then [NextMsg(g.currentLevelIndex + 1)] else [])
  {
    match g.players
    case None => Outcome(g, KeepRoundWinner, [])
    case Some(ps) =>
      if ps.p1.health <= 0 || ps.p2.health <= 0 then Outcome(g, KeepRoundWinner, [])
      else if g.currentLevelIndex == levelCount - 1 then
        var w := WinnerByHealth(ps.p1.health, ps.p2.health);
        Outcome(g.(status := VersusResult, winner := Some(w)), KeepRoundWinner,
          if g.gameMode == Online then [EndMsg(w)] else [])
      else
        var next := g.currentLevelIndex + 1;
        Outcome(g.(currentLevelIndex := next, players := Some(ResetRound(ps))), SetRoundWinner(None),
          if g.gameMode == Online then [NextMsg(next)] else [])
  }

  /** The registered peer-message handler (`onMessage` in the online match). */
  function AfterMessage(g: GameState, m: Message): (o: Outcome)
    ensures o.sent == []
    ensures m.JoinMsg? || m.StartMsg? || m.SyncMsg? ==> o == Outcome(g, KeepRoundWinner, [])
    ensures m.AnswerMsg? ==>
      if m.isCorrect && g.players.Some? then
        var before := g.players.value.Get(m.playerId);
        && o.state == g.(players := Some(g.players.value.With(m.playerId,
                                             before.(score := m.score, isCorrect := Some(true)))))
        && o.roundWinner == SetRoundWinner(Some(m.playerId))
      else o == Outcome(g, KeepRoundWinner, [])
    ensures m.HealthMsg? ==>
      if g.players.None? then o == Outcome(g, KeepRoundWinner, [])
      else
        var ps := g.players.value.With(m.targetPlayerId,
                    g.players.value.Get(m.targetPlayerId).(health := m.newHealth));
        && o.roundWinner == KeepRoundWinner
        && o.state == if m.newHealth <= 0
                      then g.(players := Some(ps), status := VersusResult, winner := Some(Won(m.targetPlayerId.Other())))
                      else g.(players := Some(ps))
    ensures m.NextMsg? ==>
      if g.players.None? then o == Outcome(g, KeepRoundWinner, [])
      else
        && o.state == g.(currentLevelIndex := m.levelIndex, players := Some(ResetRound(g.players.value)))
        && o.roundWinner == SetRoundWinner(None)
    ensures m.EndMsg? ==>
      o == Outcome(g.(status := VersusResult, winner := Some(m.winner)), KeepRoundWinner, [])
  {
    match m
    case AnswerMsg(pid, isCorrect, score) =>
      if isCorrect && g.players.Some? then
        var ps := g.players.value;
        Outcome(g.(players := Some(ps.With(pid, ps.Get(pid).(score := score, isCorrect := Some(true))))),
          SetRoundWinner(Some(pid)), [])
      else Outcome(g, KeepRoundWinner, [])
    case HealthMsg(target, newHealth) =>
      if g.players.None? then Outcome(g, KeepRoundWinner, [])
      else
        var ps := g.players.value;
        var updated := ps.With(target, ps.Get(target).(health := newHealth));
        if newHealth <= 0 then
          Outcome(g.(players := Some(updated), status := VersusResult, winner := Some(Won(target.Other()))),
            KeepRoundWinner, [])
        else Outcome(g.(players := Some(updated)), KeepRoundWinner, [])
    case NextMsg(levelIndex) =>
      if g.players.None? then Outcome(g, KeepRoundWinner, [])
      else Outcome(g.(currentLevelIndex := levelIndex, players := Some(ResetRound(g.players.value))),
             SetRoundWinner(None), [])
    case EndMsg(w) => Outcome(g.(status := VersusResult, winner := Some(w)), KeepRoundWinner, [])
    case _ => Outcome(g, KeepRoundWinner, [])
  }

  // ---------------------------------------------------------------- single-player transitions

  /** `handleLevelComplete`: the earned points are added; the last level ends the game,
      any other level advances to the next one. */
  function AfterLevelComplete(g: GameState, levelCount: int, earned: int): (r: GameState)
    ensures r.score == g.score + earned
    ensures g.currentLevelIndex == levelCount - 1 ==> r == g.(score := r.score, status := GameOver)
    ensures g.currentLevelIndex != levelCount - 1 ==>
      r == g.(score := r.score, currentLevelIndex := g.currentLevelIndex + 1)
  {
    if g.currentLevelIndex == levelCount - 1 then g.(score := g.score + earned, status := GameOver)
    else g.(score := g.score + earned, currentLevelIndex := g.currentLevelIndex + 1)
  }

  /** One tick of the one-second interval: count down, and at zero end the game. */
  function AfterTick(g: GameState): (r: GameState)
    ensures g.timeLeft <= 0 ==> r == g.(status := GameOver)
    ensures g.timeLeft > 0 ==> r == g.(timeLeft := g.timeLeft - 1) && r.timeLeft >= 0
  {
    if g.timeLeft <= 0 then g.(status := GameOver) else g.(timeLeft := g.timeLeft - 1)
  }

  /** `n` ticks of a running interval. The interval stops itself on the tick that ends the
      game, so ticks after that one change nothing. */
  function Ticks(g: GameState, n: nat): GameState
    decreases n
  {
    if n == 0 then g
    else if g.timeLeft <= 0 then AfterTick(g)
    else Ticks(AfterTick(g), n - 1)
  }

  // ---------------------------------------------------------------- properties

  /** A correct answer scores exactly one point for the answering player; a wrong one scores
      nothing; nobody else's score moves. */
  lemma AnswerScoresIffCorrect(g: GameState, side: Side, answer: string, target: string)
    requires g.players.Some?
    ensures var after := AfterVersusAnswer(g, side, answer, target).state.players.value;
      && (after.Get(side).score == g.players.value.Get(side).score + 1 <==> IsCorrectAnswer(answer, target))
      && (after.Get(side).score == g.players.value.Get(side).score <==> !IsCorrectAnswer(answer, target))
      && after.Get(side.Other()).score == g.players.value.Get(side.Other()).score
  {}

  /** Nothing guards a round once it has a winner: when both players answer correctly in
      turn, both score, and the later answer overwrites the round winner. */
  lemma SecondCorrectAnswerAlsoScores(g: GameState, first: Side, a1: string, a2: string, target: string)
    requires g.players.Some?
    requires IsCorrectAnswer(a1, target) && IsCorrectAnswer(a2, target)
    ensures var o1 := AfterVersusAnswer(g, first, a1, target);
      var o2 := AfterVersusAnswer(o1.state, first.Other(), a2, target);
      && o2.state.players.value.Get(first).score == g.players.value.Get(first).score + 1
      && o2.state.players.value.Get(first.Other()).score == g.players.value.Get(first.Other()).score + 1
      && o2.roundWinner == SetRoundWinner(Some(first.Other()))
  {
    var o1 := AfterVersusAnswer(g, first, a1, target);
    assert o1.state.players.value.Get(first.Other()) == g.players.value.Get(first.Other());
  }

  /** Health never becomes negative through a local update, whatever the damage. */
  lemma HealthStaysNonNegative(g: GameState, side: Side, damage: int)
    requires g.players.Some?
    requires forall s: Side :: g.players.value.Get(s).health >= 0
    ensures forall s: Side :: AfterHealthUpdate(g, side, damage).state.players.value.Get(s).health >= 0
  {
    var r := AfterHealthUpdate(g, side, damage).state.players.value;
    forall s: Side ensures r.Get(s).health >= 0 {
      if s != side { assert s == side.Other(); }
    }
  }

  /** A peer that applies the messages a local health update sent, to the same prior state,
      reaches the same game state. */
  lemma HealthMessagesReplay(g: GameState, side: Side, damage: int)
    requires g.players.Some? && g.gameMode == Online
    ensures var o := AfterHealthUpdate(g, side, damage);
      (if |o.sent| == 1 then AfterMessage(g, o.sent[0]).state
       else AfterMessage(AfterMessage(g, o.sent[0]).state, o.sent[1]).state) == o.state
  {}

  /** A remote `next` carrying the following index has the same effect as advancing locally. */
  lemma RemoteNextMatchesLocalNext(g: GameState, levelCount: int)
    requires g.players.Some? && g.players.value.p1.health > 0 && g.players.value.p2.health > 0
    requires g.currentLevelIndex != levelCount - 1
    ensures var local := AfterVersusNextLevel(g, levelCount);
      && local.sent == (if g.gameMode == Online then [NextMsg(g.currentLevelIndex + 1)] else [])
      && AfterMessage(g, NextMsg(g.currentLevelIndex + 1)) == local.(sent := [])
  {}

  /** Starting from `t >= 0` seconds, the game is over after exactly `t + 1` ticks, with the
      clock at 0, and not before. */
  lemma {:induction false} CountdownEndsGame(g: GameState, n: nat)
    requires g.timeLeft >= 0 && g.status != GameOver
    ensures n <= g.timeLeft ==> Ticks(g, n) == g.(timeLeft := g.timeLeft - n)
    ensures n > g.timeLeft ==> Ticks(g, n) == g.(timeLeft := 0, status := GameOver)
    decreases n
  {
    if n > 0 && g.timeLeft > 0 {
      CountdownEndsGame(AfterTick(g), n - 1);
    }
  }

  /** Playing through the levels one by one: after completing levels `0..k` of `levelCount`,
      with `k` before the last, the game is still on at level `k + 1`. */
  lemma LevelCompleteAdvancesUntilLast(g: GameState, levelCount: int, earned: int)
    requires 0 <= g.currentLevelIndex < levelCount
    ensures var r := AfterLevelComplete(g, levelCount, earned);
      (r.status == GameOver && r.status != g.status) ==> g.currentLevelIndex == levelCount - 1
    ensures AfterLevelComplete(g, levelCount, earned).currentLevelIndex < levelCount
  {}

  // ---------------------------------------------------------------- the controller

  class AppState {
    var levels: seq<QuizLevel>
    var state: GameState
    var roundWinner: Option<Side>
    /** Whether the one-second interval is running. */
    var timerRunning: bool
    /** Whether the online message handler is registered with the peer connection. */
    var listening: bool
    /** Every message sent to the peer so far, in order. */
    var outbox: seq<Message>
    var onlineRoomId: Option<string>
    var isOnlineHost: bool
    var isPlayer2Connected: bool

    /** Levels come from storage when present and readable (`saved`), else the built-in
        ones; a non-empty `room` parameter in the address opens the online waiting room. */
    constructor (saved: Option<seq<QuizLevel>>, roomParam: string)
      ensures levels == (if saved.Some? then saved.value else Constants.LEVELS)
      ensures state == (if roomParam != "" then InitialState().(status := OnlineWaiting) else InitialState())
      ensures onlineRoomId == (if roomParam != "" then Some(roomParam) else None)
      ensures roundWinner == None && !timerRunning && !listening && outbox == []
      ensures !isOnlineHost && !isPlayer2Connected
    {
      levels := if saved.Some? then saved.value else Constants.LEVELS;
      if roomParam != "" {
        onlineRoomId := Some(roomParam);
        state := InitialState().(status := OnlineWaiting);
      } else {
        onlineRoomId := None;
        state := InitialState();
      }
      roundWinner := None;
      timerRunning := false;
      listening := false;
      outbox := [];
      isOnlineHost := false;
      isPlayer2Connected := false;
    }

    /** The effect that registers the message handler whenever an online match is in its
        `versus` phase. Nothing unregisters it except the cleanup in `ResetGame` and
        `OnlineBack`, so it stays registered once the match ends. */
    method Commit(o: Outcome)
      modifies this
      ensures state == o.state
      ensures roundWinner == (if o.roundWinner.SetRoundWinner? then o.roundWinner.to else old(roundWinner))
      ensures outbox == old(outbox) + o.sent
      ensures listening == (old(listening) || (o.state.status == Versus && o.state.gameMode == Online))
      ensures levels == old(levels) && timerRunning == old(timerRunning)
      ensures onlineRoomId == old(onlineRoomId) && isOnlineHost == old(isOnlineHost)
      ensures isPlayer2Connected == old(isPlayer2Connected)
    {
      state := o.state;
      if o.roundWinner.SetRoundWinner? {
        roundWinner := o.roundWinner.to;
      }
      outbox := outbox + o.sent;
      listening := listening || (state.status == Versus && state.gameMode == Online);
    }

    /** `saveLevels` (the store write is not modelled). */
    method SaveLevels(newLevels: seq<QuizLevel>)
      modifies this`levels
      ensures levels == newLevels
    {
      levels := newLevels;
    }

    /** `startGame`: refused without levels; otherwise a fresh single-player game whose
        interval is (re)started. */
    method StartGame() returns (started: bool)
      modifies this`state, this`timerRunning
      ensures started == (|old(levels)| > 0)
      ensures started ==> state == InitialState().(status := Playing) && timerRunning
      ensures !started ==> state == old(state) && timerRunning == old(timerRunning)
    {
      if |levels| == 0 {
        return false;
      }
      state := InitialState().(status := Playing);
      timerRunning := true;
      return true;
    }

    /** `startVersusGame`: refused without levels; otherwise a local match with two fresh
        players at 100 health. The single-player interval is left as it was. */
    method StartVersusGame() returns (started: bool)
      modifies this
      ensures started == (|old(levels)| > 0)
      ensures started ==> state == VersusStart(VersusMode, "Player 1", "Player 2")
                          && roundWinner == None && !isPlayer2Connected
      ensures !started ==> state == old(state) && roundWinner == old(roundWinner)
                           && isPlayer2Connected == old(isPlayer2Connected)
      ensures levels == old(levels) && timerRunning == old(timerRunning) && outbox == old(outbox)
      ensures listening == old(listening) && onlineRoomId == old(onlineRoomId)
      ensures isOnlineHost == old(isOnlineHost)
    {
      if |levels| == 0 {
        return false;
      }
      isPlayer2Connected := false;
      state := VersusStart(VersusMode, "Player 1", "Player 2");
      roundWinner := None;
      return true;
    }

    /** `handlePlayer2Join` */
    method Player2Join()
      modifies this`isPlayer2Connected
      ensures isPlayer2Connected
    {
      isPlayer2Connected := true;
    }

    /** `createRoom`: refused without levels; otherwise the online waiting room. */
    method CreateRoom() returns (entered: bool)
      modifies this`state, this`onlineRoomId
      ensures entered == (|old(levels)| > 0)
      ensures entered ==> state == old(state).(status := OnlineWaiting) && onlineRoomId == None
      ensures !entered ==> state == old(state) && onlineRoomId == old(onlineRoomId)
    {
      if |levels| == 0 {
        return false;
      }
      onlineRoomId := None;
      state := state.(status := OnlineWaiting);
      return true;
    }

    /** `handleOnlineGameStart`: an online match between the host and the guest. */
    method OnlineGameStart(roomId: string, isHost: bool, hostName: string, guestName: string)
      modifies this
      ensures isOnlineHost == isHost && onlineRoomId == Some(roomId) && isPlayer2Connected
      ensures state == VersusStart(Online, hostName, guestName) && roundWinner == None
      ensures listening
      ensures levels == old(levels) && timerRunning == old(timerRunning) && outbox == old(outbox)
    {
      isOnlineHost := isHost;
      onlineRoomId := Some(roomId);
      isPlayer2Connected := true;
      Commit(Outcome(VersusStart(Online, hostName, guestName), SetRoundWinner(None), []));
    }

    /** `handleOnlineBack`: the peer connection is cleaned up and the intro shown. */
    method OnlineBack()
      modifies this`state, this`onlineRoomId, this`listening
      ensures !listening && onlineRoomId == None && state == old(state).(status := Intro)
    {
      listening := false;
      onlineRoomId := None;
      state := state.(status := Intro);
    }

    /** `handleVersusAnswer`; the current level must exist, as the handler reads its word. */
    method VersusAnswer(side: Side, answer: string)
      requires 0 <= state.currentLevelIndex < |levels|
      modifies this
      ensures var o := AfterVersusAnswer(old(state), side, answer, old(levels)[old(state).currentLevelIndex].targetWord);
        && state == o.state
        && roundWinner == (if o.roundWinner.SetRoundWinner? then o.roundWinner.to else old(roundWinner))
        && outbox == old(outbox) + o.sent
      ensures levels == old(levels) && timerRunning == old(timerRunning)
      ensures listening == (old(listening) || (AfterVersusAnswer(old(state), side, answer, old(levels)[old(state).currentLevelIndex].targetWord).state.status == Versus && AfterVersusAnswer(old(state), side, answer, old(levels)[old(state).currentLevelIndex].targetWord).state.gameMode == Online))
      ensures onlineRoomId == old(onlineRoomId) && isOnlineHost == old(isOnlineHost)
      ensures isPlayer2Connected == old(isPlayer2Connected)
    {
      Commit(AfterVersusAnswer(state, side, answer, levels[state.currentLevelIndex].targetWord));
    }

    /** `handleHealthUpdate` */
    method HealthUpdate(side: Side, damage: int)
      modifies this
      ensures var o := AfterHealthUpdate(old(state), side, damage);
        state == o.state && roundWinner == old(roundWinner) && outbox == old(outbox) + o.sent
      ensures levels == old(levels) && timerRunning == old(timerRunning)
      ensures listening == (old(listening) || (AfterHealthUpdate(old(state), side, damage).state.status == Versus && AfterHealthUpdate(old(state), side, damage).state.gameMode == Online))
      ensures onlineRoomId == old(onlineRoomId) && isOnlineHost == old(isOnlineHost)
      ensures isPlayer2Connected == old(isPlayer2Connected)
    {
      Commit(AfterHealthUpdate(state, side, damage));
    }

    /** `handleVersusNextLevel` */
    method VersusNextLevel()
      modifies this
      ensures var o := AfterVersusNextLevel(old(state), |old(levels)|);
        && state == o.state
        && roundWinner == (if o.roundWinner.SetRoundWinner? then o.roundWinner.to else old(roundWinner))
        && outbox == old(outbox) + o.sent
      ensures levels == old(levels) && timerRunning == old(timerRunning)
      ensures listening == (old(listening) || (AfterVersusNextLevel(old(state), |old(levels)|).state.status == Versus && AfterVersusNextLevel(old(state), |old(levels)|).state.gameMode == Online))
      ensures onlineRoomId == old(onlineRoomId) && isOnlineHost == old(isOnlineHost)
      ensures isPlayer2Connected == old(isPlayer2Connected)
    {
      Commit(AfterVersusNextLevel(state, |levels|));
    }

    /** A message from the peer reaches the game only while the handler is registered. */
    method ReceiveMessage(m: Message)
      modifies this
      ensures !old(listening) ==> state == old(state) && roundWinner == old(roundWinner)
      ensures old(listening) ==> var o := AfterMessage(old(state), m);
        state == o.state && roundWinner == (if o.roundWinner.SetRoundWinner? then o.roundWinner.to else old(roundWinner))
      ensures outbox == old(outbox) && levels == old(levels) && timerRunning == old(timerRunning)
      ensures listening == old(listening)
      ensures onlineRoomId == old(onlineRoomId) && isOnlineHost == old(isOnlineHost)
      ensures isPlayer2Connected == old(isPlayer2Connected)
    {
      if listening {
        Commit(AfterMessage(state, m));
      }
    }

    /** `handleLevelComplete`; the interval is stopped when the last level is done. */
    method LevelComplete(earned: int)
      modifies this`state, this`timerRunning
      ensures state == AfterLevelComplete(old(state), |levels|, earned)
      ensures timerRunning == (old(timerRunning) && old(state).currentLevelIndex != |levels| - 1)
    {
      if state.currentLevelIndex == |levels| - 1 {
        timerRunning := false;
      }
      state := AfterLevelComplete(state, |levels|, earned);
    }

    /** One second of the interval, if it is running; the tick that ends the game also
        stops the interval. */
    method TimerTick()
      modifies this`state, this`timerRunning
      ensures old(timerRunning) ==> state == AfterTick(old(state)) && timerRunning == (old(state).timeLeft > 0)
      ensures !old(timerRunning) ==> state == old(state) && !timerRunning
    {
      if timerRunning {
        if state.timeLeft <= 0 {
          timerRunning := false;
        }
        state := AfterTick(state);
      }
    }

    /** `resetGame`: back to the intro, with the peer connection and the interval stopped. */
    method ResetGame()
      modifies this
      ensures state == InitialState() && roundWinner == None
      ensures !timerRunning && !listening && onlineRoomId == None && !isOnlineHost
      ensures levels == old(levels) && outbox == old(outbox)
      ensures isPlayer2Connected == old(isPlayer2Connected)
    {
      listening := false;
      onlineRoomId := None;
      isOnlineHost := false;
      state := InitialState();
      roundWinner := None;
      timerRunning := false;
    }
  }
}
