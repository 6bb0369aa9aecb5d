/** The server's Ludo rules (server.py): a 52-square ring followed by a 6-step home stretch,
    tokens that leave home only on a six, finish at 58 steps or more, and send opponents home
    by landing on them outside the safe squares; plus the dice and turn bookkeeping of the
    roll and move handlers. Dice values are parameters: the random roll is not modelled. */
module Ludo {
  import opened Common

  const MainLen: int := 52
  const HomeLen: int := 6
  const TotalSteps: int := MainLen + HomeLen

  /** Step count of a token still at home. */
  const Home: int := -1
  /** Step count of a finished token. */
  const Finished: int := 999

  /** Ring square on which each of up to four players starts. */
  const StartIdx: seq<int> := [0, 13, 26, 39]

  /** Ring squares on which no token can be captured. */
  const SafeSquares: set<int> := {0, 8, 13, 21, 26, 34, 39, 47}

  /** A step count a token can have: at home, on the ring or the home stretch, or finished. */
  predicate TokenState(steps: int)
  {
    steps == Home || 0 <= steps < TotalSteps || steps == Finished
  }

  /** steps_to_board_index: the ring square of a token that has gone `steps` from `start`, or
      None once it has left the ring (or not entered it). */
  function StepsToBoardIndex(start: int, steps: int): (square: Option<int>)
    requires start >= 0
    ensures square.Some? <==> 0 <= steps < MainLen
    ensures square.Some? ==> 0 <= square.value < MainLen
  {
    if 0 <= steps < MainLen then Some((start + steps) % MainLen) else None
  }

  /** For one start square, different step counts on the ring give different squares. */
  lemma RingSquaresDistinct(start: int, s1: int, s2: int)
    requires start >= 0 && 0 <= s1 < MainLen && 0 <= s2 < MainLen && s1 != s2
    ensures StepsToBoardIndex(start, s1) != StepsToBoardIndex(start, s2)
  {
  }

  /** One more step on the ring is the next square, wrapping from 51 back to 0; a token at
      step 0 stands on its start square. */
  lemma NextRingSquare(start: int, steps: int)
    requires 0 <= start < MainLen && 0 <= steps && steps + 1 < MainLen
    ensures StepsToBoardIndex(start, 0) == Some(start)
    ensures StepsToBoardIndex(start, steps + 1).value == (StepsToBoardIndex(start, steps).value + 1) % MainLen
  {
  }

  /** Every player's start square is safe. */
  lemma StartSquaresAreSafe(player: nat)
    ensures StepsToBoardIndex(StartIdx[player % 4], 0) == Some(StartIdx[player % 4])
    ensures StartIdx[player % 4] in SafeSquares
  {
  }

  /** list.index: the position of the first occurrence of sid. */
  function IndexOf(order: seq<Sid>, sid: Sid): (i: nat)
    requires sid in order
    ensures i < |order| && order[i] == sid && sid !in order[..i]
  {
    if order[0] == sid then 0
    else
      var i := 1 + IndexOf(order[1..], sid);
      assert order[..i] == [order[0]] + order[1..][..i - 1];
      i
  }

  /** The start square of a player: by seat, the seat counted modulo four. */
  function StartOf(order: seq<Sid>, sid: Sid): (start: int)
    requires sid in order
    ensures start in StartIdx && start >= 0
  {
    StartIdx[IndexOf(order, sid) % 4]
  }

  /** Python's list indexing: a negative index counts from the end; anything else out of range
      raises. */
  function PyIndex(i: int, n: nat): (k: Option<nat>)
    ensures k.Some? <==> -(n as int) <= i < n
    ensures k.Some? ==> k.value < n && (k.value == i || k.value == n + i)
  {
    if 0 <= i < n then Some(i) else if -(n as int) <= i < 0 then Some(n + i) else None
  }

  /** A token of a player starting at `start` with step count `steps` stands on ring square
      `square`. */
  predicate OnSquare(steps: int, start: int, square: int)
    requires start >= 0
  {
    0 <= steps < MainLen && StepsToBoardIndex(start, steps) == Some(square)
  }

  /** One opponent's tokens after a capture on `square`: those standing there go home. */
  function SendHome(toks: seq<int>, start: int, square: int): (r: seq<int>)
    requires start >= 0
    ensures |r| == |toks|
    ensures forall j :: 0 <= j < |toks| ==> r[j] == if OnSquare(toks[j], start, square) then Home else toks[j]
  {
    seq(|toks|, j requires 0 <= j < |toks| => if OnSquare(toks[j], start, square) then Home else toks[j])
  }

  /** The inner capture loop of move_token over one opponent's tokens. */
  method SendHomeAll(toks: seq<int>, start: int, square: int) returns (sent: seq<int>)
    requires start >= 0
    ensures sent == SendHome(toks, start, square)
  {
    sent := toks;
    for j := 0 to |toks|
      invariant |sent| == |toks|
      invariant forall k :: 0 <= k < j ==> sent[k] == SendHome(toks, start, square)[k]
      invariant forall k :: j <= k < |toks| ==> sent[k] == toks[k]
    {
      if 0 <= sent[j] < MainLen && StepsToBoardIndex(start, sent[j]) == Some(square) {
        sent := sent[j := Home];
      }
    }
  }

  /** All tokens after `mover` captures on `square`: every other player's tokens on it go home;
      the mover's tokens stay. */
  function CaptureAt(tokens: map<Sid, seq<int>>, order: seq<Sid>, mover: Sid, square: int): (after: map<Sid, seq<int>>)
    requires forall s :: s in tokens ==> s in order
    ensures after.Keys == tokens.Keys
    ensures mover in tokens ==> after[mover] == tokens[mover]
    ensures forall s :: s in tokens && s != mover ==> after[s] == SendHome(tokens[s], StartOf(order, s), square)
  {
    map s | s in tokens :: if s == mover then tokens[s] else SendHome(tokens[s], StartOf(order, s), square)
  }

  /** A map that agrees with CaptureAt key by key is CaptureAt. */
  lemma CaptureAtPointwise(tokens: map<Sid, seq<int>>, order: seq<Sid>, mover: Sid, square: int, after: map<Sid, seq<int>>)
    requires forall s :: s in tokens ==> s in order
    requires after.Keys == tokens.Keys
    requires forall s :: s in tokens ==> after[s] == if s == mover then tokens[s] else SendHome(tokens[s], StartOf(order, s), square)
    ensures after == CaptureAt(tokens, order, mover, square)
  {
  }

  /** The on-board branch of move_token: token i of sid advances by the dice; see AdvanceRule. */
  function Advance(tokens: map<Sid, seq<int>>, order: seq<Sid>, sid: Sid, i: nat, dice: int)
    : (after: map<Sid, seq<int>>)
    requires forall s :: s in tokens ==> s in order
    requires sid in tokens && i < |tokens[sid]|
    ensures after.Keys == tokens.Keys
  {
    var toks := tokens[sid];
    var moved := toks[i] + dice;
    if moved >= TotalSteps then tokens[sid := toks[i := Finished]]
    else
      var advanced := tokens[sid := toks[i := moved]];
      var landing := StepsToBoardIndex(StartOf(order, sid), moved);
      if landing.Some? && landing.value !in SafeSquares then CaptureAt(advanced, order, sid, landing.value)
      else advanced
  }

  /** Advance below TotalSteps, by its branches. */
  lemma AdvanceOnRing(tokens: map<Sid, seq<int>>, order: seq<Sid>, sid: Sid, i: nat, dice: int,
                      advanced: map<Sid, seq<int>>, landing: Option<int>)
    requires forall s :: s in tokens ==> s in order
    requires sid in tokens && i < |tokens[sid]| && tokens[sid][i] + dice < TotalSteps
    requires advanced == tokens[sid := tokens[sid][i := tokens[sid][i] + dice]]
    requires landing == StepsToBoardIndex(StartOf(order, sid), tokens[sid][i] + dice)
    ensures forall s :: s in advanced ==> s in order
    ensures Advance(tokens, order, sid, i, dice) ==
      if landing.Some? && landing.value !in SafeSquares then CaptureAt(advanced, order, sid, landing.value)
      else advanced
  {
  }

  /** An on-board token advances by exactly the dice and finishes (999) at TotalSteps or more,
      with no capture; otherwise, when it lands on a ring square outside the safe set, every
      opponent token on that square goes home. The mover's other tokens, and opponents'
      home-stretch tokens and tokens elsewhere, are untouched. */
  lemma AdvanceRule(tokens: map<Sid, seq<int>>, order: seq<Sid>, sid: Sid, i: nat, dice: int)
    requires forall s :: s in tokens ==> s in order
    requires sid in tokens && i < |tokens[sid]|
    ensures var after := Advance(tokens, order, sid, i, dice);
      && (forall s :: s in tokens ==> |after[s]| == |tokens[s]|)
      && after[sid] == tokens[sid][i := if tokens[sid][i] + dice >= TotalSteps then Finished else tokens[sid][i] + dice]
    ensures tokens[sid][i] + dice >= TotalSteps ==>
      forall s :: s in tokens && s != sid ==> Advance(tokens, order, sid, i, dice)[s] == tokens[s]
    ensures tokens[sid][i] + dice < TotalSteps ==>
      var landing := StepsToBoardIndex(StartOf(order, sid), tokens[sid][i] + dice);
      forall s, j :: s in tokens && s != sid && 0 <= j < |tokens[s]| ==>
        Advance(tokens, order, sid, i, dice)[s][j] ==
          if landing.Some? && landing.value !in SafeSquares && OnSquare(tokens[s][j], StartOf(order, s), landing.value)
          then Home else tokens[s][j]
  {
  }

  /** The capture loop of move_token: every other player's tokens on the ring that stand on
      `square` are sent home, player by player. */
  method CaptureAll(tokens: map<Sid, seq<int>>, order: seq<Sid>, mover: Sid, square: int)
    returns (after: map<Sid, seq<int>>)
    requires forall s :: s in tokens ==> s in order
    ensures after == CaptureAt(tokens, order, mover, square)
  {
    after := tokens;
    var pending := tokens.Keys;
    while pending != {}
      invariant pending <= tokens.Keys && after.Keys == tokens.Keys
      invariant forall s :: s in tokens ==>
        after[s] == (if s == mover || s in pending then tokens[s] else SendHome(tokens[s], StartOf(order, s), square))
      decreases pending
    {
      var other :| other in pending;
      pending := pending - {other};
      if other != mover {
        var sent := SendHomeAll(after[other], StartOf(order, other), square);
        after := after[other := sent];
      }
    }
    CaptureAtPointwise(tokens, order, mover, square, after);
  }

  /** The on-board branch of move_token: token i of sid finishes at TotalSteps or more, and
      otherwise moves along the track (see MoveOnRing). */
  method AdvanceTokens(tokens: map<Sid, seq<int>>, order: seq<Sid>, sid: Sid, i: nat, dice: int)
    returns (after: map<Sid, seq<int>>)
    requires forall s :: s in tokens ==> s in order
    requires sid in tokens && i < |tokens[sid]|
    ensures after == Advance(tokens, order, sid, i, dice)
  {
    var toks := tokens[sid];
    if toks[i] + dice >= TotalSteps {
      after := tokens[sid := toks[i := Finished]];
    } else {
      after := MoveOnRing(tokens, order, sid, i, dice);
    }
  }

  /** A token that stays short of TotalSteps moves on, and captures when it lands on a ring
      square outside the safe set. */
  method MoveOnRing(tokens: map<Sid, seq<int>>, order: seq<Sid>, sid: Sid, i: nat, dice: int)
    returns (after: map<Sid, seq<int>>)
    requires forall s :: s in tokens ==> s in order
    requires sid in tokens && i < |tokens[sid]| && tokens[sid][i] + dice < TotalSteps
    ensures after == Advance(tokens, order, sid, i, dice)
  {
    var toks := tokens[sid];
    var steps := toks[i] + dice;
    var advanced := tokens[sid := toks[i := steps]];
    var landing := StepsToBoardIndex(StartOf(order, sid), steps);
    AdvanceOnRing(tokens, order, sid, i, dice, advanced, landing);
    if landing.Some? && landing.value !in SafeSquares {
      after := CaptureAll(advanced, order, sid, landing.value);
    } else {
      after := advanced;
    }
  }

  /** move_token: None where it returns False (unknown player, finished token, home token
      without a six) and also for an index out of range, where the source raises instead;
      otherwise the new token lists. */
  function MoveResult(tokens: map<Sid, seq<int>>, order: seq<Sid>, sid: Sid, tokenIndex: int, dice: int)
    : (r: Option<map<Sid, seq<int>>>)
    requires forall s :: s in tokens ==> s in order
    ensures sid !in tokens ==> r.None?
    ensures sid in tokens && PyIndex(tokenIndex, |tokens[sid]|).None? ==> r.None?
    ensures sid in tokens && PyIndex(tokenIndex, |tokens[sid]|).Some? ==>
      var i := PyIndex(tokenIndex, |tokens[sid]|).value;
      var steps := tokens[sid][i];
      && (steps == Finished ==> r.None?)
      && (steps < 0 ==> r == if dice == 6 then Some(tokens[sid := tokens[sid][i := 0]]) else None)
      && (0 <= steps != Finished ==> r == Some(Advance(tokens, order, sid, i, dice)))
  {
    if sid !in tokens then None
    else
      var toks := tokens[sid];
      match PyIndex(tokenIndex, |toks|)
      case None => None
      case Some(i) =>
        var steps := toks[i];
        if steps == Finished then None
        else if steps < 0 then
          if dice == 6 then Some(tokens[sid := toks[i := 0]]) else None
        else Some(Advance(tokens, order, sid, i, dice))
  }

  /** Every token keeps a possible step count when the dice shows 1 to 6. */
  lemma MoveKeepsTokenStates(tokens: map<Sid, seq<int>>, order: seq<Sid>, sid: Sid, tokenIndex: int, dice: int)
    requires forall s :: s in tokens ==> s in order
    requires forall s, j :: s in tokens && 0 <= j < |tokens[s]| ==> TokenState(tokens[s][j])
    requires 1 <= dice <= 6
    requires MoveResult(tokens, order, sid, tokenIndex, dice).Some?
    ensures var after := MoveResult(tokens, order, sid, tokenIndex, dice).value;
      forall s, j :: s in after && 0 <= j < |after[s]| ==> TokenState(after[s][j])
  {
    var after := MoveResult(tokens, order, sid, tokenIndex, dice).value;
    var i := PyIndex(tokenIndex, |tokens[sid]|).value;
    forall s, j | s in after && 0 <= j < |after[s]|
      ensures TokenState(after[s][j])
    {
      if s == sid && j == i {
        assert TokenState(tokens[sid][i]);
      } else {
        assert after[s][j] == tokens[s][j] || after[s][j] == Home;
      }
    }
  }

  /** All of a player's tokens are finished (true of an empty list, as Python's all()). */
  predicate AllFinished(toks: seq<int>)
  {
    forall j :: 0 <= j < |toks| ==> toks[j] == Finished
  }

  /** check_ludo_winner: the first player, in seating order, whose tokens have all finished;
      None when there is none. */
  function LudoWinner(tokens: map<Sid, seq<int>>, order: seq<Sid>): (w: Option<Sid>)
    ensures w.Some? ==> w.value in order && w.value in tokens && AllFinished(tokens[w.value])
    ensures w.Some? ==> forall k :: 0 <= k < IndexOf(order, w.value) && order[k] in tokens ==>
      !AllFinished(tokens[order[k]])
    ensures w.None? <==> forall s :: s in order && s in tokens ==> !AllFinished(tokens[s])
  {
    if order == [] then None
    else if order[0] in tokens && AllFinished(tokens[order[0]]) then Some(order[0])
    else LudoWinner(tokens, order[1..])
  }

  /** The turn rule of the move handler: the turn passes to the next seat unless the dice was a
      six. */
  function NextTurnIndex(turnIndex: int, players: int, dice: int): (t: int)
    requires 0 <= turnIndex < players
    ensures 0 <= t < players
    ensures dice == 6 ==> t == turnIndex
    ensures players >= 2 ==> (t == turnIndex <==> dice == 6)
  {
    if dice != 6 then (turnIndex + 1) % players else turnIndex
  }

  /** With two players, every roll other than a six hands the turn to the opponent, and a player
      who keeps rolling below six never moves twice in a row. */
  lemma {:induction false} TwoPlayersAlternate(turnIndex: int, dice: int)
    requires 0 <= turnIndex < 2
    ensures dice != 6 ==> NextTurnIndex(turnIndex, 2, dice) == 1 - turnIndex
    ensures dice != 6 ==> NextTurnIndex(NextTurnIndex(turnIndex, 2, dice), 2, dice) == turnIndex
  {
    if dice != 6 {
      assert NextTurnIndex(turnIndex, 2, dice) == (turnIndex + 1) % 2;
    }
  }

  /** What the move handler reports: 'not_your_turn', 'no_dice', 'invalid_move', or a
      state update, with game_over when someone has won. */
  datatype MoveOutcome = NotYourTurn | NoDice | InvalidMove | Moved(winner: Option<Sid>)

  /** Four tokens at home. */
  const FreshTokens: seq<int> := [Home, Home, Home, Home]

  class LudoGame {
    var tokens: map<Sid, seq<int>>
    const order: seq<Sid>
    var turnIndex: int
    var lastDice: Option<int>
    var lastRoller: Option<Sid>

    ghost predicate Valid()
      reads this
    {
      && |order| > 0 && 0 <= turnIndex < |order|
      && (forall s :: s in tokens <==> s in order)
      && (forall s :: s in tokens ==> |tokens[s]| == 4)
      && (forall s, j :: s in tokens && 0 <= j < |tokens[s]| ==> TokenState(tokens[s][j]))
      && (lastDice.Some? ==> 1 <= lastDice.value <= 6)
    }

    /** init_ludo_state: seats in joining order, four tokens at home each, first seat to roll. */
    constructor (players: seq<Sid>)
      requires |players| > 0
      ensures Valid()
      ensures order == players && turnIndex == 0 && lastDice == None && lastRoller == None
      ensures tokens == map p | p in players :: FreshTokens
    {
      var t: map<Sid, seq<int>> := map[];
      for i := 0 to |players|
        invariant t == map p | p in players[..i] :: FreshTokens
      {
        assert players[..i + 1] == players[..i] + [players[i]];
        t := t[players[i] := FreshTokens];
      }
      assert players[..|players|] == players;
      tokens := t;
      order := players;
      turnIndex := 0;
      lastDice, lastRoller := None, None;
    }

    /** The player on turn. */
    function Current(): Sid
      reads this
      requires Valid()
    {
      order[turnIndex]
    }

    /** The roll handler with the dice value as a parameter: only the player on turn may roll;
        the value and the roller are recorded, replacing any earlier roll. */
    method Roll(sid: Sid, dice: int) returns (accepted: bool)
      requires Valid() && 1 <= dice <= 6
      modifies this
      ensures Valid()
      ensures accepted <==> sid == old(Current())
      ensures tokens == old(tokens) && turnIndex == old(turnIndex)
      ensures accepted ==> lastDice == Some(dice) && lastRoller == Some(sid)
      ensures !accepted ==> lastDice == old(lastDice) && lastRoller == old(lastRoller)
    {
      if sid != order[turnIndex] {
        return false;
      }
      lastDice, lastRoller := Some(dice), Some(sid);
      return true;
    }

    /** move_token on the stored tokens: rejects with no change, or advances one token and sends
        captured opponents home, updating the token lists in place. */
    method MoveToken(sid: Sid, tokenIndex: int, dice: int) returns (ok: bool)
      requires Valid() && 1 <= dice <= 6
      modifies this
      ensures turnIndex == old(turnIndex)
      ensures lastDice == old(lastDice) && lastRoller == old(lastRoller)
      ensures Valid()
      ensures ok <==> MoveResult(old(tokens), order, sid, tokenIndex, dice).Some?
      ensures tokens == if ok then MoveResult(old(tokens), order, sid, tokenIndex, dice).value else old(tokens)
    {
      if sid !in tokens {
        return false;
      }
      var toks := tokens[sid];
      var index := PyIndex(tokenIndex, |toks|);
      if index.None? {
        return false;
      }
      var i := index.value;
      if toks[i] == Finished {
        return false;
      }
      if toks[i] < 0 {
        if dice == 6 {
          tokens := tokens[sid := toks[i := 0]];
          return true;
        }
        return false;
      }
      ghost var before := tokens;
      tokens := AdvanceTokens(tokens, order, sid, i, dice);
      AdvanceRule(before, order, sid, i, dice);
      MoveKeepsTokenStates(before, order, sid, tokenIndex, dice);
      return true;
    }

    /** The move handler with the emits left out: only the player on turn who has just rolled
        may move; after a valid move the turn passes on unless the roll was a six, the dice is
        cleared, and the winner check runs. */
    method OnMoveToken(sid: Sid, tokenIndex: int) returns (outcome: MoveOutcome)
      requires Valid()
      modifies this
      ensures Valid()
      ensures sid != old(Current()) ==> outcome == NotYourTurn
      ensures sid == old(Current()) && (old(lastDice).None? || old(lastRoller) != Some(sid)) ==> outcome == NoDice
      ensures outcome in {NotYourTurn, NoDice, InvalidMove} ==>
        tokens == old(tokens) && turnIndex == old(turnIndex)
        && lastDice == old(lastDice) && lastRoller == old(lastRoller)
      ensures sid == old(Current()) && old(lastDice).Some? && old(lastRoller) == Some(sid) ==>
        var result := MoveResult(old(tokens), order, sid, tokenIndex, old(lastDice).value);
        && (result.None? ==> outcome == InvalidMove)
        && (result.Some? ==>
              && tokens == result.value
              && turnIndex == NextTurnIndex(old(turnIndex), |order|, old(lastDice).value)
              && lastDice == None && lastRoller == None
              && outcome == Moved(LudoWinner(tokens, order)))
    {
      if sid != order[turnIndex] {
        return NotYourTurn;
      }
      if lastDice.None? || lastRoller != Some(sid) {
        return NoDice;
      }
      var dice := lastDice.value;
      var ok := MoveToken(sid, tokenIndex, dice);
      if !ok {
        return InvalidMove;
      }
      turnIndex := NextTurnIndex(turnIndex, |order|, dice);
      lastDice, lastRoller := None, None;
      outcome := Moved(LudoWinner(tokens, order));
    }
  }
}
