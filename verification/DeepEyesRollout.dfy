/** The multi-turn rollout as the loop that mutates its sample, ending exactly where the turn
    ledger says. */
module DeepEyesRollout {
  import opened Common
  import opened TurnLedger

  class RolloutSample {
    var tokens: seq<int>
    var lossMask: seq<int>
    var rolloutLogProbs: seq<int>
    var responseLength: nat
    var status: Status
    var rolloutTurns: Option<nat>
    var currentTurnResponseStart: Option<nat>
    var rolloutTraces: nat
    ghost var origins: seq<Origin>

    ghost function View(): Sample
      reads this
    {
      Sample(tokens, lossMask, rolloutLogProbs, responseLength, status, rolloutTurns,
             currentTurnResponseStart, rolloutTraces, origins)
    }

    constructor ()
      ensures View() == FRESH
    {
      tokens, lossMask, rolloutLogProbs, responseLength, status := [], [], [], 0, Pending;
      rolloutTurns, currentTurnResponseStart, rolloutTraces, origins := None, None, 0, [];
    }

    method AppendToSample(more: seq<int>, logProbs: seq<int>, lossMaskVal: int, ghost origin: Origin)
      modifies this`tokens, this`lossMask, this`rolloutLogProbs, this`responseLength, this`origins
      ensures View() == Appended(old(View()), more, logProbs, lossMaskVal, origin)
    {
      tokens := tokens + more;
      lossMask := lossMask + seq(|more|, _ => lossMaskVal);
      rolloutLogProbs := rolloutLogProbs + logProbs;
      responseLength := responseLength + |more|;
      origins := origins + Origins(|more|, origin);
    }

    // The budgets and the turn a call starts from, masking and filling the sample on the way.
    method PrepareStartState(cfg: Config)
      returns (context: Option<int>, generation: Option<int>, resumeTurn: nat)
      modifies this
      ensures Call(View(), context, generation, resumeTurn, false, resumeTurn) == Started(cfg, old(View()))
    {
      var isResuming := status == Aborted && responseLength > 0;
      if cfg.maskOffPolicy && isResuming {
        lossMask := Zeros(responseLength);
      }
      if tokens == [] {
        tokens := cfg.prompt;
      }
      responseLength := if |tokens| >= |cfg.prompt| then |tokens| - |cfg.prompt| else 0;
      context := if cfg.contextLimit.Some? then Some(cfg.contextLimit.value - |tokens|) else None;
      generation := None;
      if isResuming && cfg.maxNewTokens.Some? {
        var used := 0;
        if currentTurnResponseStart.Some? && currentTurnResponseStart.value <= responseLength {
          used := responseLength - currentTurnResponseStart.value;
        }
        generation := Some(Max(0, cfg.maxNewTokens.value - used));
      }
      resumeTurn := 0;
      if isResuming {
        resumeTurn := if rolloutTurns.Some? then rolloutTurns.value else rolloutTraces;
        status := Pending;
      }
    }

    // Ends the call: the trace of the turn is kept, its start only for a resume.
    method EndTurn(outcome: Status, keepsTurn: bool)
      modifies this`status, this`rolloutTraces, this`currentTurnResponseStart
      ensures View() == old(View()).(status := outcome, traces := old(rolloutTraces) + 1,
        turnStart := if keepsTurn then old(currentTurnResponseStart) else None)
    {
      status, rolloutTraces := outcome, rolloutTraces + 1;
      if !keepsTurn {
        currentTurnResponseStart := None;
      }
    }

    // The engine's answer: how much it may say, and what it said.
    method Infer(cfg: Config, context0: Option<int>, generation0: Option<int>, turn: nat, reply: Reply)
      returns (context: Option<int>, generation: Option<int>)
      requires reply.Reply?
      modifies this
      ensures Call(View(), context, generation, turn, false, turn)
           == Generated(cfg, Call(old(View()), context0, generation0, turn, false, turn), reply)
    {
      var activeBudget := context0;
      if generation0.Some? {
        activeBudget := if activeBudget.None? then generation0
                        else Some(Min(activeBudget.value, generation0.value));
      }
      var maxNewTokens := cfg.maxNewTokens;
      if activeBudget.Some? {
        var limit := Max(0, activeBudget.value);
        maxNewTokens := Some(if cfg.maxNewTokens.Some? then Min(limit, cfg.maxNewTokens.value) else limit);
      }
      var said := Said(maxNewTokens, reply);
      AppendToSample(said.0, said.1, 1, Model(turn));
      context, generation := Less(context0, |said.0|), Less(generation0, |said.0|);
    }

    // What becomes of the turn once the engine has answered.
    method Step(cfg: Config, context0: Option<int>, generation0: Option<int>, turn0: nat, t: Turn)
      returns (context: Option<int>, generation: Option<int>, turn: nat, stopped: bool, executed: nat)
      requires t.reply.Reply?
      modifies this
      ensures Call(View(), context, generation, turn, stopped, executed)
           == Answered(cfg, Call(old(View()), context0, generation0, turn0, false, turn0),
                       t.reply.finish, t.done, t.observation)
    {
      context, generation, turn, stopped, executed := context0, generation0, turn0, true, turn0 + 1;
      if t.reply.finish == Abort {
        executed := turn0;
        EndTurn(Aborted, true);
      } else if t.reply.finish == Length || Exhausted(context) {
        EndTurn(Truncated, false);
      } else if t.done {
        EndTurn(Completed, false);
      } else {
        AppendToSample(t.observation, Zeros(|t.observation|), 0, Observation);
        context, generation := Less(context, |t.observation|), None;
        currentTurnResponseStart := None;
        if Exhausted(context) {
          EndTurn(Truncated, false);
        } else if turn0 + 1 >= cfg.maxTurns {
          EndTurn(Completed, false);
        } else {
          rolloutTraces, turn, stopped := rolloutTraces + 1, turn0 + 1, false;
        }
      }
    }

    method EnterTurn()
      modifies this`currentTurnResponseStart
      ensures View() == Entered(Call(old(View()), None, None, 0, false, 0)).sample
    {
      if currentTurnResponseStart.None? || currentTurnResponseStart.value > responseLength {
        currentTurnResponseStart := Some(responseLength);
      }
    }

    // One iteration of the loop.
    method RunTurn(cfg: Config, context0: Option<int>, generation0: Option<int>, turn0: nat, t: Turn)
      returns (context: Option<int>, generation: Option<int>, turn: nat, stopped: bool, executed: nat)
      modifies this
      ensures Call(View(), context, generation, turn, stopped, executed)
           == OneTurn(cfg, Call(old(View()), context0, generation0, turn0, false, turn0), t)
    {
      ghost var call := Call(View(), context0, generation0, turn0, false, turn0);
      EnterOnly(call);
      EnterTurn();
      hide Generated, Answered, Entered;
      context, generation, turn, stopped, executed := context0, generation0, turn0, true, turn0;
      if t.reply.NotSent? {
        EndTurn(Aborted, true);
      } else {
        context, generation := Infer(cfg, context, generation, turn, t.reply);
        context, generation, turn, stopped, executed := Step(cfg, context, generation, turn, t);
      }
    }

    // Turns until one stops, or the last one is reached.
    method RunTurns(cfg: Config, context0: Option<int>, generation0: Option<int>, turn0: nat, script: seq<Turn>)
      returns (executed: nat)
      modifies this
      ensures var end := Turns(cfg, Call(old(View()), context0, generation0, turn0, false, turn0), script);
              View() == end.sample && executed == end.executed
    {
      var context, generation, turn, stopped, i := context0, generation0, turn0, false, 0;
      ghost var start := Call(View(), context, generation, turn, false, turn);
      executed := turn;
      hide OneTurn, View;
      while !stopped && turn < cfg.maxTurns
        invariant 0 <= i <= |script| && (stopped || executed == turn)
        invariant Turns(cfg, Call(View(), context, generation, turn, stopped, executed), script[i..])
               == Turns(cfg, start, script)
        decreases cfg.maxTurns - turn, !stopped
      {
        TurnsOnce(cfg, Call(View(), context, generation, turn, stopped, executed), script, i);
        var t := if i < |script| then script[i] else NOTHING;
        context, generation, turn, stopped, executed := RunTurn(cfg, context, generation, turn, t);
        i := if i < |script| then i + 1 else i;
      }
    }

    /** One call, from whatever an earlier one left. */
    method Generate(cfg: Config, script: seq<Turn>)
      modifies this
      ensures View() == TurnLedger.Generate(cfg, old(View()), script)
    {
      var context, generation, turn := PrepareStartState(cfg);
      var executed: nat := turn;
      hide Started, Turns;
      if Exhausted(context) || Exhausted(generation) {
        status, currentTurnResponseStart := Truncated, None;
      } else {
        executed := RunTurns(cfg, context, generation, turn, script);
      }
      rolloutTurns := Some(executed);
    }
  }

  // One step of Turns, at a place in the script.
  lemma TurnsOnce(cfg: Config, c: Call, script: seq<Turn>, i: nat)
    requires i <= |script| && !c.stopped && c.turn < cfg.maxTurns && c.executed == c.turn
    ensures var c' := OneTurn(cfg, c, if i < |script| then script[i] else NOTHING);
            && Turns(cfg, c, script[i..]) == Turns(cfg, c', script[if i < |script| then i + 1 else i..])
            && (c'.stopped || (c'.executed == c'.turn && c'.turn > c.turn))
  {
    if i < |script| {
      assert script[i..][1..] == script[i + 1..];
    }
    hide Generated, Observed, Entered;
  }

  lemma EnterOnly(c: Call)
    ensures Entered(c) == c.(sample := Entered(Call(c.sample, None, None, 0, false, 0)).sample)
  {}
}
