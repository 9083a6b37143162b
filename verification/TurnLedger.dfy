/** The multi-turn rollout of one sample over any chain of aborts and resumes: which tokens it
    holds, what they count as, and how much each turn and the context may still take. */
module TurnLedger {
  import opened Common

  datatype Status = Pending | Aborted | Completed | Truncated

  // Where a response token came from.
  datatype Origin = Model(turn: nat) | Observation

  datatype Config = Config(
    prompt: seq<int>, maxTurns: nat, contextLimit: Option<int>, maxNewTokens: Option<nat>,
    maskOffPolicy: bool)

  datatype Sample = Sample(
    tokens: seq<int>, lossMask: seq<int>, logProbs: seq<int>, responseLength: nat, status: Status,
    turns: Option<nat>,          // rollout_turns
    turnStart: Option<nat>,      // where the current turn's response begins
    traces: nat,
    origins: seq<Origin>)        // history: the origin of each response token

  datatype Finish = Stop | Length | Abort

  datatype Reply =
    | NotSent                                             // aborted before the request went out
    | Reply(tokens: seq<int>, logProbs: seq<int>, finish: Finish)

  // What the engine answers and, if asked, what the environment observes.
  datatype Turn = Turn(reply: Reply, done: bool, observation: seq<int>)

  // The call in progress: the sample, what is left of the two budgets, the turn, why it stopped.
  datatype Call = Call(
    sample: Sample, context: Option<int>, generation: Option<int>, turn: nat, stopped: bool, executed: nat)

  const FRESH := Sample([], [], [], 0, Pending, None, None, 0, [])

  // ----- one call -----

  predicate Resuming(s: Sample) { s.status == Aborted && s.responseLength > 0 }

  function Zeros(n: nat): seq<int> { seq(n, _ => 0) }

  function Origins(n: nat, o: Origin): seq<Origin> { seq(n, _ => o) }

  // What the current turn has generated in earlier calls.
  function UsedThisTurn(s: Sample): nat {
    if s.turnStart.Some? && s.turnStart.value <= s.responseLength then s.responseLength - s.turnStart.value else 0
  }

  function Less(budget: Option<int>, n: nat): Option<int> {
    if budget.None? then budget else Some(budget.value - n)
  }

  predicate Exhausted(budget: Option<int>) { budget.Some? && budget.value <= 0 }

  function Started(cfg: Config, s: Sample): Call {
    var masked := if cfg.maskOffPolicy && Resuming(s) then s.(lossMask := Zeros(s.responseLength)) else s;
    var filled := if masked.tokens == [] then masked.(tokens := cfg.prompt) else masked;
    var ready := filled.(
      responseLength := if |filled.tokens| >= |cfg.prompt| then |filled.tokens| - |cfg.prompt| else 0,
      status := if Resuming(s) then Pending else s.status);
    var context := if cfg.contextLimit.None? then None else Some(cfg.contextLimit.value - |ready.tokens|);
    var generation := if Resuming(s) && cfg.maxNewTokens.Some?
      then Some(Max(0, cfg.maxNewTokens.value - UsedThisTurn(ready))) else None;
    var resumeTurn := if !Resuming(s) then 0 else if s.turns.Some? then s.turns.value else s.traces;
    Call(ready, context, generation, resumeTurn, false, resumeTurn)
  }

  // The largest answer the engine is asked for; none means no limit at all.
  function Cap(cfg: Config, c: Call): Option<nat> {
    var active := match c.generation
      case None => c.context
      case Some(g) => if c.context.None? then Some(g) else Some(Min(c.context.value, g));
    if active.None? then cfg.maxNewTokens
    else if cfg.maxNewTokens.Some? then Some(Min(Max(0, active.value), cfg.maxNewTokens.value))
    else Some(Max(0, active.value))
  }

  // An engine that keeps to its limit: whatever it would say, cut there, a log-prob per token.
  function Said(cap: Option<nat>, reply: Reply): (r: (seq<int>, seq<int>))
    requires reply.Reply?
    ensures |r.0| == |r.1| && (cap.Some? ==> |r.0| <= cap.value)
  {
    var n := Min(|reply.tokens|, |reply.logProbs|);
    var k := if cap.None? then n else Min(n, cap.value);
    (reply.tokens[..k], reply.logProbs[..k])
  }

  function Appended(s: Sample, tokens: seq<int>, logProbs: seq<int>, mask: int, origin: Origin): Sample {
    s.(tokens := s.tokens + tokens,
       lossMask := s.lossMask + seq(|tokens|, _ => mask),
       logProbs := s.logProbs + logProbs,
       responseLength := s.responseLength + |tokens|,
       origins := s.origins + Origins(|tokens|, origin))
  }

  function Ended(c: Call, status: Status, executed: nat, keepsTurn: bool): Call {
    c.(sample := c.sample.(status := status, traces := c.sample.traces + 1,
                           turnStart := if keepsTurn then c.sample.turnStart else None),
       stopped := true, executed := executed)
  }

  function Entered(c: Call): Call {
    if c.sample.turnStart.Some? && c.sample.turnStart.value <= c.sample.responseLength then c
    else c.(sample := c.sample.(turnStart := Some(c.sample.responseLength)))
  }

  function Generated(cfg: Config, c: Call, reply: Reply): Call
    requires reply.Reply?
  {
    var said := Said(Cap(cfg, c), reply);
    c.(sample := Appended(c.sample, said.0, said.1, 1, Model(c.turn)),
       context := Less(c.context, |said.0|), generation := Less(c.generation, |said.0|))
  }

  function Observed(c: Call, observation: seq<int>): Call {
    c.(sample := Appended(c.sample, observation, Zeros(|observation|), 0, Observation).(turnStart := None),
       context := Less(c.context, |observation|), generation := None)
  }

  function Advanced(c: Call): Call {
    c.(sample := c.sample.(traces := c.sample.traces + 1), turn := c.turn + 1, executed := c.turn + 1)
  }

  // The rest of an iteration, once the engine has answered.
  function Answered(cfg: Config, g: Call, finish: Finish, done: bool, observation: seq<int>): Call {
    if finish == Abort then Ended(g, Aborted, g.turn, true)
    else if finish == Length || Exhausted(g.context) then Ended(g, Truncated, g.turn + 1, false)
    else if done then Ended(g, Completed, g.turn + 1, false)
    else
      var o := Observed(g, observation);
      if Exhausted(o.context) then Ended(o, Truncated, g.turn + 1, false)
      else if g.turn + 1 >= cfg.maxTurns then Ended(o, Completed, g.turn + 1, false)
      else Advanced(o)
  }

  // One iteration of the loop over turns.
  function OneTurn(cfg: Config, c: Call, t: Turn): Call {
    if t.reply.NotSent? then Ended(Entered(c), Aborted, c.turn, true)
    else Answered(cfg, Generated(cfg, Entered(c), t.reply), t.reply.finish, t.done, t.observation)
  }

  // A script that runs out means an abort before the next request.
  const NOTHING := Turn(NotSent, false, [])

  function Turns(cfg: Config, c: Call, script: seq<Turn>): Call
    decreases cfg.maxTurns - c.turn
  {
    if c.stopped || c.turn >= cfg.maxTurns then c
    else
      var c' := OneTurn(cfg, c, if script == [] then NOTHING else script[0]);
      if c'.stopped then c' else Turns(cfg, c', if script == [] then [] else script[1..])
  }

  function Generate(cfg: Config, s: Sample, script: seq<Turn>): Sample {
    var c := Started(cfg, s);
    if Exhausted(c.context) || Exhausted(c.generation) then
      c.sample.(status := Truncated, turnStart := None, turns := Some(c.executed))
    else
      var e := Turns(cfg, c, script);
      e.sample.(turns := Some(e.executed))
  }

  // A sample is generated again only while it is aborted.
  function Chain(cfg: Config, scripts: seq<seq<Turn>>): Sample {
    if scripts == [] then FRESH
    else
      var s := Chain(cfg, scripts[..|scripts| - 1]);
      if s.status == Pending || s.status == Aborted then Generate(cfg, s, scripts[|scripts| - 1]) else s
  }

  // ----- what every sample and every call keep -----

  function Count(origins: seq<Origin>, turn: nat): nat {
    if origins == [] then 0
    else Count(origins[..|origins| - 1], turn) + if origins[|origins| - 1] == Model(turn) then 1 else 0
  }

  lemma {:induction false} CountPush(origins: seq<Origin>, n: nat, o: Origin, turn: nat)
    ensures Count(origins + Origins(n, o), turn) == Count(origins, turn) + if o == Model(turn) then n else 0
  {
    if n == 0 {
      assert origins + Origins(0, o) == origins;
    } else {
      var longer := origins + Origins(n, o);
      assert longer[..|longer| - 1] == origins + Origins(n - 1, o);
      CountPush(origins, n - 1, o, turn);
    }
  }

  /** Tokens are the prompt and then the response; mask, log-probs and the recorded length agree. */
  ghost predicate Aligned(cfg: Config, s: Sample) {
    && cfg.prompt <= s.tokens && |s.tokens| == |cfg.prompt| + s.responseLength
    && |s.lossMask| == |s.logProbs| == |s.origins| == s.responseLength
  }

  /** Nothing the model said lies past the context limit. */
  ghost predicate WithinContext(cfg: Config, s: Sample) {
    cfg.contextLimit.Some? ==>
      forall i | 0 <= i < |s.origins| :: s.origins[i].Model? ==> |cfg.prompt| + i < cfg.contextLimit.value
  }

  /** No turn generated more than it may, over however many calls. */
  ghost predicate WithinTurns(cfg: Config, s: Sample) {
    cfg.maxNewTokens.Some? ==> forall turn :: Count(s.origins, turn) <= cfg.maxNewTokens.value
  }

  // The turn under way has generated exactly the tokens since its start, and later turns none.
  ghost predicate TurnSoFar(s: Sample, turn: nat) {
    && Count(s.origins, turn) == (if s.turnStart.Some? then s.responseLength - s.turnStart.value else 0)
    && (s.turnStart.Some? ==> s.turnStart.value <= s.responseLength)
    && forall later | later > turn :: Count(s.origins, later) == 0
  }

  // Only what the model said is trained on.
  ghost predicate MaskedRight(s: Sample, from: nat) {
    && |s.lossMask| == |s.origins|
    && forall i | 0 <= i < |s.lossMask| ::
         s.lossMask[i] == if s.origins[i].Model? && i >= from then 1 else 0
  }

  ghost predicate Good(cfg: Config, s: Sample) {
    && (s == FRESH || Aligned(cfg, s))
    && WithinContext(cfg, s) && WithinTurns(cfg, s)
    && (s.turnStart.Some? <==> s.status == Aborted)
    && (s.status == Aborted ==> s.turns.Some? && s.turns.value < cfg.maxTurns && TurnSoFar(s, s.turns.value))
    && (s.status == Pending ==> s.responseLength == 0)
  }

  ghost predicate Sound(cfg: Config, c: Call) {
    var s := c.sample;
    && Aligned(cfg, s) && WithinContext(cfg, s) && WithinTurns(cfg, s)
    && c.context == (if cfg.contextLimit.None? then None else Some(cfg.contextLimit.value - |s.tokens|))
  }

  // Between turns the rest of the turn's budget is what earlier calls left of it; none means all.
  ghost predicate Between(cfg: Config, c: Call) {
    && Sound(cfg, c) && TurnSoFar(c.sample, c.turn) && !c.stopped && c.executed == c.turn
    && (cfg.maxNewTokens.Some? ==>
          if c.generation.Some? then c.generation.value == cfg.maxNewTokens.value - UsedThisTurn(c.sample)
          else UsedThisTurn(c.sample) == 0)
    && (cfg.maxNewTokens.None? ==> c.generation.None?)
    && !Exhausted(c.context)
  }

  // How a call may end.
  ghost predicate Over(cfg: Config, c: Call) {
    var s := c.sample;
    && Aligned(cfg, s) && WithinContext(cfg, s) && WithinTurns(cfg, s)
    && c.stopped && s.status != Pending && (s.turnStart.Some? <==> s.status == Aborted)
    && (s.status == Aborted ==> c.executed < cfg.maxTurns && TurnSoFar(s, c.executed))
  }

  lemma EnteredKeeps(cfg: Config, c: Call)
    requires Between(cfg, c)
    ensures Between(cfg, Entered(c)) && Entered(c).sample.turnStart.Some?
  {}

  // What the engine may say fits both budgets.
  lemma CapFits(cfg: Config, c: Call)
    requires Between(cfg, c)
    ensures c.context.Some? ==> Cap(cfg, c).Some? && Cap(cfg, c).value <= c.context.value
    ensures cfg.maxNewTokens.Some? ==>
      Cap(cfg, c).Some? && Cap(cfg, c).value + UsedThisTurn(c.sample) <= cfg.maxNewTokens.value
  {
    if cfg.maxNewTokens.Some? {
      assert Count(c.sample.origins, c.turn) <= cfg.maxNewTokens.value;
    }
    hide Count;
  }

  lemma GeneratedKeeps(cfg: Config, c: Call, reply: Reply)
    requires Between(cfg, c) && c.sample.turnStart.Some? && reply.Reply?
    ensures var g := Generated(cfg, c, reply); Sound(cfg, g) && TurnSoFar(g.sample, c.turn)
    ensures Generated(cfg, c, reply).sample.turnStart == c.sample.turnStart
  {
    var n := |Said(Cap(cfg, c), reply).0|;
    CapFits(cfg, c);
    forall turn
      ensures Count(c.sample.origins + Origins(n, Model(c.turn)), turn)
           == Count(c.sample.origins, turn) + if turn == c.turn then n else 0
    {
      CountPush(c.sample.origins, n, Model(c.turn), turn);
    }
    hide Count, Cap, Said;
  }

  lemma ObservedKeeps(cfg: Config, c: Call, observation: seq<int>)
    requires Sound(cfg, c) && TurnSoFar(c.sample, c.turn)
    ensures var o := Observed(c, observation); Sound(cfg, o) && TurnSoFar(o.sample, c.turn + 1)
  {
    forall turn
      ensures Count(c.sample.origins + Origins(|observation|, Observation), turn) == Count(c.sample.origins, turn)
    {
      CountPush(c.sample.origins, |observation|, Observation, turn);
    }
    hide Count;
  }

  lemma EndedKeeps(cfg: Config, c: Call, status: Status, executed: nat, keepsTurn: bool)
    requires Sound(cfg, c) && status != Pending && (keepsTurn <==> status == Aborted)
    requires keepsTurn ==> c.sample.turnStart.Some? && executed < cfg.maxTurns && TurnSoFar(c.sample, executed)
    ensures Over(cfg, Ended(c, status, executed, keepsTurn))
  {
    hide Count;
  }

  lemma AdvancedKeeps(cfg: Config, c: Call, observation: seq<int>)
    requires Sound(cfg, c) && TurnSoFar(c.sample, c.turn) && !c.stopped
    requires !Exhausted(Observed(c, observation).context)
    ensures Between(cfg, Advanced(Observed(c, observation)))
  {
    ObservedKeeps(cfg, c, observation);
    hide Count;
  }

  lemma AnsweredKeeps(cfg: Config, g: Call, finish: Finish, done: bool, observation: seq<int>)
    requires Sound(cfg, g) && TurnSoFar(g.sample, g.turn) && g.sample.turnStart.Some? && !g.stopped
    requires g.turn < cfg.maxTurns
    ensures var c' := Answered(cfg, g, finish, done, observation);
            if c'.stopped then Over(cfg, c') else Between(cfg, c') && c'.turn == g.turn + 1 < cfg.maxTurns
  {
    if finish == Abort {
      EndedKeeps(cfg, g, Aborted, g.turn, true);
    } else if finish == Length || Exhausted(g.context) {
      EndedKeeps(cfg, g, Truncated, g.turn + 1, false);
    } else if done {
      EndedKeeps(cfg, g, Completed, g.turn + 1, false);
    } else {
      ObservedKeeps(cfg, g, observation);
      var o := Observed(g, observation);
      if Exhausted(o.context) {
        EndedKeeps(cfg, o, Truncated, g.turn + 1, false);
      } else if g.turn + 1 >= cfg.maxTurns {
        EndedKeeps(cfg, o, Completed, g.turn + 1, false);
      } else {
        AdvancedKeeps(cfg, g, observation);
      }
    }
    hide Between, Over, Sound, TurnSoFar;
  }

  lemma OneTurnKeeps(cfg: Config, c: Call, t: Turn)
    requires Between(cfg, c) && c.turn < cfg.maxTurns
    ensures var c' := OneTurn(cfg, c, t);
            if c'.stopped then Over(cfg, c') else Between(cfg, c') && c'.turn == c.turn + 1 < cfg.maxTurns
  {
    EnteredKeeps(cfg, c);
    var e := Entered(c);
    if t.reply.NotSent? {
      EndedKeeps(cfg, e, Aborted, c.turn, true);
    } else {
      GeneratedKeeps(cfg, e, t.reply);
      AnsweredKeeps(cfg, Generated(cfg, e, t.reply), t.reply.finish, t.done, t.observation);
    }
    hide Over, Count, Answered, Said, Cap;
  }

  lemma {:induction false} TurnsKeep(cfg: Config, c: Call, script: seq<Turn>)
    requires Between(cfg, c) && c.turn < cfg.maxTurns
    ensures Over(cfg, Turns(cfg, c, script))
    decreases cfg.maxTurns - c.turn
  {
    var t := if script == [] then NOTHING else script[0];
    OneTurnKeeps(cfg, c, t);
    hide Between, OneTurn, Over;
    if !OneTurn(cfg, c, t).stopped {
      TurnsKeep(cfg, OneTurn(cfg, c, t), if script == [] then [] else script[1..]);
    }
  }

  lemma StartedKeeps(cfg: Config, s: Sample)
    requires Good(cfg, s) && (s.status == Pending || s.status == Aborted)
    ensures var c := Started(cfg, s);
            && Sound(cfg, c) && c.sample.origins == s.origins
            && c.sample.tokens == (if s.tokens == [] then cfg.prompt else s.tokens)
            && (!Exhausted(c.context) ==> Between(cfg, c))
            && (c.turn < cfg.maxTurns || cfg.maxTurns == 0)
  {}

  /** One call keeps the ledger, resumed or not. */
  lemma GenerateKeeps(cfg: Config, s: Sample, script: seq<Turn>)
    requires Good(cfg, s) && (s.status == Pending || s.status == Aborted)
    ensures Good(cfg, Generate(cfg, s, script)) && Aligned(cfg, Generate(cfg, s, script))
  {
    var c := Started(cfg, s);
    StartedKeeps(cfg, s);
    if !Exhausted(c.context) && !Exhausted(c.generation) && c.turn < cfg.maxTurns {
      TurnsKeep(cfg, c, script);
    }
    hide Between, Turns, Count;
  }

  /** Over any chain of calls, aborts and resumes, and any engine that keeps to its limit: tokens
      are the prompt and the response, the three per-token records agree, no turn's tokens summed
      over its aborted segments exceed max_new_tokens, and none lies past the context limit. */
  lemma {:induction false} ChainKeepsLedger(cfg: Config, scripts: seq<seq<Turn>>)
    ensures var s := Chain(cfg, scripts);
            Good(cfg, s) && (scripts != [] ==> Aligned(cfg, s))
  {
    if scripts != [] {
      var init := scripts[..|scripts| - 1];
      ChainKeepsLedger(cfg, init);
      var s := Chain(cfg, init);
      if s.status == Pending || s.status == Aborted {
        GenerateKeeps(cfg, s, scripts[|scripts| - 1]);
      }
    }
    hide Good, Generate, Aligned;
  }

  // ----- what is trained on, and what is never lost -----

  // Where the tokens of the last policy begin: a resuming call masks what came before, if told to.
  function TrainedFrom(cfg: Config, scripts: seq<seq<Turn>>): nat {
    if scripts == [] then 0
    else
      var s := Chain(cfg, scripts[..|scripts| - 1]);
      if cfg.maskOffPolicy && Resuming(s) then s.responseLength else TrainedFrom(cfg, scripts[..|scripts| - 1])
  }

  // Later stages only append: tokens, log-probs, origins and the masks already set stay.
  ghost predicate Extends(s: Sample, s': Sample) {
    && s.tokens <= s'.tokens && s.logProbs <= s'.logProbs && s.origins <= s'.origins
    && s.lossMask <= s'.lossMask
  }

  lemma AppendedMasks(s: Sample, tokens: seq<int>, logProbs: seq<int>, mask: int, origin: Origin, from: nat)
    requires MaskedRight(s, from) && from <= |s.origins| && mask == (if origin.Model? then 1 else 0)
    ensures MaskedRight(Appended(s, tokens, logProbs, mask, origin), from)
    ensures Extends(s, Appended(s, tokens, logProbs, mask, origin))
  {}

  lemma GeneratedMasks(cfg: Config, c: Call, reply: Reply, from: nat)
    requires MaskedRight(c.sample, from) && from <= |c.sample.origins| && reply.Reply?
    ensures MaskedRight(Generated(cfg, c, reply).sample, from) && Extends(c.sample, Generated(cfg, c, reply).sample)
  {
    var said := Said(Cap(cfg, c), reply);
    AppendedMasks(c.sample, said.0, said.1, 1, Model(c.turn), from);
    hide Said, Cap;
  }

  lemma AnsweredMasks(cfg: Config, g: Call, finish: Finish, done: bool, observation: seq<int>, from: nat)
    requires MaskedRight(g.sample, from) && from <= |g.sample.origins|
    ensures var c' := Answered(cfg, g, finish, done, observation);
            MaskedRight(c'.sample, from) && Extends(g.sample, c'.sample)
  {
    AppendedMasks(g.sample, observation, Zeros(|observation|), 0, Observation, from);
    hide Appended;
  }

  lemma OneTurnMasks(cfg: Config, c: Call, t: Turn, from: nat)
    requires MaskedRight(c.sample, from) && from <= |c.sample.origins|
    ensures MaskedRight(OneTurn(cfg, c, t).sample, from) && Extends(c.sample, OneTurn(cfg, c, t).sample)
  {
    var e := Entered(c);
    assert MaskedRight(e.sample, from) && Extends(c.sample, e.sample) && from <= |e.sample.origins|;
    if t.reply.Reply? {
      GeneratedMasks(cfg, e, t.reply, from);
      AnsweredMasks(cfg, Generated(cfg, e, t.reply), t.reply.finish, t.done, t.observation, from);
      hide Generated, Answered, MaskedRight;
    }
  }

  lemma {:induction false} TurnsMask(cfg: Config, c: Call, script: seq<Turn>, from: nat)
    requires MaskedRight(c.sample, from) && from <= |c.sample.origins|
    ensures MaskedRight(Turns(cfg, c, script).sample, from) && Extends(c.sample, Turns(cfg, c, script).sample)
    decreases cfg.maxTurns - c.turn
  {
    if !c.stopped && c.turn < cfg.maxTurns {
      var t := if script == [] then NOTHING else script[0];
      OneTurnMasks(cfg, c, t, from);
      hide OneTurn, MaskedRight;
      if !OneTurn(cfg, c, t).stopped {
        TurnsMask(cfg, OneTurn(cfg, c, t), if script == [] then [] else script[1..], from);
      }
    }
  }

  lemma GenerateMasks(cfg: Config, s: Sample, script: seq<Turn>, from: nat)
    requires Good(cfg, s) && MaskedRight(s, from) && from <= |s.origins|
    ensures MaskedRight(Generate(cfg, s, script),
                        if cfg.maskOffPolicy && Resuming(s) then s.responseLength else from)
    ensures s.tokens <= Generate(cfg, s, script).tokens && s.origins <= Generate(cfg, s, script).origins
    ensures s.logProbs <= Generate(cfg, s, script).logProbs
  {
    var start := if cfg.maskOffPolicy && Resuming(s) then s.responseLength else from;
    assert MaskedRight(Started(cfg, s).sample, start);
    TurnsMask(cfg, Started(cfg, s), script, start);
    hide Turns, MaskedRight;
  }

  /** A response token is trained on exactly when the model said it, and, if off-policy tokens are
      masked, only when the last resuming call or a later one did. */
  lemma {:induction false} ChainTrainsOnModelTokens(cfg: Config, scripts: seq<seq<Turn>>)
    ensures MaskedRight(Chain(cfg, scripts), TrainedFrom(cfg, scripts))
    ensures TrainedFrom(cfg, scripts) <= |Chain(cfg, scripts).origins|
    ensures !cfg.maskOffPolicy ==> TrainedFrom(cfg, scripts) == 0
  {
    if scripts != [] {
      var init, last := scripts[..|scripts| - 1], scripts[|scripts| - 1];
      ChainTrainsOnModelTokens(cfg, init);
      ChainKeepsLedger(cfg, init);
      var s := Chain(cfg, init);
      AlignedOrigins(cfg, s);
      if s.status == Pending || s.status == Aborted {
        GenerateMasks(cfg, s, last, TrainedFrom(cfg, init));
      }
      hide Good, MaskedRight, Generate;
    }
  }

  lemma AlignedOrigins(cfg: Config, s: Sample)
    requires Good(cfg, s)
    ensures |s.origins| == s.responseLength
  {}

  /** Resuming loses nothing: every call only appends to what an abort left. */
  lemma ResumingOnlyAppends(cfg: Config, scripts: seq<seq<Turn>>, more: seq<Turn>)
    ensures var s, s' := Chain(cfg, scripts), Chain(cfg, scripts + [more]);
            s.tokens <= s'.tokens && s.origins <= s'.origins && s.logProbs <= s'.logProbs
  {
    assert (scripts + [more])[..|scripts + [more]| - 1] == scripts;
    ChainKeepsLedger(cfg, scripts);
    ChainTrainsOnModelTokens(cfg, scripts);
    var s := Chain(cfg, scripts);
    if s.status == Pending || s.status == Aborted {
      GenerateMasks(cfg, s, more, TrainedFrom(cfg, scripts));
    }
    hide Good, MaskedRight, Generate;
  }
}
