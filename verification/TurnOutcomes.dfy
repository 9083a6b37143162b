/** What a call of the rollout adds to its sample and how it ends, told from the script of engine
    answers and observations and from the two budgets alone. */
module TurnOutcomes {
  import opened Common
  import opened TurnLedger

  // What one turn adds: what the engine said, its log-probs, and what the environment answered.
  datatype Part = Part(said: seq<int>, logProbs: seq<int>, heard: seq<int>)

  function Tokens(parts: seq<Part>): seq<int> {
    if parts == [] then [] else parts[0].said + parts[0].heard + Tokens(parts[1..])
  }

  function LogProbs(parts: seq<Part>): seq<int> {
    if parts == [] then [] else parts[0].logProbs + Zeros(|parts[0].heard|) + LogProbs(parts[1..])
  }

  function OriginsOf(parts: seq<Part>, turn: nat): seq<Origin> {
    if parts == [] then []
    else
      Origins(|parts[0].said|, Model(turn)) + Origins(|parts[0].heard|, Observation)
      + OriginsOf(parts[1..], turn + 1)
  }

  // ----- what the script and the budgets say of a turn -----

  function TurnAt(script: seq<Turn>, k: nat): Turn { if k < |script| then script[k] else NOTHING }

  function Rest(script: seq<Turn>): seq<Turn> { if script == [] then [] else script[1..] }

  predicate Aborts(t: Turn) { t.reply.NotSent? || t.reply.finish == Abort }

  // The engine came to its own end and the environment has something to add.
  predicate GoesOn(t: Turn) { t.reply.Reply? && t.reply.finish == Stop && !t.done }

  predicate Full(cfg: Config, length: nat) { cfg.contextLimit.Some? && length >= cfg.contextLimit.value }

  // How many of n tokens fit the context and what is left of the turn's budget.
  function Fitting(cfg: Config, length: nat, used: nat, n: nat): int {
    var inContext := if cfg.contextLimit.Some? then Min(n, cfg.contextLimit.value - length) else n;
    if cfg.maxNewTokens.Some? then Min(inContext, cfg.maxNewTokens.value - used) else inContext
  }

  // The turn adds the first tokens of the engine's answer that fit, each with its log-prob.
  ghost predicate Spoken(cfg: Config, length: nat, used: nat, reply: Reply, p: Part) {
    match reply
    case NotSent => p.said == [] && p.logProbs == []
    case Reply(tokens, logProbs, _) =>
      && p.said <= tokens && p.logProbs <= logProbs
      && |p.said| == |p.logProbs| == Fitting(cfg, length, used, Min(|tokens|, |logProbs|))
  }

  /** The parts are what the script's turns add to these tokens, one after the other: an observation is
      heard exactly if the engine came to its own end, the environment was not done and the context was
      not full; and a turn is followed by another only if, with its observation, it still is not. */
  ghost predicate Follows(cfg: Config, length: nat, used: nat, script: seq<Turn>, parts: seq<Part>)
    decreases |parts|
  {
    parts == [] ||
    var t, p := TurnAt(script, 0), parts[0];
    && Spoken(cfg, length, used, t.reply, p)
    && p.heard == (if GoesOn(t) && !Full(cfg, length + |p.said|) then t.observation else [])
    && (|parts| > 1 ==> GoesOn(t) && !Full(cfg, length + |p.said| + |p.heard|))
    && Follows(cfg, length + |p.said| + |p.heard|, 0, Rest(script), parts[1..])
  }

  // How a call ends whose last turn was this one, after so many turns, with so many tokens.
  ghost predicate EndsAs(cfg: Config, last: Turn, turns: nat, length: nat, status: Status) {
    && (status == Aborted <==> Aborts(last))
    && (status == Truncated <==> !Aborts(last) && (last.reply.finish == Length || Full(cfg, length)))
    && (status == Completed <==> !Aborts(last) && last.reply.finish == Stop && !Full(cfg, length))
    && (status == Completed ==> last.done || turns == cfg.maxTurns)
  }

  // ----- one turn -----

  // What is left of the two budgets, told from the lengths.
  lemma CapIsRoom(cfg: Config, c: Call, n: nat)
    requires Between(cfg, c)
    ensures var cap := Cap(cfg, c);
            Fitting(cfg, |c.sample.tokens|, UsedThisTurn(c.sample), n) == if cap.Some? then Min(n, cap.value) else n
  {
    if cfg.maxNewTokens.Some? {
      assert Count(c.sample.origins, c.turn) <= cfg.maxNewTokens.value;
    }
    hide Count;
  }

  lemma EntersAlike(c: Call)
    ensures Entered(c) == c.(sample := Entered(c).sample)
    ensures Entered(c).sample == c.sample.(turnStart := Entered(c).sample.turnStart)
    ensures UsedThisTurn(Entered(c).sample) == UsedThisTurn(c.sample)
  {}

  // What has been added to a sample by one part.
  ghost predicate Added(s: Sample, turn: nat, p: Part, s': Sample) {
    && s'.tokens == s.tokens + (p.said + p.heard)
    && s'.logProbs == s.logProbs + (p.logProbs + Zeros(|p.heard|))
    && s'.origins == s.origins + (Origins(|p.said|, Model(turn)) + Origins(|p.heard|, Observation))
    && s'.traces == s.traces + 1
  }

  // The same for what the engine said alone.
  ghost predicate Generates(s: Sample, turn: nat, p: Part, s': Sample) {
    && s'.tokens == s.tokens + p.said && s'.logProbs == s.logProbs + p.logProbs
    && s'.origins == s.origins + Origins(|p.said|, Model(turn)) && s'.traces == s.traces
  }

  lemma GeneratedAdds(cfg: Config, c: Call, reply: Reply) returns (p: Part)
    requires Between(cfg, c) && reply.Reply?
    ensures p.heard == [] && Spoken(cfg, |c.sample.tokens|, UsedThisTurn(c.sample), reply, p)
    ensures Generates(c.sample, c.turn, p, Generated(cfg, c, reply).sample)
    ensures |Generated(cfg, c, reply).sample.tokens| == |c.sample.tokens| + |p.said|
  {
    var said := Said(Cap(cfg, c), reply);
    CapIsRoom(cfg, c, Min(|reply.tokens|, |reply.logProbs|));
    p := Part(said.0, said.1, []);
    assert Zeros(0) == [] && Origins(0, Observation) == [];
    hide Cap, Between, Fitting;
  }

  lemma AnsweredAdds(cfg: Config, g: Call, t: Turn) returns (heard: seq<int>)
    requires Sound(cfg, g) && t.reply.Reply? && !g.stopped && g.turn < cfg.maxTurns
    ensures heard == if GoesOn(t) && !Full(cfg, |g.sample.tokens|) then t.observation else []
    ensures var c' := Answered(cfg, g, t.reply.finish, t.done, t.observation);
            && c'.sample.tokens == g.sample.tokens + heard
            && c'.sample.logProbs == g.sample.logProbs + Zeros(|heard|)
            && c'.sample.origins == g.sample.origins + Origins(|heard|, Observation)
            && c'.sample.traces == g.sample.traces + 1
            && c'.stopped == !(GoesOn(t) && !Full(cfg, |c'.sample.tokens|) && g.turn + 1 < cfg.maxTurns)
            && (c'.stopped ==> EndsAs(cfg, t, g.turn + 1, |c'.sample.tokens|, c'.sample.status))
            && c'.executed == (if Aborts(t) then g.turn else g.turn + 1)
            && (!c'.stopped ==> UsedThisTurn(c'.sample) == 0)
  {
    heard := if GoesOn(t) && !Full(cfg, |g.sample.tokens|) then t.observation else [];
    assert Zeros(0) == [] && Origins(0, Observation) == [];
    hide Count, Aligned, WithinContext, WithinTurns;
  }

  lemma OneTurnAdds(cfg: Config, c: Call, t: Turn) returns (p: Part)
    requires Between(cfg, c) && c.turn < cfg.maxTurns
    ensures Spoken(cfg, |c.sample.tokens|, UsedThisTurn(c.sample), t.reply, p)
    ensures p.heard == if GoesOn(t) && !Full(cfg, |c.sample.tokens| + |p.said|) then t.observation else []
    ensures var c' := OneTurn(cfg, c, t);
            && Added(c.sample, c.turn, p, c'.sample)
            && c'.stopped == !(GoesOn(t) && !Full(cfg, |c'.sample.tokens|) && c.turn + 1 < cfg.maxTurns)
            && (c'.stopped ==> EndsAs(cfg, t, c.turn + 1, |c'.sample.tokens|, c'.sample.status))
            && c'.executed == (if Aborts(t) then c.turn else c.turn + 1)
            && (!c'.stopped ==> UsedThisTurn(c'.sample) == 0)
  {
    EnteredKeeps(cfg, c);
    EntersAlike(c);
    var e := Entered(c);
    if t.reply.NotSent? {
      p := Part([], [], []);
      assert Zeros(0) == [] && Origins(0, Observation) == [] && Origins(0, Model(c.turn)) == [];
    } else {
      GeneratedKeeps(cfg, e, t.reply);
      p := GeneratedAdds(cfg, e, t.reply);
      var g := Generated(cfg, e, t.reply);
      hide Between, Spoken, Answered, Generated, Entered, Sound, EndsAs, GoesOn, Full, TurnSoFar, UsedThisTurn;
      var heard := AnsweredAdds(cfg, g, t);
      HeardToo(c.sample, c.turn, p, heard, g.sample, OneTurn(cfg, c, t).sample);
      hide Added, Generates;
      p := p.(heard := heard);
    }
  }

  lemma HeardToo(s: Sample, turn: nat, p: Part, heard: seq<int>, s1: Sample, s2: Sample)
    requires p.heard == [] && Generates(s, turn, p, s1)
    requires s2.tokens == s1.tokens + heard && s2.logProbs == s1.logProbs + Zeros(|heard|)
    requires s2.origins == s1.origins + Origins(|heard|, Observation) && s2.traces == s.traces + 1
    ensures Added(s, turn, p.(heard := heard), s2)
  {}

  // ----- the loop over turns -----

  // What a call has added to the sample it started from.
  ghost predicate AllAdded(s: Sample, turn: nat, parts: seq<Part>, s': Sample) {
    && s'.tokens == s.tokens + Tokens(parts)
    && s'.logProbs == s.logProbs + LogProbs(parts)
    && s'.origins == s.origins + OriginsOf(parts, turn)
    && s'.traces == s.traces + |parts|
  }

  // How a call ends that started at this turn and took those parts.
  ghost predicate CallEnds(cfg: Config, turn: nat, script: seq<Turn>, parts: seq<Part>, s: Sample, executed: nat)
    requires parts != []
  {
    var last := TurnAt(script, |parts| - 1);
    && turn + |parts| <= cfg.maxTurns
    && EndsAs(cfg, last, turn + |parts|, |s.tokens|, s.status)
    && executed == turn + |parts| - (if Aborts(last) then 1 else 0)
  }

  lemma PartsPush(p: Part, rest: seq<Part>, turn: nat)
    ensures Tokens([p] + rest) == p.said + p.heard + Tokens(rest)
    ensures LogProbs([p] + rest) == p.logProbs + Zeros(|p.heard|) + LogProbs(rest)
    ensures OriginsOf([p] + rest, turn)
         == Origins(|p.said|, Model(turn)) + Origins(|p.heard|, Observation) + OriginsOf(rest, turn + 1)
  {
    assert ([p] + rest)[1..] == rest;
  }

  lemma AddsAll(s: Sample, turn: nat, p: Part, s': Sample, rest: seq<Part>, end: Sample)
    requires Added(s, turn, p, s') && AllAdded(s', turn + 1, rest, end)
    ensures AllAdded(s, turn, [p] + rest, end)
  {
    PartsPush(p, rest, turn);
  }

  lemma AddsOne(s: Sample, turn: nat, p: Part, end: Sample)
    requires Added(s, turn, p, end)
    ensures AllAdded(s, turn, [p] + [], end)
  {
    PartsPush(p, [], turn);
  }

  lemma AddedLength(s: Sample, turn: nat, p: Part, s': Sample)
    requires Added(s, turn, p, s')
    ensures |s'.tokens| == |s.tokens| + |p.said| + |p.heard|
  {}

  lemma TurnAtRest(script: seq<Turn>, k: nat)
    ensures TurnAt(script, k + 1) == TurnAt(Rest(script), k)
  {}

  lemma FollowsPush(cfg: Config, length: nat, used: nat, script: seq<Turn>, p: Part, rest: seq<Part>)
    requires var t := TurnAt(script, 0);
             && Spoken(cfg, length, used, t.reply, p)
             && p.heard == (if GoesOn(t) && !Full(cfg, length + |p.said|) then t.observation else [])
             && (rest != [] ==> GoesOn(t) && !Full(cfg, length + |p.said| + |p.heard|))
    requires Follows(cfg, length + |p.said| + |p.heard|, 0, Rest(script), rest)
    ensures Follows(cfg, length, used, script, [p] + rest)
  {
    assert ([p] + rest)[1..] == rest;
    hide Spoken, Full, GoesOn;
  }

  lemma {:induction false} TurnsAdd(cfg: Config, c: Call, script: seq<Turn>) returns (parts: seq<Part>)
    requires Between(cfg, c) && c.turn < cfg.maxTurns
    ensures var e := Turns(cfg, c, script);
            && parts != [] && AllAdded(c.sample, c.turn, parts, e.sample)
            && Follows(cfg, |c.sample.tokens|, UsedThisTurn(c.sample), script, parts)
            && CallEnds(cfg, c.turn, script, parts, e.sample, e.executed)
    decreases cfg.maxTurns - c.turn
  {
    hide *;
    var t := TurnAt(script, 0);
    var p := OneTurnAdds(cfg, c, t);
    var c' := OneTurn(cfg, c, t);
    OneTurnKeeps(cfg, c, t);
    TurnsUnfold(cfg, c, script);
    AddedLength(c.sample, c.turn, p, c'.sample);
    var length := |c.sample.tokens| + |p.said| + |p.heard|;
    if c'.stopped {
      AddsOne(c.sample, c.turn, p, c'.sample);
      NoMore(cfg, length, Rest(script));
      FollowsPush(cfg, |c.sample.tokens|, UsedThisTurn(c.sample), script, p, []);
      parts := [p] + [];
      EndsNow(cfg, c.turn, script, p, c'.sample, c'.executed);
    } else {
      var rest := TurnsAdd(cfg, c', Rest(script));
      var e := Turns(cfg, c', Rest(script));
      AddsAll(c.sample, c.turn, p, c'.sample, rest, e.sample);
      FollowsPush(cfg, |c.sample.tokens|, UsedThisTurn(c.sample), script, p, rest);
      EndsLater(cfg, c.turn, script, p, rest, e);
      parts := [p] + rest;
    }
  }

  lemma NoMore(cfg: Config, length: nat, script: seq<Turn>)
    ensures Follows(cfg, length, 0, script, [])
  {}

  lemma TurnsUnfold(cfg: Config, c: Call, script: seq<Turn>)
    requires Between(cfg, c) && c.turn < cfg.maxTurns
    ensures var c' := OneTurn(cfg, c, TurnAt(script, 0));
            Turns(cfg, c, script) == if c'.stopped then c' else Turns(cfg, c', Rest(script))
  {
    hide OneTurn;
  }

  lemma EndsNow(cfg: Config, turn: nat, script: seq<Turn>, p: Part, s: Sample, executed: nat)
    requires turn < cfg.maxTurns && EndsAs(cfg, TurnAt(script, 0), turn + 1, |s.tokens|, s.status)
    requires executed == if Aborts(TurnAt(script, 0)) then turn else turn + 1
    ensures CallEnds(cfg, turn, script, [p] + [], s, executed)
  {
    hide EndsAs, Aborts;
  }

  lemma EndsLater(cfg: Config, turn: nat, script: seq<Turn>, p: Part, rest: seq<Part>, e: Call)
    requires rest != [] && CallEnds(cfg, turn + 1, Rest(script), rest, e.sample, e.executed)
    ensures CallEnds(cfg, turn, script, [p] + rest, e.sample, e.executed)
  {
    TurnAtRest(script, |rest| - 1);
    hide EndsAs, Aborts, TurnAt;
  }

  // ----- one call -----

  // The turn a call starts at.
  function FirstTurn(s: Sample): nat {
    if !Resuming(s) then 0 else if s.turns.Some? then s.turns.value else s.traces
  }

  function Base(cfg: Config, s: Sample): seq<int> { if s.tokens == [] then cfg.prompt else s.tokens }

  // The turn's tokens so far, if the call resumes one.
  function Used(s: Sample): int {
    if Resuming(s) && s.turnStart.Some? then s.responseLength - s.turnStart.value else 0
  }

  // The context is full before the first request, or the turn resumed has used up its budget.
  predicate NoRoom(cfg: Config, s: Sample) {
    || Full(cfg, |Base(cfg, s)|)
    || (Resuming(s) && cfg.maxNewTokens.Some? && Used(s) >= cfg.maxNewTokens.value)
  }

  // Only an empty range of turns leaves a call neither ended nor aborted.
  function StatusWithoutTurns(cfg: Config, s: Sample): Status {
    if NoRoom(cfg, s) then Truncated else if Resuming(s) then Pending else s.status
  }

  lemma StartsFrom(cfg: Config, s: Sample)
    requires Good(cfg, s) && (s.status == Pending || s.status == Aborted)
    ensures var c := Started(cfg, s);
            && c.sample.tokens == Base(cfg, s) && c.sample.logProbs == s.logProbs && c.sample.origins == s.origins
            && c.sample.traces == s.traces && c.turn == FirstTurn(s) && c.executed == c.turn
            && UsedThisTurn(c.sample) == Used(s) && !c.stopped
            && (Exhausted(c.context) || Exhausted(c.generation) <==> NoRoom(cfg, s))
            && c.sample.status == (if Resuming(s) then Pending else s.status)
  {
    hide Count;
  }

  /** What one call does, resumed or not, told from the script and the budgets.  Without room it ends
      truncated and adds nothing.  Otherwise it takes turns as long as they go on, adds exactly their
      parts, and ends aborted if and only if the last turn was not sent or was aborted; truncated if and
      only if it was not, and the engine stopped for length or the context is full; completed if and only
      if neither, and then because the environment was done or the last turn was reached. */
  lemma CallIsTold(cfg: Config, s: Sample, script: seq<Turn>) returns (parts: seq<Part>)
    requires Good(cfg, s) && (s.status == Pending || s.status == Aborted)
    ensures var f := Generate(cfg, s, script);
            && f.tokens == Base(cfg, s) + Tokens(parts) && f.logProbs == s.logProbs + LogProbs(parts)
            && f.origins == s.origins + OriginsOf(parts, FirstTurn(s)) && f.traces == s.traces + |parts|
            && Follows(cfg, |Base(cfg, s)|, Used(s), script, parts)
            && (parts == [] <==> NoRoom(cfg, s) || FirstTurn(s) >= cfg.maxTurns)
            && (parts != [] ==> f.turns.Some? && CallEnds(cfg, FirstTurn(s), script, parts, f, f.turns.value))
            && (parts == [] ==> f.turns == Some(FirstTurn(s)) && f.status == StatusWithoutTurns(cfg, s))
  {
    var c := Started(cfg, s);
    StartsFrom(cfg, s);
    StartedKeeps(cfg, s);
    if !NoRoom(cfg, s) && c.turn < cfg.maxTurns {
      hide Between, Sound, Aligned, Turns, Started;
      parts := TurnsAdd(cfg, c, script);
      var e := Turns(cfg, c, script);
      hide Follows, Tokens, LogProbs, OriginsOf, NoRoom, Good;
      EndsSame(cfg, c.turn, script, parts, e.sample, e.executed);
    } else {
      parts := [];
      hide Between, Sound, Aligned, Started, NoRoom, Good;
    }
  }

  lemma EndsSame(cfg: Config, turn: nat, script: seq<Turn>, parts: seq<Part>, s: Sample, executed: nat)
    requires parts != [] && CallEnds(cfg, turn, script, parts, s, executed)
    ensures CallEnds(cfg, turn, script, parts, s.(turns := Some(executed)), executed)
  {
    hide EndsAs, Aborts, TurnAt;
  }
}
