/** The promises of the action gateway, for every run of every interleaving. */
module ActionGatewayTheorems {
  import opened Wrappers
  import opened ActionGateway
  import opened ActionGatewaySafety

  /** Replaying the log gives exactly the two in-memory maps, up to one entry per map, which is the
      one its lock owner has appended and not yet inserted. */
  lemma LogIsMemory(c: Config, steps: seq<Step>)
    requires Run(c, steps).Some? && Run(c, steps).value.process.Some?
    ensures var w := Run(c, steps).value;
            var p := w.process.value;
            && Replay(w.file) == Ok(Maps(p.maps.executions + ExecutionsInFlight(p),
                                         p.maps.compensations + CompensationsInFlight(p)))
            && |ExecutionsInFlight(p)| <= 1 && |CompensationsInFlight(p)| <= 1
            && p.maps.executions.Keys !! ExecutionsInFlight(p).Keys
            && p.maps.compensations.Keys !! CompensationsInFlight(p).Keys
  {
    RunKeepsInv(c, steps);
  }

  lemma RunAppend(c: Config, steps: seq<Step>, step: Step)
    ensures Run(c, steps + [step]) == if Run(c, steps).None? then None else Next(c, Run(c, steps).value, step)
  {
    assert (steps + [step])[..|steps|] == steps;
  }

  /** After a crash at any moment, startup succeeds and has every entry the lost process had,
      the appended and not yet inserted ones included. */
  lemma RestartRecovers(c: Config, steps: seq<Step>)
    requires Run(c, steps).Some? && Run(c, steps).value.process.Some?
    ensures var p := Run(c, steps).value.process.value;
            var w' := Run(c, steps + [Crash, Restart]);
            && w'.Some? && w'.value.process.Some?
            && w'.value.process.value.maps.executions == p.maps.executions + ExecutionsInFlight(p)
            && w'.value.process.value.maps.compensations == p.maps.compensations + CompensationsInFlight(p)
  {
    LogIsMemory(c, steps);
    RunAppend(c, steps, Crash);
    RunAppend(c, steps + [Crash], Restart);
    assert steps + [Crash, Restart] == steps + [Crash] + [Restart];
  }

  /** No key is executed twice, no reference compensated twice, and each compensated event
      belongs to an earlier executed one. */
  lemma EventsAreUnique(c: Config, steps: seq<Step>)
    requires Run(c, steps).Some?
    ensures var file := Run(c, steps).value.file;
            ExecutionsDistinct(file) && CompensationsDistinct(file) && CompensationsFollow(file)
  {
    RunKeepsInv(c, steps);
  }

  function Count(file: seq<Line>, pick: Line -> bool): nat {
    if file == [] then 0
    else Count(file[..|file| - 1], pick) + if pick(file[|file| - 1]) then 1 else 0
  }

  function Refs(file: seq<Line>, pick: Line -> bool): set<Option<string>>
    requires forall i | 0 <= i < |file| && pick(file[i]) :: file[i].Record?
  {
    if file == [] then {}
    else Refs(file[..|file| - 1], pick) + if pick(file[|file| - 1]) then {file[|file| - 1].compensationRef} else {}
  }

  lemma {:induction false} RefsAre(file: seq<Line>, pick: Line -> bool, ref: Option<string>)
    requires forall i | 0 <= i < |file| && pick(file[i]) :: file[i].Record?
    ensures ref in Refs(file, pick) <==> exists i | 0 <= i < |file| :: pick(file[i]) && file[i].compensationRef == ref
  {
    if file != [] { RefsAre(file[..|file| - 1], pick, ref); }
  }

  lemma {:induction false} CountIsRefs(file: seq<Line>, pick: Line -> bool)
    requires forall i | 0 <= i < |file| && pick(file[i]) :: file[i].Record?
    requires forall i, j | 0 <= i < j < |file| && pick(file[i]) && pick(file[j]) ::
               file[i].compensationRef != file[j].compensationRef
    ensures Count(file, pick) == |Refs(file, pick)|
  {
    if file != [] {
      var front := file[..|file| - 1];
      CountIsRefs(front, pick);
      if pick(file[|file| - 1]) { RefsAre(front, pick, file[|file| - 1].compensationRef); }
    }
  }

  lemma SubsetIsSmaller<T>(a: set<T>, b: set<T>)
    requires a <= b
    ensures |a| <= |b|
  {
    assert b == a + (b - a);
  }

  /** In every run, crashes included, compensations never outnumber executions. */
  lemma CompensationsNeverOutnumberExecutions(c: Config, steps: seq<Step>)
    requires Run(c, steps).Some?
    ensures var file := Run(c, steps).value.file;
            Count(file, IsCompensated) <= Count(file, IsExecuted)
  {
    var file := Run(c, steps).value.file;
    EventsAreUnique(c, steps);
    CountIsRefs(file, IsExecuted);
    CountIsRefs(file, IsCompensated);
    forall ref | ref in Refs(file, IsCompensated) ensures ref in Refs(file, IsExecuted) {
      RefsAre(file, IsCompensated, ref);
      RefsAre(file, IsExecuted, ref);
      var j :| 0 <= j < |file| && IsCompensated(file[j]) && file[j].compensationRef == ref;
      assert ExecutedBefore(file, j, file[j].compensationRef);
    }
    SubsetIsSmaller(Refs(file, IsCompensated), Refs(file, IsExecuted));
  }

  // ---------------------------------------------------------------- answers

  ghost predicate Agrees(reply: Reply, d: Maps) {
    match reply
    case Executed(key, out) => key in d.executions ==> out == d.executions[key]
    case Compensated(ref, out) => ref in d.compensations ==> out == d.compensations[ref]
    case _ => true
  }

  ghost predicate Grows(d: Maps, d': Maps) {
    && (forall k | k in d.executions :: k in d'.executions && d'.executions[k] == d.executions[k])
    && (forall k | k in d.compensations :: k in d'.compensations && d'.compensations[k] == d.compensations[k])
  }

  /** w' comes after w: its log extends w's, and what it newly answered agrees with w's log. */
  ghost predicate AnswersFrom(w: World, w': World) {
    && Replay(w.file).Ok? && Replay(w'.file).Ok?
    && Grows(Replay(w.file).value, Replay(w'.file).value)
    && w.replies <= w'.replies
    && forall i | |w.replies| <= i < |w'.replies| :: Agrees(w'.replies[i], Replay(w.file).value)
  }

  lemma SameFileAnswers(w: World, w': World, reply: Reply)
    requires Replay(w.file).Ok? && w'.file == w.file && Agrees(reply, Replay(w.file).value)
    requires w'.replies == w.replies || w'.replies == w.replies + [reply]
    ensures AnswersFrom(w, w')
  {
  }

  lemma AppendAnswers(w: World, w': World, line: Line, d': Maps)
    requires Replay(w.file).Ok? && w'.file == w.file + [line] && ReplayLine(Replay(w.file).value, line) == Ok(d')
    requires Grows(Replay(w.file).value, d')
    requires w'.replies == w.replies || w'.replies == w.replies + [LeaseIssued]
    ensures AnswersFrom(w, w')
  {
    ReplayAppend(w.file, line);
  }

  predicate ExecuteReply(p: Process, pc: Pc, reply: Reply) {
    || reply.Failed?
    || (pc.ExecAppended? && pc.req.ExecuteRequest? && reply == Executed(pc.req.key, pc.out))
    || (pc.ExecLooking? && pc.req.ExecuteRequest? && reply.Executed? && reply.key == pc.req.key
        && (pc.req.key in p.maps.executions ==> reply.executeOutput == p.maps.executions[pc.req.key]))
  }

  /** What a step of an execute handler that appends nothing answers. */
  lemma ExecuteQuietlyAnswers(c: Config, w: World, t: Tid, id: string, io: bool)
    requires w.process.Some? && t in w.process.value.threads && w.process.value.threads[t].req.ExecuteRequest?
    requires AdvanceExecute(c, w, w.process.value, t, id, io).Some? && !(w.process.value.threads[t].ExecWriting? && io)
    ensures var p := w.process.value;
            var w' := AdvanceExecute(c, w, p, t, id, io).value;
            && w'.file == w.file
            && (w'.replies == w.replies
                || exists reply :: w'.replies == w.replies + [reply] && ExecuteReply(p, p.threads[t], reply))
  {
    var p := w.process.value;
    var w' := AdvanceExecute(c, w, p, t, id, io).value;
    if w'.replies != w.replies { assert ExecuteReply(p, p.threads[t], w'.replies[|w.replies|]); }
  }

  lemma ExecuteReplyAgrees(p: Process, d: Maps, usedIds: set<string>, t: Tid, reply: Reply)
    requires ProcessInv(p, d, usedIds) && t in p.threads && ExecuteReply(p, p.threads[t], reply)
    ensures Agrees(reply, d)
  {
    assert PcOk(p.threads[t], d, usedIds);
    if p.threads[t].ExecLooking? { ExecutionsMapIsLog(p, d, usedIds, t); }
  }

  lemma ExecuteAnswersFromLog(c: Config, w: World, t: Tid, id: string, io: bool)
    requires Inv(w) && w.process.Some? && t in w.process.value.threads
    requires w.process.value.threads[t].req.ExecuteRequest?
    requires AdvanceExecute(c, w, w.process.value, t, id, io).Some?
    ensures AnswersFrom(w, AdvanceExecute(c, w, w.process.value, t, id, io).value)
  {
    var p := w.process.value;
    var pc, d := p.threads[t], Replay(w.file).value;
    var w' := AdvanceExecute(c, w, p, t, id, io).value;
    if pc.ExecWriting? && io {
      assert PcOk(pc, d, w.usedIds);
      AppendAnswers(w, w', ExecutedLine(pc.req.key, pc.out), d.(executions := d.executions[pc.req.key := pc.out]));
    } else {
      ExecuteQuietlyAnswers(c, w, t, id, io);
      if w'.replies == w.replies {
        SameFileAnswers(w, w', LeaseIssued);
      } else {
        ExecuteReplyAgrees(p, d, w.usedIds, t, w'.replies[|w.replies|]);
        SameFileAnswers(w, w', w'.replies[|w.replies|]);
      }
    }
  }

  /** What a step of a compensate handler that appends nothing answers. */
  lemma CompensateQuietlyAnswers(w: World, t: Tid, id: string, io: bool)
    requires w.process.Some? && t in w.process.value.threads && w.process.value.threads[t].req.CompensateRequest?
    requires AdvanceCompensate(w, w.process.value, t, id, io).Some? && !(w.process.value.threads[t].CompWriting? && io)
    ensures var p := w.process.value;
            var w' := AdvanceCompensate(w, p, t, id, io).value;
            && w'.file == w.file
            && (w'.replies == w.replies || exists reply ::
                w'.replies == w.replies + [reply] && CompensateReply(p, p.threads[t], reply))
  {
    var p := w.process.value;
    var pc := p.threads[t];
    var w' := AdvanceCompensate(w, p, t, id, io).value;
    if w'.replies != w.replies { assert CompensateReply(p, pc, w'.replies[|w.replies|]); }
  }

  predicate CompensateReply(p: Process, pc: Pc, reply: Reply) {
    || reply.Failed?
    || (pc.CompAppended? && pc.req.CompensateRequest? && reply == Compensated(pc.req.ref, pc.done))
    || (pc.CompLooking? && pc.req.CompensateRequest? && pc.req.ref in p.maps.compensations
        && reply == Compensated(pc.req.ref, p.maps.compensations[pc.req.ref]))
  }

  lemma CompensateReplyAgrees(p: Process, d: Maps, usedIds: set<string>, t: Tid, reply: Reply)
    requires ProcessInv(p, d, usedIds) && t in p.threads && CompensateReply(p, p.threads[t], reply)
    ensures Agrees(reply, d)
  {
    assert PcOk(p.threads[t], d, usedIds);
    if p.threads[t].CompLooking? { CompensationsMapIsLog(p, d, usedIds, t); }
  }

  lemma CompensateAnswersFromLog(w: World, t: Tid, id: string, io: bool)
    requires Inv(w) && w.process.Some? && t in w.process.value.threads
    requires w.process.value.threads[t].req.CompensateRequest?
    requires AdvanceCompensate(w, w.process.value, t, id, io).Some?
    ensures AnswersFrom(w, AdvanceCompensate(w, w.process.value, t, id, io).value)
  {
    var p := w.process.value;
    var pc, d := p.threads[t], Replay(w.file).value;
    var w' := AdvanceCompensate(w, p, t, id, io).value;
    if pc.CompWriting? && io {
      assert PcOk(pc, d, w.usedIds);
      AppendAnswers(w, w', CompensatedLine(pc.req.ref, pc.done),
          d.(compensations := d.compensations[pc.req.ref := pc.done]));
    } else {
      CompensateQuietlyAnswers(w, t, id, io);
      if w'.replies == w.replies {
        SameFileAnswers(w, w', LeaseIssued);
      } else {
        CompensateReplyAgrees(p, d, w.usedIds, t, w'.replies[|w.replies|]);
        SameFileAnswers(w, w', w'.replies[|w.replies|]);
      }
    }
  }

  lemma LeaseAnswersFromLog(w: World, t: Tid, io: bool)
    requires Replay(w.file).Ok? && w.process.Some? && t in w.process.value.threads
    requires w.process.value.threads[t].req.LeaseRequest?
    requires AdvanceLease(w, w.process.value, t, io).Some?
    ensures AnswersFrom(w, AdvanceLease(w, w.process.value, t, io).value)
  {
    var w' := AdvanceLease(w, w.process.value, t, io).value;
    if w'.file == w.file {
      SameFileAnswers(w, w', Failed(Internal));
    } else {
      AppendAnswers(w, w', LeaseLine(), Replay(w.file).value);
    }
  }

  lemma ArrivalAnswersFromLog(c: Config, w: World, t: Tid, r: Request)
    requires Replay(w.file).Ok? && w.process.Some?
    ensures AnswersFrom(w, Accept(c, w, w.process.value, t, r))
  {
    var w' := Accept(c, w, w.process.value, t, r);
    SameFileAnswers(w, w', if w'.replies == w.replies then LeaseIssued else w'.replies[|w.replies|]);
  }

  lemma StepAnswersFromLog(c: Config, w: World, step: Step)
    requires Inv(w) && Next(c, w, step).Some?
    ensures AnswersFrom(w, Next(c, w, step).value)
  {
    match step {
      case Restart => SameFileAnswers(w, Next(c, w, step).value, LeaseIssued);
      case Crash => SameFileAnswers(w, Next(c, w, step).value, LeaseIssued);
      case Cancel(_) => SameFileAnswers(w, Next(c, w, step).value, LeaseIssued);
      case Arrive(t, r) => ArrivalAnswersFromLog(c, w, t, r);
      case Advance(t, id, io) =>
        match w.process.value.threads[t].req {
          case ExecuteRequest(_, _, _, _, _, _) => ExecuteAnswersFromLog(c, w, t, id, io);
          case CompensateRequest(_, _, _) => CompensateAnswersFromLog(w, t, id, io);
          case LeaseRequest(_, _, _) => LeaseAnswersFromLog(w, t, io);
        }
    }
  }

  lemma AgreesWithEarlier(reply: Reply, d: Maps, d': Maps)
    requires Grows(d, d') && Agrees(reply, d')
    ensures Agrees(reply, d)
  {
  }

  lemma AnswersCompose(w: World, w': World, w'': World)
    requires AnswersFrom(w, w') && AnswersFrom(w', w'')
    ensures AnswersFrom(w, w'')
  {
    forall i | |w.replies| <= i < |w''.replies| ensures Agrees(w''.replies[i], Replay(w.file).value) {
      if i < |w'.replies| {
        assert w''.replies[i] == w'.replies[i];
      } else {
        AgreesWithEarlier(w''.replies[i], Replay(w.file).value, Replay(w'.file).value);
      }
    }
  }

  /** Once a key is in the log, every later answer to it is the logged output; likewise for a
      compensated reference. This holds across crashes, and even when the process died between
      the append and the first answer. */
  lemma {:induction false} LoggedKeyIsAnsweredFromLog(c: Config, steps: seq<Step>, more: seq<Step>)
    requires Run(c, steps + more).Some?
    ensures Run(c, steps).Some?
    ensures AnswersFrom(Run(c, steps).value, Run(c, steps + more).value)
    decreases |more|
  {
    if more == [] {
      assert steps + more == steps;
      RunKeepsInv(c, steps);
      SameFileAnswers(Run(c, steps).value, Run(c, steps).value, LeaseIssued);
    } else {
      var front, step := more[..|more| - 1], more[|more| - 1];
      assert steps + more == steps + front + [step];
      RunAppend(c, steps + front, step);
      LoggedKeyIsAnsweredFromLog(c, steps, front);
      RunKeepsInv(c, steps + front);
      var w, w' := Run(c, steps).value, Run(c, steps + front).value;
      StepAnswersFromLog(c, w', step);
      AnswersCompose(w, w', Next(c, w', step).value);
    }
  }

  /** Over a whole run a key that has once been answered as applied is never answered otherwise,
      and a reference that has once been answered is always answered the same. */
  lemma AnswersNeverChange(c: Config, steps: seq<Step>)
    requires Run(c, steps).Some?
    ensures RepliesStable(Run(c, steps).value.replies)
  {
    RunKeepsInv(c, steps);
  }

  // ---------------------------------------------------------------- no deadlock

  /** How many steps a handler can still take. */
  function Rank(pc: Pc): nat {
    match pc
    case ExecAwaitMap(_) => 5
    case ExecLooking(_) => 4
    case ExecAwaitFile(_, _) => 3
    case ExecWriting(_, _) => 2
    case ExecAppended(_, _) => 1
    case CompAwaitMap(_) => 7
    case CompLooking(_) => 6
    case CompAwaitExecutions(_) => 5
    case CompScanning(_) => 4
    case CompAwaitFile(_, _) => 3
    case CompWriting(_, _) => 2
    case CompAppended(_, _) => 1
    case LeaseAwaitFile(_) => 2
    case LeaseWriting(_) => 1
  }

  /** The owner of the innermost lock that is taken, or any handler when none is. */
  lemma InnermostOwner(p: Process) returns (t: Tid)
    requires LocksOk(p) && p.threads != map[]
    ensures t in p.threads
    ensures p.fileLock.Some? ==> HoldsFile(p.threads[t])
    ensures p.fileLock.None? && p.executionsLock.Some? ==> HoldsExecutions(p.threads[t])
    ensures p.fileLock.None? && p.executionsLock.None? && p.compensationsLock.Some? ==> HoldsCompensations(p.threads[t])
  {
    if p.fileLock.Some? {
      t := p.fileLock.value;
    } else if p.executionsLock.Some? {
      t := p.executionsLock.value;
    } else if p.compensationsLock.Some? {
      t := p.compensationsLock.value;
    } else {
      t :| t in p.threads;
    }
  }

  /** The handler waits for no lock that is taken. */
  predicate Unhindered(p: Process, pc: Pc) {
    && (pc.ExecAwaitMap? || pc.CompAwaitExecutions? ==> p.executionsLock.None?)
    && (pc.CompAwaitMap? ==> p.compensationsLock.None?)
    && (pc.ExecAwaitFile? || pc.CompAwaitFile? || pc.LeaseAwaitFile? ==> p.fileLock.None?)
  }

  lemma UnhinderedSteps(c: Config, w: World, t: Tid, id: string, io: bool)
    requires w.process.Some? && t in w.process.value.threads && Unhindered(w.process.value, w.process.value.threads[t])
    requires Replay(w.file).Ok? && PcOk(w.process.value.threads[t], Replay(w.file).value, w.usedIds)
    requires FreshEventId(w, id)
    ensures Next(c, w, Advance(t, id, io)).Some?
  {
  }

  /** The lock order compensations, executions, file never deadlocks: while a handler is running,
      some handler can take its next step. */
  lemma SomeHandlerCanStep(c: Config, steps: seq<Step>, id: string) returns (t: Tid)
    requires Run(c, steps).Some? && Run(c, steps).value.process.Some?
    requires Run(c, steps).value.process.value.threads != map[]
    requires FreshEventId(Run(c, steps).value, id)
    ensures t in Run(c, steps).value.process.value.threads
    ensures forall io :: Next(c, Run(c, steps).value, Advance(t, id, io)).Some?
  {
    var w := Run(c, steps).value;
    RunKeepsInv(c, steps);
    t := InnermostOwner(w.process.value);
    forall io ensures Next(c, w, Advance(t, id, io)).Some? { UnhinderedSteps(c, w, t, id, io); }
  }

  /** Each step of a handler ends it or brings it closer to its end, and leaves the others where
      they are, so no handler takes more than seven steps. */
  lemma StepsAreBounded(c: Config, w: World, t: Tid, id: string, io: bool)
    requires Inv(w) && Next(c, w, Advance(t, id, io)).Some?
    ensures Closer(w.process.value, Next(c, w, Advance(t, id, io)).value.process, t)
  {
    assert PcOk(w.process.value.threads[t], Replay(w.file).value, w.usedIds);
    match w.process.value.threads[t].req {
      case ExecuteRequest(_, _, _, _, _, _) => ExecuteStepsAreBounded(c, w, t, id, io);
      case CompensateRequest(_, _, _) => CompensateStepsAreBounded(w, t, id, io);
      case LeaseRequest(_, _, _) =>
    }
  }

  ghost predicate Closer(p: Process, p': Option<Process>, t: Tid)
    requires t in p.threads
  {
    && p'.Some?
    && (t in p'.value.threads ==> Rank(p'.value.threads[t]) < Rank(p.threads[t]) <= 7)
    && p'.value.threads - {t} == p.threads - {t}
  }

  lemma ExecuteStepsAreBounded(c: Config, w: World, t: Tid, id: string, io: bool)
    requires w.process.Some? && t in w.process.value.threads && w.process.value.threads[t].req.ExecuteRequest?
    requires AdvanceExecute(c, w, w.process.value, t, id, io).Some?
    ensures Closer(w.process.value, AdvanceExecute(c, w, w.process.value, t, id, io).value.process, t)
  {
  }

  lemma CompensateStepsAreBounded(w: World, t: Tid, id: string, io: bool)
    requires w.process.Some? && t in w.process.value.threads && w.process.value.threads[t].req.CompensateRequest?
    requires AdvanceCompensate(w, w.process.value, t, id, io).Some?
    ensures Closer(w.process.value, AdvanceCompensate(w, w.process.value, t, id, io).value.process, t)
  {
  }
}
