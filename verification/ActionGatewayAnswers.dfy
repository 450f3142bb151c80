/** What the action gateway answers, told by the lines of its log: which reply a step may give in any
    run, and the reply that a request gets when nothing hinders it. */
module ActionGatewayAnswers {
  import opened Wrappers
  import opened ActionGateway
  import opened ActionGatewaySafety
  import opened ActionGatewayTheorems
  import opened ActionGatewayAdmission

  // ---------------------------------------------------------------- what a log says

  /** The line records an execution of the key. */
  ghost predicate OfKey(line: Line, key: string) {
    line.Record? && line.eventType == Some(EXECUTED) && line.idempotencyKey == Some(key)
  }

  /** The line records a compensation of the reference. */
  ghost predicate OfRef(line: Line, ref: string) {
    line.Record? && line.eventType == Some(COMPENSATED) && line.compensationRef == Some(ref)
  }

  ghost predicate KeyLogged(file: seq<Line>, key: string) {
    exists i | 0 <= i < |file| :: OfKey(file[i], key)
  }

  ghost predicate RefLogged(file: seq<Line>, ref: string) {
    exists i | 0 <= i < |file| :: OfRef(file[i], ref)
  }

  /** The last line of the key carries the output. */
  ghost predicate LastOfKey(file: seq<Line>, key: string, out: ExecuteOutput) {
    exists i | 0 <= i < |file| :: && OfKey(file[i], key) && file[i].executeOutput == Some(out)
                                  && forall j | i < j < |file| :: !OfKey(file[j], key)
  }

  ghost predicate LastOfRef(file: seq<Line>, ref: string, out: CompensateOutput) {
    exists i | 0 <= i < |file| :: && OfRef(file[i], ref) && file[i].compensateOutput == Some(out)
                                  && forall j | i < j < |file| :: !OfRef(file[j], ref)
  }

  /** The line is not JSON, or records an event without its key or its output. */
  ghost predicate Faulty(line: Line, e: LoadError) {
    match e
    case LogMalformed => line.Malformed?
    case KeyMissing => line.Record? && line.eventType == Some(EXECUTED) && line.idempotencyKey.None?
    case ExecutionMalformed =>
      && line.Record? && line.eventType == Some(EXECUTED)
      && line.idempotencyKey.Some? && line.executeOutput.None?
    case RefMissing => line.Record? && line.eventType == Some(COMPENSATED) && line.compensationRef.None?
    case CompensationMalformed =>
      && line.Record? && line.eventType == Some(COMPENSATED)
      && line.compensationRef.Some? && line.compensateOutput.None?
  }

  ghost predicate FaultlessBefore(file: seq<Line>, n: nat)
    requires n <= |file|
  {
    forall i, e | 0 <= i < n :: !Faulty(file[i], e)
  }

  /** The maps have exactly the keys and references that have a line, each with its last line's output. */
  ghost predicate MapsOf(file: seq<Line>, m: Maps) {
    && (forall key :: key in m.executions <==> KeyLogged(file, key))
    && (forall key | key in m.executions :: LastOfKey(file, key, m.executions[key]))
    && (forall ref :: ref in m.compensations <==> RefLogged(file, ref))
    && (forall ref | ref in m.compensations :: LastOfRef(file, ref, m.compensations[ref]))
  }

  lemma LineMeans(m: Maps, line: Line)
    ensures var r := ReplayLine(m, line);
            && (r.Ok? <==> forall e :: !Faulty(line, e))
            && (forall e :: r == Err(e) <==> Faulty(line, e))
  {
    var r := ReplayLine(m, line);
    forall e ensures r == Err(e) <==> Faulty(line, e) {}
    if r.Err? { assert Faulty(line, r.error); }
  }

  /** The same maps, said of a log with one more line. */
  lemma MapsGrow(file: seq<Line>, line: Line, m: Maps)
    requires MapsOf(file, m) && ReplayLine(m, line).Ok?
    ensures MapsOf(file + [line], ReplayLine(m, line).value)
  {
    ExecutionsGrow(file, line, m);
    CompensationsGrow(file, line, m);
  }

  lemma ExecutionsGrow(file: seq<Line>, line: Line, m: Maps)
    requires MapsOf(file, m) && ReplayLine(m, line).Ok?
    ensures var m' := ReplayLine(m, line).value;
            && (forall key :: key in m'.executions <==> KeyLogged(file + [line], key))
            && (forall key | key in m'.executions :: LastOfKey(file + [line], key, m'.executions[key]))
  {
    var m' := ReplayLine(m, line).value;
    var longer := file + [line];
    forall key ensures key in m'.executions <==> KeyLogged(longer, key) {
      KeyLoggedGrows(file, line, key);
    }
    forall key | key in m'.executions ensures LastOfKey(longer, key, m'.executions[key]) {
      if OfKey(line, key) {
        assert longer[|file|] == line;
      } else {
        LastOfKeyGrows(file, line, key, m.executions[key]);
      }
    }
  }

  lemma CompensationsGrow(file: seq<Line>, line: Line, m: Maps)
    requires MapsOf(file, m) && ReplayLine(m, line).Ok?
    ensures var m' := ReplayLine(m, line).value;
            && (forall ref :: ref in m'.compensations <==> RefLogged(file + [line], ref))
            && (forall ref | ref in m'.compensations :: LastOfRef(file + [line], ref, m'.compensations[ref]))
  {
    var m' := ReplayLine(m, line).value;
    var longer := file + [line];
    forall ref ensures ref in m'.compensations <==> RefLogged(longer, ref) {
      RefLoggedGrows(file, line, ref);
    }
    forall ref | ref in m'.compensations ensures LastOfRef(longer, ref, m'.compensations[ref]) {
      if OfRef(line, ref) {
        assert longer[|file|] == line;
      } else {
        LastOfRefGrows(file, line, ref, m.compensations[ref]);
      }
    }
  }

  lemma KeyLoggedGrows(file: seq<Line>, line: Line, key: string)
    ensures KeyLogged(file + [line], key) <==> KeyLogged(file, key) || OfKey(line, key)
  {
    var longer := file + [line];
    assert longer[|file|] == line;
    if KeyLogged(file, key) {
      var i :| 0 <= i < |file| && OfKey(file[i], key);
      assert longer[i] == file[i];
    }
  }

  lemma RefLoggedGrows(file: seq<Line>, line: Line, ref: string)
    ensures RefLogged(file + [line], ref) <==> RefLogged(file, ref) || OfRef(line, ref)
  {
    var longer := file + [line];
    assert longer[|file|] == line;
    if RefLogged(file, ref) {
      var i :| 0 <= i < |file| && OfRef(file[i], ref);
      assert longer[i] == file[i];
    }
  }

  lemma LastOfKeyGrows(file: seq<Line>, line: Line, key: string, out: ExecuteOutput)
    requires LastOfKey(file, key, out) && !OfKey(line, key)
    ensures LastOfKey(file + [line], key, out)
  {
    var i :| 0 <= i < |file| && OfKey(file[i], key) && file[i].executeOutput == Some(out)
        && forall j | i < j < |file| :: !OfKey(file[j], key);
    var longer := file + [line];
    assert longer[i] == file[i];
  }

  lemma LastOfRefGrows(file: seq<Line>, line: Line, ref: string, out: CompensateOutput)
    requires LastOfRef(file, ref, out) && !OfRef(line, ref)
    ensures LastOfRef(file + [line], ref, out)
  {
    var i :| 0 <= i < |file| && OfRef(file[i], ref) && file[i].compensateOutput == Some(out)
        && forall j | i < j < |file| :: !OfRef(file[j], ref);
    var longer := file + [line];
    assert longer[i] == file[i];
  }

  /** A log loads iff none of its lines is faulty; the maps then have exactly the logged keys and
      references with the outputs of their last lines. Otherwise the error is that of the first fault. */
  lemma {:induction false} ReplayMeans(file: seq<Line>)
    ensures var r := Replay(file);
            && (r.Ok? <==> FaultlessBefore(file, |file|))
            && (r.Ok? ==> MapsOf(file, r.value))
            && (r.Err? ==> exists n | 0 <= n < |file| :: FaultlessBefore(file, n) && Faulty(file[n], r.error))
  {
    if file != [] {
      var front, line := file[..|file| - 1], file[|file| - 1];
      ReplayMeans(front);
      assert file == front + [line];
      assert forall i | 0 <= i < |front| :: file[i] == front[i];
      if Replay(front).Ok? {
        LineMeans(Replay(front).value, line);
        if Replay(file).Ok? {
          MapsGrow(front, line, Replay(front).value);
        } else {
          assert FaultlessBefore(file, |front|) && Faulty(file[|front|], Replay(file).error);
        }
      } else {
        var n :| 0 <= n < |front| && FaultlessBefore(front, n) && Faulty(front[n], Replay(file).error);
        assert FaultlessBefore(file, n) && Faulty(file[n], Replay(file).error);
      }
    }
  }

  /** Some execution in the log gave out the reference. */
  ghost predicate RefGivenOut(file: seq<Line>, ref: string) {
    exists i | 0 <= i < |file| ::
      file[i].Record? && file[i].eventType == Some(EXECUTED) && file[i].compensationRef == Some(ref)
  }

  lemma KnownIffGivenOut(file: seq<Line>, usedIds: set<string>, ref: string)
    requires LogInv(file, usedIds)
    ensures KnownRef(Replay(file).value.executions, ref) <==> RefGivenOut(file, ref)
  {
    var d := Replay(file).value;
    if KnownRef(d.executions, ref) {
      var k :| k in d.executions && d.executions[k].compensationRef == Some(ref);
      assert ExecutedBefore(file, |file|, d.executions[k].compensationRef);
    }
    if RefGivenOut(file, ref) {
      var i :| 0 <= i < |file| && IsExecuted(file[i]) && file[i].compensationRef == Some(ref);
      assert d.executions[file[i].idempotencyKey.value].compensationRef == Some(ref);
    }
  }

  // ---------------------------------------------------------------- which reply a step may give

  /** Why a request is turned away on arrival. */
  ghost predicate TurnedAway(c: Config, r: Request, code: ErrorCode) {
    match code
    case Unauthorized => !HasBearer(c, r)
    case KeyRequired => HasBearer(c, r) && r.ExecuteRequest? && OnlySpace(r.key)
    case RefInvalid => HasBearer(c, r) && r.CompensateRequest? && !(ACTION_PREFIX <= r.ref)
    case InvalidCredentialRequest => HasBearer(c, r) && r.LeaseRequest? && (OnlySpace(r.planId) || OnlySpace(r.scope))
    case ScopeNotAllowed =>
      && HasBearer(c, r) && r.LeaseRequest? && !OnlySpace(r.planId) && !OnlySpace(r.scope)
      && c.allowedScopes != [] && r.scope !in c.allowedScopes
    case _ => false
  }

  /** The request is admissible iff there is no reason to turn it away. */
  lemma AdmissibleIff(c: Config, r: Request)
    ensures Admissible(c, r) <==> forall code :: !TurnedAway(c, r, code)
  {
    if forall code :: !TurnedAway(c, r, code) {
      assert !TurnedAway(c, r, Unauthorized);
      assert !TurnedAway(c, r, KeyRequired) && !TurnedAway(c, r, RefInvalid);
      assert !TurnedAway(c, r, InvalidCredentialRequest) && !TurnedAway(c, r, ScopeNotAllowed);
    }
  }

  /** The answer to a request that may not be executed, and why. */
  ghost predicate RejectedFor(c: Config, r: Request, out: ExecuteOutput)
    requires r.ExecuteRequest?
  {
    && !Executable(c, r)
    && !out.accepted && out.status == "rejected" && out.resultRef.None? && out.compensationRef.None?
    && out.targetEventId.None? && out.traceId == r.traceId
    && out.errorCode ==
         Some(if r.connector != c.connector then "connector_mismatch" else "credential_provider_ref_invalid")
  }

  /** The log before the step, the handler's request, whether its write succeeds and whether it was
      about to write: what each reply needs. */
  ghost predicate Due(c: Config, file: seq<Line>, pc: Pc, io: bool, reply: Reply, file': seq<Line>) {
    match reply
    case Executed(key, out) =>
      && pc.req.ExecuteRequest? && pc.req.key == key && file' == file
      && (LastOfKey(file, key, out) || (!KeyLogged(file, key) && RejectedFor(c, pc.req, out)))
    case Compensated(ref, out) =>
      pc.req.CompensateRequest? && pc.req.ref == ref && file' == file && LastOfRef(file, ref, out)
    case LeaseIssued => pc.req.LeaseRequest? && io && file' == file + [LeaseLine()]
    case Failed(code) =>
      && file' == file
      && if code.RefNotFound? then
           pc.req.CompensateRequest? && !RefGivenOut(file, pc.req.ref) && !RefLogged(file, pc.req.ref)
         else code.Internal? && !io && HoldsFile(pc)
  }

  /** w' has one more reply than w, or none more. */
  ghost predicate AtMostOneReply(w: World, w': World) {
    w'.replies == w.replies || (|w'.replies| == |w.replies| + 1 && w'.replies[..|w.replies|] == w.replies)
  }

  lemma ExecuteReplyIsDue(c: Config, w: World, t: Tid, id: string, io: bool)
    requires Inv(w) && w.process.Some? && t in w.process.value.threads
    requires w.process.value.threads[t].req.ExecuteRequest?
    requires AdvanceExecute(c, w, w.process.value, t, id, io).Some?
    ensures var w' := AdvanceExecute(c, w, w.process.value, t, id, io).value;
            && AtMostOneReply(w, w')
            && (w'.replies != w.replies ==>
                  Due(c, w.file, w.process.value.threads[t], io, w'.replies[|w.replies|], w'.file))
  {
    var p := w.process.value;
    var pc, d := p.threads[t], Replay(w.file).value;
    assert PcOk(pc, d, w.usedIds);
    ReplayMeans(w.file);
    if pc.ExecLooking? {
      ExecutionsMapIsLog(p, d, w.usedIds, t);
      ProviderRefMeans(pc.req);
    }
  }

  /** A compensated reference was given out by an execution. */
  lemma CompensatedWasGivenOut(file: seq<Line>, ref: string)
    requires CompensationsFollow(file) && RefLogged(file, ref)
    ensures RefGivenOut(file, ref)
  {
    var j :| 0 <= j < |file| && OfRef(file[j], ref);
    assert ExecutedBefore(file, j, file[j].compensationRef);
  }

  lemma CompensateReplyIsDue(c: Config, w: World, t: Tid, id: string, io: bool)
    requires Inv(w) && w.process.Some? && t in w.process.value.threads
    requires w.process.value.threads[t].req.CompensateRequest?
    requires AdvanceCompensate(w, w.process.value, t, id, io).Some?
    ensures var w' := AdvanceCompensate(w, w.process.value, t, id, io).value;
            && AtMostOneReply(w, w')
            && (w'.replies != w.replies ==>
                  Due(c, w.file, w.process.value.threads[t], io, w'.replies[|w.replies|], w'.file))
  {
    var p := w.process.value;
    var pc, d := p.threads[t], Replay(w.file).value;
    assert PcOk(pc, d, w.usedIds);
    ReplayMeans(w.file);
    if pc.CompLooking? {
      CompensationsMapIsLog(p, d, w.usedIds, t);
    } else if pc.CompScanning? {
      ExecutionsMapIsLog(p, d, w.usedIds, t);
      KnownIffGivenOut(w.file, w.usedIds, pc.req.ref);
    }
  }

  lemma LeaseReplyIsDue(c: Config, w: World, t: Tid, io: bool)
    requires w.process.Some? && t in w.process.value.threads && w.process.value.threads[t].req.LeaseRequest?
    requires AdvanceLease(w, w.process.value, t, io).Some?
    ensures var w' := AdvanceLease(w, w.process.value, t, io).value;
            && AtMostOneReply(w, w')
            && (w'.replies != w.replies ==>
                  Due(c, w.file, w.process.value.threads[t], io, w'.replies[|w.replies|], w'.file))
  {
  }

  lemma ArrivalReplyIsDue(c: Config, w: World, t: Tid, r: Request)
    requires w.process.Some?
    ensures var w' := Accept(c, w, w.process.value, t, r);
            && AtMostOneReply(w, w')
            && (w'.replies != w.replies ==> w'.replies[|w.replies|].Failed?)
            && forall code :: w'.replies == w.replies + [Failed(code)] <==> TurnedAway(c, r, code)
  {
    var w' := Accept(c, w, w.process.value, t, r);
    forall code ensures w'.replies == w.replies + [Failed(code)] <==> TurnedAway(c, r, code) {
      assert (w.replies + [Failed(code)])[|w.replies|] == Failed(code);
    }
  }

  /** What a step may answer. */
  ghost predicate AnswersDuly(c: Config, w: World, step: Step, w': World) {
    && AtMostOneReply(w, w')
    && match step
       case Arrive(_, r) =>
         && (w'.replies != w.replies ==> w'.replies[|w.replies|].Failed?)
         && forall code :: w'.replies == w.replies + [Failed(code)] <==> TurnedAway(c, r, code)
       case Advance(t, _, io) =>
         w'.replies != w.replies ==>
           && w.process.Some? && t in w.process.value.threads
           && Due(c, w.file, w.process.value.threads[t], io, w'.replies[|w.replies|], w'.file)
       case _ => w'.replies == w.replies
  }

  /** In every run, a step gives at most one reply, and only a due one: a request is turned away on arrival
      iff it fails a check there, for that check's reason. A later answer to a key is the logged one, or a
      rejection of an unlogged key that may not be executed; an answer to a reference is the logged one; a
      reference is not found only if no execution in the log gave it out; and only a failed write is an
      internal error. */
  lemma EveryReplyIsDue(c: Config, steps: seq<Step>, step: Step)
    requires Run(c, steps + [step]).Some?
    ensures Run(c, steps).Some?
    ensures AnswersDuly(c, Run(c, steps).value, step, Run(c, steps + [step]).value)
  {
    RunAppend(c, steps, step);
    RunKeepsInv(c, steps);
    var w := Run(c, steps).value;
    match step {
      case Restart =>
      case Crash =>
      case Cancel(_) =>
      case Arrive(t, r) => ArrivalReplyIsDue(c, w, t, r);
      case Advance(t, id, io) =>
        match w.process.value.threads[t].req {
          case ExecuteRequest(_, _, _, _, _, _) => ExecuteReplyIsDue(c, w, t, id, io);
          case CompensateRequest(_, _, _) => CompensateReplyIsDue(c, w, t, id, io);
          case LeaseRequest(_, _, _) => LeaseReplyIsDue(c, w, t, io);
        }
    }
  }

  // ---------------------------------------------------------------- a request that nothing hinders

  /** A request arrives and its handler takes n steps. */
  function Solo(t: Tid, r: Request, id: string, n: nat): seq<Step> {
    if n == 0 then [Arrive(t, r)] else Solo(t, r, id, n - 1) + [Advance(t, id, true)]
  }

  /** The world after them. */
  function Serve(c: Config, w: World, t: Tid, r: Request, id: string, n: nat): Option<World> {
    if n == 0 then Next(c, w, Arrive(t, r))
    else
      var before := Serve(c, w, t, r, id, n - 1);
      if before.None? then None else Next(c, before.value, Advance(t, id, true))
  }

  lemma RunGroups(c: Config, steps: seq<Step>, more: seq<Step>, step: Step)
    ensures Run(c, steps + (more + [step])) ==
            if Run(c, steps + more).None? then None else Next(c, Run(c, steps + more).value, step)
  {
    assert steps + (more + [step]) == steps + more + [step];
    RunAppend(c, steps + more, step);
  }

  lemma {:induction false} ServeIsRun(c: Config, steps: seq<Step>, t: Tid, r: Request, id: string, n: nat)
    requires Run(c, steps).Some?
    ensures Run(c, steps + Solo(t, r, id, n)) == Serve(c, Run(c, steps).value, t, r, id, n)
  {
    if n == 0 {
      RunAppend(c, steps, Arrive(t, r));
    } else {
      ServeIsRun(c, steps, t, r, id, n - 1);
      RunGroups(c, steps, Solo(t, r, id, n - 1), Advance(t, id, true));
    }
  }

  /** The process runs, all its locks are free and it has no handler t. */
  ghost predicate Idle(w: World, t: Tid) {
    && w.process.Some? && t !in w.process.value.threads
    && w.process.value.executionsLock.None? && w.process.value.compensationsLock.None?
    && w.process.value.fileLock.None?
  }

  /** w' is w with one more reply and the further lines, its locks free and its handlers as before. */
  ghost predicate Served(w: World, t: Tid, w': World, reply: Reply, lines: seq<Line>) {
    && w'.file == w.file + lines && w'.replies == w.replies + [reply]
    && Idle(w', t) && w.process.Some? && w'.process.value.threads == w.process.value.threads
  }

  /** When all locks are free, the maps are what the log says. */
  lemma IdleMapsAreLog(w: World, t: Tid)
    requires Inv(w) && Idle(w, t)
    ensures MapsOf(w.file, w.process.value.maps)
  {
    IdleMapsAreReplay(w.process.value, Replay(w.file).value);
    ReplayMeans(w.file);
  }

  lemma IdleMapsAreReplay(p: Process, d: Maps)
    requires MemoryMatchesLog(p, d) && p.executionsLock.None? && p.compensationsLock.None?
    ensures p.maps == d
  {
    assert ExecutionsInFlight(p) == map[] && CompensationsInFlight(p) == map[];
  }

  lemma LeavingAgain(threads: map<Tid, Pc>, t: Tid, pc: Pc)
    requires t !in threads
    ensures threads[t := pc] - {t} == threads
  {
  }

  lemma ExecuteLooks(c: Config, w: World, t: Tid, r: Request, id: string)
    requires Idle(w, t) && r.ExecuteRequest? && Admissible(c, r)
    ensures var p := w.process.value;
            Serve(c, w, t, r, id, 1) ==
              Some(Goto(w, p.(executionsLock := Some(t)), t, ExecLooking(r)))
  {
    ArrivalReplyIsDue(c, w, t, r);
    var p := w.process.value;
    assert Serve(c, w, t, r, id, 0) == Some(Goto(w, p, t, ExecAwaitMap(r)));
    assert p.threads[t := ExecAwaitMap(r)][t := ExecLooking(r)] == p.threads[t := ExecLooking(r)];
  }

  lemma ExecuteAnsweredAtOnce(c: Config, w: World, t: Tid, r: Request, id: string, out: ExecuteOutput)
    requires Idle(w, t) && r.ExecuteRequest? && Admissible(c, r)
    requires var executions := w.process.value.maps.executions;
             if r.key in executions then out == executions[r.key]
             else if r.connector != c.connector then out == Rejected("connector_mismatch", r.traceId)
             else !OwnCredential(r) && out == Rejected("credential_provider_ref_invalid", r.traceId)
    ensures var w' := Serve(c, w, t, r, id, 2); w'.Some? && Served(w, t, w'.value, Executed(r.key, out), [])
  {
    ExecuteLooks(c, w, t, r, id);
    ProviderRefMeans(r);
    LeavingAgain(w.process.value.threads, t, ExecLooking(r));
    assert w.file + [] == w.file;
  }

  /** A request for a key in the log is given the logged output, and nothing is written. */
  lemma RepeatedExecuteAlone(c: Config, steps: seq<Step>, t: Tid, r: Request, id: string)
    requires Run(c, steps).Some? && Idle(Run(c, steps).value, t)
    requires r.ExecuteRequest? && Admissible(c, r)
    requires KeyLogged(Run(c, steps).value.file, r.key)
    ensures var w := Run(c, steps).value;
            var w' := Run(c, steps + Solo(t, r, id, 2));
            w'.Some? && exists out :: LastOfKey(w.file, r.key, out) && Served(w, t, w'.value, Executed(r.key, out), [])
  {
    var w := Run(c, steps).value;
    RunKeepsInv(c, steps);
    IdleMapsAreLog(w, t);
    ServeIsRun(c, steps, t, r, id, 2);
    ExecuteAnsweredAtOnce(c, w, t, r, id, w.process.value.maps.executions[r.key]);
    assert LastOfKey(w.file, r.key, w.process.value.maps.executions[r.key]);
  }

  /** A request for a new key that is for another connector, or whose credential is not one of its plan, is
      rejected for that reason, and nothing is written. */
  lemma RejectedExecuteAlone(c: Config, steps: seq<Step>, t: Tid, r: Request, id: string)
    requires Run(c, steps).Some? && Idle(Run(c, steps).value, t)
    requires r.ExecuteRequest? && Admissible(c, r)
    requires !KeyLogged(Run(c, steps).value.file, r.key) && !Executable(c, r)
    ensures var w := Run(c, steps).value;
            var w' := Run(c, steps + Solo(t, r, id, 2));
            w'.Some? && exists out :: RejectedFor(c, r, out) && Served(w, t, w'.value, Executed(r.key, out), [])
  {
    var w := Run(c, steps).value;
    RunKeepsInv(c, steps);
    IdleMapsAreLog(w, t);
    ServeIsRun(c, steps, t, r, id, 2);
    var code := if r.connector != c.connector then "connector_mismatch" else "credential_provider_ref_invalid";
    assert RejectedFor(c, r, Rejected(code, r.traceId));
    ExecuteAnsweredAtOnce(c, w, t, r, id, Rejected(code, r.traceId));
  }

  lemma ExecutePrepares(c: Config, w: World, t: Tid, r: Request, id: string, out: ExecuteOutput)
    requires Idle(w, t) && r.ExecuteRequest? && Admissible(c, r) && FreshEventId(w, id)
    requires r.key !in w.process.value.maps.executions && Executable(c, r)
    requires out == Applied(r.planId, id, r.traceId)
    ensures Serve(c, w, t, r, id, 2) ==
              Some(Goto(w.(usedIds := w.usedIds + {id}), w.process.value.(executionsLock := Some(t)), t,
                        ExecAwaitFile(r, out)))
  {
    ExecuteLooks(c, w, t, r, id);
    ProviderRefMeans(r);
    var p := w.process.value;
    assert p.threads[t := ExecLooking(r)][t := ExecAwaitFile(r, out)] == p.threads[t := ExecAwaitFile(r, out)];
  }

  lemma ExecuteWrites(c: Config, w: World, t: Tid, r: Request, id: string, out: ExecuteOutput)
    requires Idle(w, t) && r.ExecuteRequest? && Admissible(c, r) && FreshEventId(w, id)
    requires r.key !in w.process.value.maps.executions && Executable(c, r)
    requires out == Applied(r.planId, id, r.traceId)
    ensures var p := w.process.value;
            Serve(c, w, t, r, id, 3) ==
              Some(Goto(w.(usedIds := w.usedIds + {id}), p.(executionsLock := Some(t), fileLock := Some(t)), t,
                        ExecWriting(r, out)))
  {
    ExecutePrepares(c, w, t, r, id, out);
    var p := w.process.value;
    assert p.threads[t := ExecAwaitFile(r, out)][t := ExecWriting(r, out)] == p.threads[t := ExecWriting(r, out)];
  }

  lemma ExecuteFinishes(c: Config, w: World, t: Tid, r: Request, id: string, out: ExecuteOutput)
    requires Idle(w, t) && r.ExecuteRequest? && Admissible(c, r) && FreshEventId(w, id)
    requires r.key !in w.process.value.maps.executions && Executable(c, r)
    requires out == Applied(r.planId, id, r.traceId)
    ensures var w' := Serve(c, w, t, r, id, 5);
            && w'.Some? && w'.value.usedIds == w.usedIds + {id}
            && Served(w, t, w'.value, Executed(r.key, out), [ExecutedLine(r.key, out)])
  {
    ExecuteWrites(c, w, t, r, id, out);
    var p := w.process.value;
    var w4 := w.(usedIds := w.usedIds + {id}, file := w.file + [ExecutedLine(r.key, out)]);
    assert p.threads[t := ExecWriting(r, out)][t := ExecAppended(r, out)] == p.threads[t := ExecAppended(r, out)];
    assert Serve(c, w, t, r, id, 4) == Some(Goto(w4, p.(executionsLock := Some(t)), t, ExecAppended(r, out)));
    LeavingAgain(p.threads, t, ExecAppended(r, out));
  }

  /** A request for a new key, for this connector and with a credential of its plan, is executed: it is given
      an accepted output with a reference that ends in the new event's id, and its line is written. */
  lemma ExecuteAlone(c: Config, steps: seq<Step>, t: Tid, r: Request, id: string)
    requires Run(c, steps).Some? && Idle(Run(c, steps).value, t) && FreshEventId(Run(c, steps).value, id)
    requires r.ExecuteRequest? && Admissible(c, r)
    requires !KeyLogged(Run(c, steps).value.file, r.key) && Executable(c, r)
    ensures var w := Run(c, steps).value;
            var w' := Run(c, steps + Solo(t, r, id, 5));
            && w'.Some? && w'.value.usedIds == w.usedIds + {id}
            && exists out :: && AppliedAs(r, id, out)
                             && Served(w, t, w'.value, Executed(r.key, out), [ExecutedLine(r.key, out)])
  {
    var w := Run(c, steps).value;
    RunKeepsInv(c, steps);
    IdleMapsAreLog(w, t);
    ServeIsRun(c, steps, t, r, id, 5);
    ExecuteFinishes(c, w, t, r, id, Applied(r.planId, id, r.traceId));
    AppliedMeans(r, id);
  }

  // ---------------------------------------------------------------- a compensation that nothing hinders

  lemma CompensateLooks(c: Config, w: World, t: Tid, r: Request, id: string)
    requires Idle(w, t) && r.CompensateRequest? && Admissible(c, r)
    ensures var p := w.process.value;
            Serve(c, w, t, r, id, 1) ==
              Some(Goto(w, p.(compensationsLock := Some(t)), t, CompLooking(r)))
  {
    ArrivalReplyIsDue(c, w, t, r);
    var p := w.process.value;
    assert Serve(c, w, t, r, id, 0) == Some(Goto(w, p, t, CompAwaitMap(r)));
    assert p.threads[t := CompAwaitMap(r)][t := CompLooking(r)] == p.threads[t := CompLooking(r)];
  }

  lemma CompensateAnsweredAtOnce(c: Config, w: World, t: Tid, r: Request, id: string)
    requires Idle(w, t) && r.CompensateRequest? && Admissible(c, r)
    requires r.ref in w.process.value.maps.compensations
    ensures var w' := Serve(c, w, t, r, id, 2);
            && w'.Some?
            && Served(w, t, w'.value, Compensated(r.ref, w.process.value.maps.compensations[r.ref]), [])
  {
    CompensateLooks(c, w, t, r, id);
    LeavingAgain(w.process.value.threads, t, CompLooking(r));
    assert w.file + [] == w.file;
  }

  /** A request for a compensated reference is given the logged output, and nothing is written. */
  lemma RepeatedCompensateAlone(c: Config, steps: seq<Step>, t: Tid, r: Request, id: string)
    requires Run(c, steps).Some? && Idle(Run(c, steps).value, t)
    requires r.CompensateRequest? && Admissible(c, r)
    requires RefLogged(Run(c, steps).value.file, r.ref)
    ensures var w := Run(c, steps).value;
            var w' := Run(c, steps + Solo(t, r, id, 2));
            && w'.Some?
            && exists out :: LastOfRef(w.file, r.ref, out) && Served(w, t, w'.value, Compensated(r.ref, out), [])
  {
    var w := Run(c, steps).value;
    RunKeepsInv(c, steps);
    IdleMapsAreLog(w, t);
    ServeIsRun(c, steps, t, r, id, 2);
    CompensateAnsweredAtOnce(c, w, t, r, id);
    assert LastOfRef(w.file, r.ref, w.process.value.maps.compensations[r.ref]);
  }

  lemma CompensateScans(c: Config, w: World, t: Tid, r: Request, id: string)
    requires Idle(w, t) && r.CompensateRequest? && Admissible(c, r)
    requires r.ref !in w.process.value.maps.compensations
    ensures var p := w.process.value;
            Serve(c, w, t, r, id, 3) ==
              Some(Goto(w, p.(compensationsLock := Some(t), executionsLock := Some(t)), t, CompScanning(r)))
  {
    CompensateLooks(c, w, t, r, id);
    var p := w.process.value;
    assert p.threads[t := CompLooking(r)][t := CompAwaitExecutions(r)] == p.threads[t := CompAwaitExecutions(r)];
    assert Serve(c, w, t, r, id, 2) == Some(Goto(w, p.(compensationsLock := Some(t)), t, CompAwaitExecutions(r)));
    assert p.threads[t := CompAwaitExecutions(r)][t := CompScanning(r)] == p.threads[t := CompScanning(r)];
  }

  lemma CompensateFindsNothing(c: Config, w: World, t: Tid, r: Request, id: string)
    requires Idle(w, t) && r.CompensateRequest? && Admissible(c, r)
    requires r.ref !in w.process.value.maps.compensations && !KnownRef(w.process.value.maps.executions, r.ref)
    ensures var w' := Serve(c, w, t, r, id, 4);
            w'.Some? && Served(w, t, w'.value, Failed(RefNotFound), [])
  {
    CompensateScans(c, w, t, r, id);
    LeavingAgain(w.process.value.threads, t, CompScanning(r));
    assert w.file + [] == w.file;
  }

  /** A reference that no execution in the log gave out is not found, and nothing is written. */
  lemma UnknownCompensateAlone(c: Config, steps: seq<Step>, t: Tid, r: Request, id: string)
    requires Run(c, steps).Some? && Idle(Run(c, steps).value, t)
    requires r.CompensateRequest? && Admissible(c, r)
    requires !RefGivenOut(Run(c, steps).value.file, r.ref)
    ensures var w' := Run(c, steps + Solo(t, r, id, 4));
            w'.Some? && Served(Run(c, steps).value, t, w'.value, Failed(RefNotFound), [])
  {
    var w := Run(c, steps).value;
    RunKeepsInv(c, steps);
    IdleMapsAreLog(w, t);
    IdleMapsAreReplay(w.process.value, Replay(w.file).value);
    KnownIffGivenOut(w.file, w.usedIds, r.ref);
    if RefLogged(w.file, r.ref) { CompensatedWasGivenOut(w.file, r.ref); }
    ServeIsRun(c, steps, t, r, id, 4);
    CompensateFindsNothing(c, w, t, r, id);
  }

  lemma CompensateWrites(c: Config, w: World, t: Tid, r: Request, id: string, out: CompensateOutput)
    requires Idle(w, t) && r.CompensateRequest? && Admissible(c, r) && Fresh(w, id)
    requires r.ref !in w.process.value.maps.compensations && KnownRef(w.process.value.maps.executions, r.ref)
    requires out == CompensationDone(id, r.traceId)
    ensures var p := w.process.value;
            Serve(c, w, t, r, id, 5) ==
              Some(Goto(w.(usedIds := w.usedIds + {id}), p.(compensationsLock := Some(t), fileLock := Some(t)), t,
                        CompWriting(r, out)))
  {
    CompensateScans(c, w, t, r, id);
    var p, w4 := w.process.value, w.(usedIds := w.usedIds + {id});
    assert p.threads[t := CompScanning(r)][t := CompAwaitFile(r, out)] == p.threads[t := CompAwaitFile(r, out)];
    assert Serve(c, w, t, r, id, 4) == Some(Goto(w4, p.(compensationsLock := Some(t)), t, CompAwaitFile(r, out)));
    assert p.threads[t := CompAwaitFile(r, out)][t := CompWriting(r, out)] == p.threads[t := CompWriting(r, out)];
  }

  lemma CompensateFinishes(c: Config, w: World, t: Tid, r: Request, id: string, out: CompensateOutput)
    requires Idle(w, t) && r.CompensateRequest? && Admissible(c, r) && Fresh(w, id)
    requires r.ref !in w.process.value.maps.compensations && KnownRef(w.process.value.maps.executions, r.ref)
    requires out == CompensationDone(id, r.traceId)
    ensures var w' := Serve(c, w, t, r, id, 7);
            w'.Some? && Served(w, t, w'.value, Compensated(r.ref, out), [CompensatedLine(r.ref, out)])
  {
    CompensateWrites(c, w, t, r, id, out);
    var p := w.process.value;
    var w6 := w.(usedIds := w.usedIds + {id}, file := w.file + [CompensatedLine(r.ref, out)]);
    assert p.threads[t := CompWriting(r, out)][t := CompAppended(r, out)] == p.threads[t := CompAppended(r, out)];
    assert Serve(c, w, t, r, id, 6) == Some(Goto(w6, p.(compensationsLock := Some(t)), t, CompAppended(r, out)));
    LeavingAgain(p.threads, t, CompAppended(r, out));
  }

  /** A reference that an execution gave out and that is not yet compensated is compensated under a new id,
      and its line is written. */
  lemma CompensateAlone(c: Config, steps: seq<Step>, t: Tid, r: Request, id: string)
    requires Run(c, steps).Some? && Idle(Run(c, steps).value, t) && Fresh(Run(c, steps).value, id)
    requires r.CompensateRequest? && Admissible(c, r)
    requires RefGivenOut(Run(c, steps).value.file, r.ref) && !RefLogged(Run(c, steps).value.file, r.ref)
    ensures var w := Run(c, steps).value;
            var w' := Run(c, steps + Solo(t, r, id, 7));
            w'.Some? && exists out :: && CompensatedAs(r, id, out)
                                      && Served(w, t, w'.value, Compensated(r.ref, out), [CompensatedLine(r.ref, out)])
  {
    var w := Run(c, steps).value;
    RunKeepsInv(c, steps);
    IdleMapsAreLog(w, t);
    IdleMapsAreReplay(w.process.value, Replay(w.file).value);
    KnownIffGivenOut(w.file, w.usedIds, r.ref);
    ServeIsRun(c, steps, t, r, id, 7);
    CompensateFinishes(c, w, t, r, id, CompensationDone(id, r.traceId));
    CompensationDoneMeans(r, id);
  }

  /** A reference that ends in an id never issued was not given out. */
  lemma NewRefNotGivenOut(file: seq<Line>, usedIds: set<string>, r: Request, id: string)
    requires LogInv(file, usedIds) && |id| == EVENT_ID_LENGTH && id !in usedIds && r.ExecuteRequest?
    ensures !RefGivenOut(file, CompensationRef(r.planId, id))
  {
    assert EventIdOf(CompensationRef(r.planId, id)) == id;
    KnownIffGivenOut(file, usedIds, CompensationRef(r.planId, id));
  }

  /** The reference of the execution just logged was given out and is not yet compensated. */
  lemma NewRefCanBeCompensated(file: seq<Line>, usedIds: set<string>, r: Request, id: string, out: ExecuteOutput)
    requires LogInv(file, usedIds) && |id| == EVENT_ID_LENGTH && id !in usedIds && r.ExecuteRequest?
    requires out.compensationRef == Some(CompensationRef(r.planId, id))
    ensures var longer, ref := file + [ExecutedLine(r.key, out)], CompensationRef(r.planId, id);
            RefGivenOut(longer, ref) && !RefLogged(longer, ref)
  {
    var longer, ref := file + [ExecutedLine(r.key, out)], CompensationRef(r.planId, id);
    assert longer[|file|] == ExecutedLine(r.key, out);
    NewRefNotGivenOut(file, usedIds, r, id);
    if RefLogged(file, ref) { CompensatedWasGivenOut(file, ref); }
    RefLoggedGrows(file, ExecutedLine(r.key, out), ref);
  }

  /** The gateway turns no reference away that it gave out itself. */
  lemma OwnRefIsAccepted(c: Config, q: Request, planId: string, id: string)
    requires q.CompensateRequest? && q.ref == CompensationRef(planId, id) && HasBearer(c, q)
    ensures Admissible(c, q)
  {
    assert q.ref == ACTION_PREFIX + ("plans/" + planId + "/events/" + id);
  }

  /** The whole round: an executable request with a new key is executed, and the reference it was given is
      then compensated, after any run whatever, crashes and restarts included. */
  lemma ExecuteThenCompensate(c: Config, steps: seq<Step>, t: Tid, r: Request, id: string, q: Request, newId: string)
    requires Run(c, steps).Some? && Idle(Run(c, steps).value, t)
    requires FreshEventId(Run(c, steps).value, id) && Fresh(Run(c, steps).value, newId) && newId != id
    requires r.ExecuteRequest? && Admissible(c, r)
    requires !KeyLogged(Run(c, steps).value.file, r.key) && Executable(c, r)
    requires q.CompensateRequest? && HasBearer(c, q)
    requires q.ref == "action-journal-compensation://plans/" + r.planId + "/events/" + id
    ensures var before := Run(c, steps).value.replies;
            var w' := Run(c, steps + Solo(t, r, id, 5) + Solo(t, q, newId, 7));
            && w'.Some? && |w'.value.replies| == |before| + 2
            && w'.value.replies[..|before|] == before
            && var executed, compensated := w'.value.replies[|before|], w'.value.replies[|before| + 1];
            && executed.Executed? && executed.key == r.key && AppliedAs(r, id, executed.executeOutput)
            && executed.executeOutput.compensationRef == Some(q.ref)
            && compensated.Compensated? && compensated.ref == q.ref
            && CompensatedAs(q, newId, compensated.compensateOutput)
  {
    ExecuteAlone(c, steps, t, r, id);
    RunKeepsInv(c, steps);
    var w := Run(c, steps).value;
    var middle := steps + Solo(t, r, id, 5);
    var w1 := Run(c, middle).value;
    var out :| AppliedAs(r, id, out) && Served(w, t, w1, Executed(r.key, out), [ExecutedLine(r.key, out)]);
    NewRefCanBeCompensated(w.file, w.usedIds, r, id, out);
    OwnRefIsAccepted(c, q, r.planId, id);
    CompensateAlone(c, middle, t, q, newId);
  }

  lemma LeaseFinishes(c: Config, w: World, t: Tid, r: Request, id: string)
    requires Idle(w, t) && r.LeaseRequest? && Admissible(c, r)
    ensures var w' := Serve(c, w, t, r, id, 2); w'.Some? && Served(w, t, w'.value, LeaseIssued, [LeaseLine()])
  {
    var p := w.process.value;
    assert Serve(c, w, t, r, id, 0) == Some(Goto(w, p, t, LeaseAwaitFile(r)));
    assert p.threads[t := LeaseAwaitFile(r)][t := LeaseWriting(r)] == p.threads[t := LeaseWriting(r)];
    assert Serve(c, w, t, r, id, 1) == Some(Goto(w, p.(fileLock := Some(t)), t, LeaseWriting(r)));
    LeavingAgain(p.threads, t, LeaseWriting(r));
  }

  /** An admissible lease is issued, and its line is written. */
  lemma LeaseAlone(c: Config, steps: seq<Step>, t: Tid, r: Request, id: string)
    requires Run(c, steps).Some? && Idle(Run(c, steps).value, t)
    requires r.LeaseRequest? && Admissible(c, r)
    ensures var w' := Run(c, steps + Solo(t, r, id, 2));
            w'.Some? && Served(Run(c, steps).value, t, w'.value, LeaseIssued, [LeaseLine()])
  {
    ServeIsRun(c, steps, t, r, id, 2);
    LeaseFinishes(c, Run(c, steps).value, t, r, id);
  }
}
