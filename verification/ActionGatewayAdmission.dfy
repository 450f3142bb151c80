/** Which requests can leave a line in the log of the action gateway. */
module ActionGatewayAdmission {
  import opened Wrappers
  import opened ActionGateway
  import Text

  /** The request carries the gateway's key, if there is one. */
  ghost predicate HasBearer(c: Config, r: Request) {
    c.apiKey.Some? ==> r.bearer == c.apiKey
  }

  ghost predicate OnlySpace(s: string) {
    forall i | 0 <= i < |s| :: Text.IsWhitespace(s[i])
  }

  /** The credential is one of the journal and names the plan. */
  ghost predicate OwnCredential(r: Request)
    requires r.ExecuteRequest?
  {
    && r.providerRef.Some?
    && CREDENTIAL_PREFIX <= r.providerRef.value
    && Occurs(r.planId, r.providerRef.value)
  }

  ghost predicate Occurs(part: string, s: string) {
    exists before, after :: s == before + part + after
  }

  lemma ContainsIffOccurs(s: string, part: string)
    ensures Text.Contains(s, part) <==> Occurs(part, s)
  {
    if Text.Contains(s, part) {
      var i :| 0 <= i <= |s| && part <= s[i..];
      assert s == s[..i] + part + s[i..][|part|..];
    }
    if Occurs(part, s) {
      var before, after :| s == before + part + after;
      assert s[|before|..] == part + after;
    }
  }

  lemma ProviderRefMeans(r: Request)
    requires r.ExecuteRequest?
    ensures ProviderRefValid(r) <==> OwnCredential(r)
  {
    if r.providerRef.Some? { ContainsIffOccurs(r.providerRef.value, r.planId); }
  }

  /** The request passed the checks made before its first lock. */
  ghost predicate Admissible(c: Config, r: Request) {
    && HasBearer(c, r)
    && match r
       case ExecuteRequest(_, key, _, _, _, _) => !OnlySpace(key)
       case CompensateRequest(_, ref, _) => ACTION_PREFIX <= ref
       case LeaseRequest(_, planId, scope) =>
         !OnlySpace(planId) && !OnlySpace(scope) && (c.allowedScopes == [] || scope in c.allowedScopes)
  }

  /** The request may be executed: it is for this connector, with a credential of its own plan. */
  ghost predicate Executable(c: Config, r: Request) {
    r.ExecuteRequest? && r.connector == c.connector && OwnCredential(r)
  }

  /** The output of an execution: accepted, naming one new event in all three places. */
  ghost predicate AppliedAs(r: Request, id: string, out: ExecuteOutput)
    requires r.ExecuteRequest?
  {
    && out.accepted && out.status == "applied" && out.errorCode.None? && out.traceId == r.traceId
    && out.targetEventId == Some(id)
    && out.resultRef == Some("action-journal-target://events/" + id)
    && out.compensationRef == Some("action-journal-compensation://plans/" + r.planId + "/events/" + id)
  }

  lemma AppliedMeans(r: Request, id: string)
    requires r.ExecuteRequest?
    ensures AppliedAs(r, id, Applied(r.planId, id, r.traceId))
  {
  }

  /** The output of a compensation: accepted, under the new id. */
  ghost predicate CompensatedAs(r: Request, id: string, out: CompensateOutput)
    requires r.CompensateRequest?
  {
    && out.accepted && out.status == "compensated" && out.compensationId == id && out.traceId == r.traceId
    && out.resultRef == Some("action-journal-compensation-result://events/" + id)
  }

  lemma CompensationDoneMeans(r: Request, id: string)
    requires r.CompensateRequest?
    ensures CompensatedAs(r, id, CompensationDone(id, r.traceId))
  {
  }

  /** The output names one event id in all three places. */
  ghost predicate IsApplied(r: Request, out: ExecuteOutput) {
    r.ExecuteRequest? && exists id :: AppliedAs(r, id, out)
  }

  ghost predicate Vetted(c: Config, pc: Pc) {
    && Admissible(c, pc.req)
    && (pc.ExecAwaitFile? || pc.ExecWriting? || pc.ExecAppended? ==> Executable(c, pc.req) && IsApplied(pc.req, pc.out))
    && (pc.CompAwaitFile? || pc.CompWriting? || pc.CompAppended? ==>
          pc.req.CompensateRequest? && CompensatedAs(pc.req, pc.done.compensationId, pc.done))
  }

  ghost predicate AllVetted(c: Config, w: World) {
    w.process.Some? ==> forall t | t in w.process.value.threads :: Vetted(c, w.process.value.threads[t])
  }

  /** What is appended is the record of a vetted request. */
  ghost predicate LineOf(c: Config, r: Request, line: Line) {
    && Admissible(c, r)
    && match r
       case ExecuteRequest(_, key, _, _, _, _) =>
         Executable(c, r) && exists out :: IsApplied(r, out) && line == ExecutedLine(key, out)
       case CompensateRequest(_, ref, _) =>
         exists id, out :: CompensatedAs(r, id, out) && line == CompensatedLine(ref, out)
       case LeaseRequest(_, _, _) => line == LeaseLine()
  }

  /** A step appends nothing, or one line of its own handler's request. */
  ghost predicate AppendsOwnLine(c: Config, w: World, step: Step, w': World) {
    || w'.file == w.file
    || (&& step.Advance? && w.process.Some? && step.tid in w.process.value.threads
        && exists line :: w'.file == w.file + [line] && LineOf(c, w.process.value.threads[step.tid].req, line))
  }

  lemma ArrivalIsVetted(c: Config, w: World, t: Tid, r: Request)
    requires AllVetted(c, w) && w.process.Some?
    ensures AllVetted(c, Accept(c, w, w.process.value, t, r)) && Accept(c, w, w.process.value, t, r).file == w.file
  {
  }

  /** Whatever the handler that stepped does next is vetted, and the others have not moved. */
  lemma MovedStaysVetted(c: Config, p: Process, p': Process, t: Tid)
    requires forall u | u in p.threads :: Vetted(c, p.threads[u])
    requires p'.threads - {t} == p.threads - {t} && (t in p'.threads ==> Vetted(c, p'.threads[t]))
    ensures forall u | u in p'.threads :: Vetted(c, p'.threads[u])
  {
    forall u | u in p'.threads && u != t ensures Vetted(c, p'.threads[u]) {
      assert u in p'.threads - {t};
      assert (p'.threads - {t})[u] == (p.threads - {t})[u];
    }
  }

  lemma ExecuteMovesVetted(c: Config, w: World, t: Tid, id: string, io: bool)
    requires w.process.Some? && t in w.process.value.threads && Vetted(c, w.process.value.threads[t])
    requires w.process.value.threads[t].req.ExecuteRequest?
    requires AdvanceExecute(c, w, w.process.value, t, id, io).Some?
    ensures var w' := AdvanceExecute(c, w, w.process.value, t, id, io).value;
            && w'.process.Some? && w'.process.value.threads - {t} == w.process.value.threads - {t}
            && (t in w'.process.value.threads ==> Vetted(c, w'.process.value.threads[t]))
  {
    var r := w.process.value.threads[t].req;
    ProviderRefMeans(r);
    AppliedMeans(r, id);
  }

  lemma ExecuteIsVetted(c: Config, w: World, t: Tid, id: string, io: bool)
    requires AllVetted(c, w) && w.process.Some? && t in w.process.value.threads
    requires w.process.value.threads[t].req.ExecuteRequest?
    requires AdvanceExecute(c, w, w.process.value, t, id, io).Some?
    ensures var w' := AdvanceExecute(c, w, w.process.value, t, id, io).value;
            AllVetted(c, w') && AppendsOwnLine(c, w, Advance(t, id, io), w')
  {
    var pc := w.process.value.threads[t];
    var w' := AdvanceExecute(c, w, w.process.value, t, id, io).value;
    ExecuteMovesVetted(c, w, t, id, io);
    MovedStaysVetted(c, w.process.value, w'.process.value, t);
    if pc.ExecWriting? && io { assert LineOf(c, pc.req, ExecutedLine(pc.req.key, pc.out)); }
  }

  lemma CompensateMovesVetted(c: Config, w: World, t: Tid, id: string, io: bool)
    requires w.process.Some? && t in w.process.value.threads && Vetted(c, w.process.value.threads[t])
    requires w.process.value.threads[t].req.CompensateRequest?
    requires AdvanceCompensate(w, w.process.value, t, id, io).Some?
    ensures var w' := AdvanceCompensate(w, w.process.value, t, id, io).value;
            && w'.process.Some? && w'.process.value.threads - {t} == w.process.value.threads - {t}
            && (t in w'.process.value.threads ==> Vetted(c, w'.process.value.threads[t]))
  {
  }

  lemma CompensateIsVetted(c: Config, w: World, t: Tid, id: string, io: bool)
    requires AllVetted(c, w) && w.process.Some? && t in w.process.value.threads
    requires w.process.value.threads[t].req.CompensateRequest?
    requires AdvanceCompensate(w, w.process.value, t, id, io).Some?
    ensures var w' := AdvanceCompensate(w, w.process.value, t, id, io).value;
            AllVetted(c, w') && AppendsOwnLine(c, w, Advance(t, id, io), w')
  {
    var pc := w.process.value.threads[t];
    var w' := AdvanceCompensate(w, w.process.value, t, id, io).value;
    CompensateMovesVetted(c, w, t, id, io);
    MovedStaysVetted(c, w.process.value, w'.process.value, t);
    if pc.CompWriting? && io { assert LineOf(c, pc.req, CompensatedLine(pc.req.ref, pc.done)); }
  }

  lemma LeaseIsVetted(c: Config, w: World, t: Tid, id: string, io: bool)
    requires AllVetted(c, w) && w.process.Some? && t in w.process.value.threads
    requires w.process.value.threads[t].req.LeaseRequest?
    requires AdvanceLease(w, w.process.value, t, io).Some?
    ensures var w' := AdvanceLease(w, w.process.value, t, io).value;
            AllVetted(c, w') && AppendsOwnLine(c, w, Advance(t, id, io), w')
  {
    var pc := w.process.value.threads[t];
    assert Vetted(c, pc);
    if pc.LeaseWriting? && io { assert LineOf(c, pc.req, LeaseLine()); }
  }

  lemma StepIsVetted(c: Config, w: World, step: Step)
    requires AllVetted(c, w) && Next(c, w, step).Some?
    ensures AllVetted(c, Next(c, w, step).value) && AppendsOwnLine(c, w, step, Next(c, w, step).value)
  {
    match step {
      case Restart =>
      case Crash =>
      case Cancel(_) =>
      case Arrive(t, r) => ArrivalIsVetted(c, w, t, r);
      case Advance(t, id, io) =>
        match w.process.value.threads[t].req {
          case ExecuteRequest(_, _, _, _, _, _) => ExecuteIsVetted(c, w, t, id, io);
          case CompensateRequest(_, _, _) => CompensateIsVetted(c, w, t, id, io);
          case LeaseRequest(_, _, _) => LeaseIsVetted(c, w, t, id, io);
        }
    }
  }

  lemma {:induction false} RunIsVetted(c: Config, steps: seq<Step>)
    requires Run(c, steps).Some?
    ensures AllVetted(c, Run(c, steps).value)
  {
    if steps != [] {
      RunIsVetted(c, steps[..|steps| - 1]);
      StepIsVetted(c, Run(c, steps[..|steps| - 1]).value, steps[|steps| - 1]);
    }
  }

  /** At every point of every run, whatever the next step appends to the log is one line of the
      request whose handler took the step, and that request passed every check: authorization, a key
      that is not blank, this connector and a credential of its own plan; the gateway's own reference
      prefix; or an allowed scope. */
  lemma OnlyVettedRequestsAreLogged(c: Config, steps: seq<Step>, step: Step)
    requires Run(c, steps + [step]).Some?
    ensures Run(c, steps).Some?
    ensures AppendsOwnLine(c, Run(c, steps).value, step, Run(c, steps + [step]).value)
  {
    assert (steps + [step])[..|steps|] == steps;
    RunIsVetted(c, steps);
    StepIsVetted(c, Run(c, steps).value, step);
  }
}
