/** The action gateway: an idempotent execute/compensate service over two locked maps, an
    append-only log file, and recovery by replaying that file.

    Handlers run concurrently, so the service is a state machine whose steps are the points
    between two awaits: taking a lock, looking up, appending a line, inserting. A world keeps
    what survives a crash (the file, the ids ever issued, the replies clients have seen) apart
    from the process (maps, locks, running handlers), which a crash discards. */
module ActionGateway {
  import opened Wrappers
  import Text

  // ---------------------------------------------------------------- log file and replay

  datatype ExecuteOutput = ExecuteOutput(
    accepted: bool, status: string, resultRef: Option<string>, compensationRef: Option<string>,
    errorCode: Option<string>, targetEventId: Option<string>, traceId: string)

  datatype CompensateOutput = CompensateOutput(
    accepted: bool, status: string, resultRef: Option<string>, compensationId: string, traceId: string)

  /** One line of the log, as `serde_json` sees it: absent fields are None, and an `output`
      that does not deserialize to the expected type is None in that field. */
  datatype Line =
    | Blank
    | Malformed
    | Record(eventType: Option<string>, idempotencyKey: Option<string>, compensationRef: Option<string>,
             executeOutput: Option<ExecuteOutput>, compensateOutput: Option<CompensateOutput>)

  datatype Maps = Maps(executions: map<string, ExecuteOutput>, compensations: map<string, CompensateOutput>)

  datatype LoadError = LogMalformed | KeyMissing | ExecutionMalformed | RefMissing | CompensationMalformed

  const EXECUTED := "action_executed"
  const COMPENSATED := "action_compensated"

  function ExecutedLine(key: string, out: ExecuteOutput): Line {
    Record(Some(EXECUTED), Some(key), out.compensationRef, Some(out), None)
  }

  function CompensatedLine(ref: string, out: CompensateOutput): Line {
    Record(Some(COMPENSATED), None, Some(ref), None, Some(out))
  }

  function LeaseLine(): Line {
    Record(Some("credential_lease_issued"), None, None, None, None)
  }

  predicate IsExecuted(line: Line) {
    line.Record? && line.eventType == Some(EXECUTED)
  }

  predicate IsCompensated(line: Line) {
    line.Record? && line.eventType == Some(COMPENSATED)
  }

  function ReplayLine(m: Maps, line: Line): Result<Maps, LoadError> {
    if line.Blank? then Ok(m)
    else if line.Malformed? then Err(LogMalformed)
    else if IsExecuted(line) then
      if line.idempotencyKey.None? then Err(KeyMissing)
      else if line.executeOutput.None? then Err(ExecutionMalformed)
      else Ok(m.(executions := m.executions[line.idempotencyKey.value := line.executeOutput.value]))
    else if IsCompensated(line) then
      if line.compensationRef.None? then Err(RefMissing)
      else if line.compensateOutput.None? then Err(CompensationMalformed)
      else Ok(m.(compensations := m.compensations[line.compensationRef.value := line.compensateOutput.value]))
    else Ok(m)
  }

  /** What the file means: its lines applied in order, or the first error. */
  function Replay(file: seq<Line>): Result<Maps, LoadError> {
    if file == [] then Ok(Maps(map[], map[]))
    else
      var before := Replay(file[..|file| - 1]);
      if before.Err? then before else ReplayLine(before.value, file[|file| - 1])
  }

  lemma ReplayAppend(file: seq<Line>, line: Line)
    ensures Replay(file + [line]) ==
            if Replay(file).Err? then Replay(file) else ReplayLine(Replay(file).value, line)
  {
    assert (file + [line])[..|file|] == file;
  }

  lemma {:induction false} ReplayErrSticks(file: seq<Line>, n: nat)
    requires n <= |file| && Replay(file[..n]).Err?
    ensures Replay(file) == Replay(file[..n])
    decreases |file|
  {
    if n == |file| {
      assert file[..n] == file;
    } else {
      assert file[..|file| - 1][..n] == file[..n];
      ReplayErrSticks(file[..|file| - 1], n);
    }
  }

  /** Startup: one pass over the lines, inserting into two local maps, stopping at the first error. */
  method LoadLog(file: seq<Line>) returns (r: Result<Maps, LoadError>)
    ensures r == Replay(file)
  {
    var executions: map<string, ExecuteOutput> := map[];
    var compensations: map<string, CompensateOutput> := map[];
    var i := 0;
    while i < |file|
      invariant 0 <= i <= |file|
      invariant Replay(file[..i]) == Ok(Maps(executions, compensations))
    {
      var line := file[i];
      ReplayAppend(file[..i], line);
      assert file[..i + 1] == file[..i] + [line];
      if Replay(file[..i + 1]).Err? { ReplayErrSticks(file, i + 1); }
      if line.Malformed? {
        return Err(LogMalformed);
      } else if IsExecuted(line) {
        if line.idempotencyKey.None? { return Err(KeyMissing); }
        if line.executeOutput.None? { return Err(ExecutionMalformed); }
        executions := executions[line.idempotencyKey.value := line.executeOutput.value];
      } else if IsCompensated(line) {
        if line.compensationRef.None? { return Err(RefMissing); }
        if line.compensateOutput.None? { return Err(CompensationMalformed); }
        compensations := compensations[line.compensationRef.value := line.compensateOutput.value];
      }
      i := i + 1;
    }
    assert file[..i] == file;
    return Ok(Maps(executions, compensations));
  }

  // ---------------------------------------------------------------- requests and handlers

  const ACTION_PREFIX := "action-journal-compensation://"
  const CREDENTIAL_PREFIX := "action-journal-credential://"

  /** An event id is `new_id("gatewaytarget")`: that prefix, an underscore and 32 hex digits. */
  const EVENT_ID_LENGTH := 46

  function CompensationRef(planId: string, eventId: string): string {
    "action-journal-compensation://plans/" + planId + "/events/" + eventId
  }

  /** The event id a compensation reference ends with. */
  function EventIdOf(ref: string): string {
    if |ref| < EVENT_ID_LENGTH then ref else ref[|ref| - EVENT_ID_LENGTH..]
  }

  datatype Config = Config(apiKey: Option<string>, connector: string, allowedScopes: seq<string>)

  datatype Request =
    | ExecuteRequest(bearer: Option<string>, key: string, planId: string, connector: string,
                     providerRef: Option<string>, traceId: string)
    | CompensateRequest(bearer: Option<string>, ref: string, traceId: string)
    | LeaseRequest(bearer: Option<string>, planId: string, scope: string)

  datatype ErrorCode =
    | Unauthorized | KeyRequired | RefInvalid | RefNotFound
    | InvalidCredentialRequest | ScopeNotAllowed | Internal

  datatype Reply =
    | Executed(key: string, executeOutput: ExecuteOutput)
    | Compensated(ref: string, compensateOutput: CompensateOutput)
    | LeaseIssued
    | Failed(code: ErrorCode)

  predicate Authorized(c: Config, bearer: Option<string>) {
    c.apiKey.None? || bearer == c.apiKey
  }

  function Rejected(errorCode: string, traceId: string): ExecuteOutput {
    ExecuteOutput(false, "rejected", None, None, Some(errorCode), None, traceId)
  }

  function Applied(planId: string, eventId: string, traceId: string): ExecuteOutput {
    ExecuteOutput(true, "applied", Some("action-journal-target://events/" + eventId),
                  Some(CompensationRef(planId, eventId)), None, Some(eventId), traceId)
  }

  function CompensationDone(id: string, traceId: string): CompensateOutput {
    CompensateOutput(true, "compensated", Some("action-journal-compensation-result://events/" + id), id, traceId)
  }

  predicate ProviderRefValid(r: Request)
    requires r.ExecuteRequest?
  {
    var providerRef := if r.providerRef.Some? then r.providerRef.value else "";
    Text.StartsWith(providerRef, CREDENTIAL_PREFIX) && Text.Contains(providerRef, r.planId)
  }

  type Tid = nat

  /** Where a running handler stands. The comments name the locks it holds there. */
  datatype Pc =
    | ExecAwaitMap(req: Request)                             // none
    | ExecLooking(req: Request)                              // executions
    | ExecAwaitFile(req: Request, out: ExecuteOutput)        // executions
    | ExecWriting(req: Request, out: ExecuteOutput)          // executions, file
    | ExecAppended(req: Request, out: ExecuteOutput)         // executions
    | CompAwaitMap(req: Request)                             // none
    | CompLooking(req: Request)                              // compensations
    | CompAwaitExecutions(req: Request)                      // compensations
    | CompScanning(req: Request)                             // compensations, executions
    | CompAwaitFile(req: Request, done: CompensateOutput)    // compensations
    | CompWriting(req: Request, done: CompensateOutput)      // compensations, file
    | CompAppended(req: Request, done: CompensateOutput)     // compensations
    | LeaseAwaitFile(req: Request)                           // none
    | LeaseWriting(req: Request)                             // file

  predicate HoldsExecutions(pc: Pc) {
    pc.ExecLooking? || pc.ExecAwaitFile? || pc.ExecWriting? || pc.ExecAppended? || pc.CompScanning?
  }

  predicate HoldsCompensations(pc: Pc) {
    pc.CompLooking? || pc.CompAwaitExecutions? || pc.CompScanning? || pc.CompAwaitFile? || pc.CompWriting?
        || pc.CompAppended?
  }

  predicate HoldsFile(pc: Pc) {
    pc.ExecWriting? || pc.CompWriting? || pc.LeaseWriting?
  }

  datatype Process = Process(
    maps: Maps, threads: map<Tid, Pc>,
    executionsLock: Option<Tid>, compensationsLock: Option<Tid>, fileLock: Option<Tid>)

  datatype World = World(file: seq<Line>, usedIds: set<string>, replies: seq<Reply>, process: Option<Process>)

  const INITIAL := World([], {}, [], None)

  datatype Step =
    | Restart
    | Crash
    | Arrive(tid: Tid, req: Request)
    | Cancel(tid: Tid)                           // the client goes away and the handler is dropped
    | Advance(tid: Tid, id: string, io: bool)    // one await-to-await step; id and io are the environment's

  // ---------------------------------------------------------------- the steps

  function Unlock(lock: Option<Tid>, t: Tid): Option<Tid> {
    if lock == Some(t) then None else lock
  }

  /** The handler returns or is dropped: its guards are released. */
  function Leave(p: Process, t: Tid): Process {
    p.(threads := p.threads - {t},
       executionsLock := Unlock(p.executionsLock, t),
       compensationsLock := Unlock(p.compensationsLock, t),
       fileLock := Unlock(p.fileLock, t))
  }

  function Finish(w: World, p: Process, t: Tid, reply: Reply): World {
    w.(process := Some(Leave(p, t)), replies := w.replies + [reply])
  }

  function Goto(w: World, p: Process, t: Tid, pc: Pc): World {
    w.(process := Some(p.(threads := p.threads[t := pc])))
  }

  predicate Fresh(w: World, id: string) {
    id !in w.usedIds
  }

  predicate FreshEventId(w: World, id: string) {
    |id| == EVENT_ID_LENGTH && Fresh(w, id)
  }

  predicate KnownRef(executions: map<string, ExecuteOutput>, ref: string) {
    exists k | k in executions :: executions[k].compensationRef == Some(ref)
  }

  function LeaseError(c: Config, r: Request): Option<ErrorCode>
    requires r.LeaseRequest?
  {
    if Text.IsBlank(r.planId) || Text.IsBlank(r.scope) then Some(InvalidCredentialRequest)
    else if c.allowedScopes != [] && r.scope !in c.allowedScopes then Some(ScopeNotAllowed)
    else None
  }

  function Refuse(w: World, code: ErrorCode): World {
    w.(replies := w.replies + [Failed(code)])
  }

  /** A request arrives: the checks before the first lock, then wait for that lock. */
  function Accept(c: Config, w: World, p: Process, t: Tid, r: Request): World {
    if !Authorized(c, r.bearer) then Refuse(w, Unauthorized)
    else match r
      case ExecuteRequest(_, key, _, _, _, _) =>
        if Text.IsBlank(key) then Refuse(w, KeyRequired) else Goto(w, p, t, ExecAwaitMap(r))
      case CompensateRequest(_, ref, _) =>
        if !Text.StartsWith(ref, ACTION_PREFIX) then Refuse(w, RefInvalid) else Goto(w, p, t, CompAwaitMap(r))
      case LeaseRequest(_, _, _) =>
        if LeaseError(c, r).Some? then Refuse(w, LeaseError(c, r).value) else Goto(w, p, t, LeaseAwaitFile(r))
  }

  function AdvanceExecute(c: Config, w: World, p: Process, t: Tid, id: string, io: bool): Option<World>
    requires t in p.threads && p.threads[t].req.ExecuteRequest?
  {
    var r := p.threads[t].req;
    match p.threads[t]
    case ExecAwaitMap(_) =>
      if p.executionsLock.Some? then None
      else Some(Goto(w, p.(executionsLock := Some(t)), t, ExecLooking(r)))
    case ExecLooking(_) =>
      if r.key in p.maps.executions then Some(Finish(w, p, t, Executed(r.key, p.maps.executions[r.key])))
      else if r.connector != c.connector then
        Some(Finish(w, p, t, Executed(r.key, Rejected("connector_mismatch", r.traceId))))
      else if !ProviderRefValid(r) then
        Some(Finish(w, p, t, Executed(r.key, Rejected("credential_provider_ref_invalid", r.traceId))))
      else if !FreshEventId(w, id) then None
      else Some(Goto(w.(usedIds := w.usedIds + {id}), p, t, ExecAwaitFile(r, Applied(r.planId, id, r.traceId))))
    case ExecAwaitFile(_, out) =>
      if p.fileLock.Some? then None
      else Some(Goto(w, p.(fileLock := Some(t)), t, ExecWriting(r, out)))
    case ExecWriting(_, out) =>
      if !io then Some(Finish(w, p, t, Failed(Internal)))
      else Some(Goto(w.(file := w.file + [ExecutedLine(r.key, out)]), p.(fileLock := None), t, ExecAppended(r, out)))
    case ExecAppended(_, out) =>
      var maps := p.maps.(executions := p.maps.executions[r.key := out]);
      Some(Finish(w, p.(maps := maps), t, Executed(r.key, out)))
    case _ => None
  }

  /** Under both locks: is the reference one of an execution? If so, the executions lock is released. */
  function Scan(w: World, p: Process, t: Tid, r: Request, id: string): Option<World>
    requires r.CompensateRequest?
  {
    if !KnownRef(p.maps.executions, r.ref) then Some(Finish(w, p, t, Failed(RefNotFound)))
    else if !Fresh(w, id) then None
    else Some(Goto(w.(usedIds := w.usedIds + {id}), p.(executionsLock := None), t,
                   CompAwaitFile(r, CompensationDone(id, r.traceId))))
  }

  function AdvanceCompensate(w: World, p: Process, t: Tid, id: string, io: bool): Option<World>
    requires t in p.threads && p.threads[t].req.CompensateRequest?
  {
    var r := p.threads[t].req;
    match p.threads[t]
    case CompAwaitMap(_) =>
      if p.compensationsLock.Some? then None
      else Some(Goto(w, p.(compensationsLock := Some(t)), t, CompLooking(r)))
    case CompLooking(_) =>
      if r.ref in p.maps.compensations then Some(Finish(w, p, t, Compensated(r.ref, p.maps.compensations[r.ref])))
      else Some(Goto(w, p, t, CompAwaitExecutions(r)))
    case CompAwaitExecutions(_) =>
      if p.executionsLock.Some? then None
      else Some(Goto(w, p.(executionsLock := Some(t)), t, CompScanning(r)))
    case CompScanning(_) =>
      Scan(w, p, t, r, id)
    case CompAwaitFile(_, out) =>
      if p.fileLock.Some? then None
      else Some(Goto(w, p.(fileLock := Some(t)), t, CompWriting(r, out)))
    case CompWriting(_, out) =>
      if !io then Some(Finish(w, p, t, Failed(Internal)))
      else Some(Goto(w.(file := w.file + [CompensatedLine(r.ref, out)]), p.(fileLock := None), t, CompAppended(r, out)))
    case CompAppended(_, out) =>
      var maps := p.maps.(compensations := p.maps.compensations[r.ref := out]);
      Some(Finish(w, p.(maps := maps), t, Compensated(r.ref, out)))
    case _ => None
  }

  function AdvanceLease(w: World, p: Process, t: Tid, io: bool): Option<World>
    requires t in p.threads && p.threads[t].req.LeaseRequest?
  {
    var r := p.threads[t].req;
    match p.threads[t]
    case LeaseAwaitFile(_) =>
      if p.fileLock.Some? then None
      else Some(Goto(w, p.(fileLock := Some(t)), t, LeaseWriting(r)))
    case LeaseWriting(_) =>
      if !io then Some(Finish(w, p, t, Failed(Internal)))
      else Some(Finish(w.(file := w.file + [LeaseLine()]), p, t, LeaseIssued))
    case _ => None
  }

  /** The world after a step, or None when the step is not enabled. */
  function Next(c: Config, w: World, step: Step): Option<World> {
    match step
    case Restart =>
      if w.process.Some? || Replay(w.file).Err? then None
      else Some(w.(process := Some(Process(Replay(w.file).value, map[], None, None, None))))
    case Crash =>
      if w.process.None? then None else Some(w.(process := None))
    case Arrive(t, r) =>
      if w.process.None? || t in w.process.value.threads then None
      else Some(Accept(c, w, w.process.value, t, r))
    case Cancel(t) =>
      if w.process.None? || t !in w.process.value.threads then None
      else if w.process.value.threads[t].ExecAppended? || w.process.value.threads[t].CompAppended? then None
      else Some(w.(process := Some(Leave(w.process.value, t))))
    case Advance(t, id, io) =>
      if w.process.None? || t !in w.process.value.threads then None
      else
        var p := w.process.value;
        match p.threads[t].req
        case ExecuteRequest(_, _, _, _, _, _) => AdvanceExecute(c, w, p, t, id, io)
        case CompensateRequest(_, _, _) => AdvanceCompensate(w, p, t, id, io)
        case LeaseRequest(_, _, _) => AdvanceLease(w, p, t, io)
  }

  /** The world after a whole run from the empty file. */
  function Run(c: Config, steps: seq<Step>): Option<World> {
    if steps == [] then Some(INITIAL)
    else
      var before := Run(c, steps[..|steps| - 1]);
      if before.None? then None else Next(c, before.value, steps[|steps| - 1])
  }
}
