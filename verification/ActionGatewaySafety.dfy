/** What holds in every interleaving of the action gateway's handlers, over runs that include
    crashes and restarts. */
module ActionGatewaySafety {
  import opened Wrappers
  import opened ActionGateway

  // ---------------------------------------------------------------- what the log promises

  /** At most one executed event per idempotency key, and no two with one compensation ref. */
  ghost predicate ExecutionsDistinct(file: seq<Line>) {
    forall i, j | 0 <= i < j < |file| && IsExecuted(file[i]) && IsExecuted(file[j]) ::
      file[i].idempotencyKey != file[j].idempotencyKey && file[i].compensationRef != file[j].compensationRef
  }

  ghost predicate CompensationsDistinct(file: seq<Line>) {
    forall i, j | 0 <= i < j < |file| && IsCompensated(file[i]) && IsCompensated(file[j]) ::
      file[i].compensationRef != file[j].compensationRef
  }

  ghost predicate ExecutedBefore(file: seq<Line>, n: nat, ref: Option<string>)
    requires n <= |file|
  {
    exists i | 0 <= i < n :: IsExecuted(file[i]) && file[i].compensationRef == ref
  }

  ghost predicate CompensationsFollow(file: seq<Line>) {
    forall j | 0 <= j < |file| && IsCompensated(file[j]) :: ExecutedBefore(file, j, file[j].compensationRef)
  }

  /** The maps are an index of the file's events. */
  ghost predicate Indexed(file: seq<Line>, d: Maps) {
    && (forall i | 0 <= i < |file| && IsExecuted(file[i]) ::
          && file[i].idempotencyKey.Some?
          && file[i].idempotencyKey.value in d.executions
          && file[i].compensationRef.Some?
          && d.executions[file[i].idempotencyKey.value].compensationRef == file[i].compensationRef)
    && (forall k | k in d.executions :: ExecutedBefore(file, |file|, d.executions[k].compensationRef))
    && (forall i | 0 <= i < |file| && IsCompensated(file[i]) ::
          file[i].compensationRef.Some? && file[i].compensationRef.value in d.compensations)
  }

  ghost predicate RefsIssued(d: Maps, usedIds: set<string>) {
    forall k | k in d.executions ::
      && d.executions[k].compensationRef.Some?
      && EventIdOf(d.executions[k].compensationRef.value) in usedIds
  }

  ghost predicate LogInv(file: seq<Line>, usedIds: set<string>) {
    && Replay(file).Ok?
    && Indexed(file, Replay(file).value)
    && RefsIssued(Replay(file).value, usedIds)
    && ExecutionsDistinct(file)
    && CompensationsDistinct(file)
    && CompensationsFollow(file)
  }

  // ---------------------------------------------------------------- what a process keeps

  ghost predicate PcOk(pc: Pc, d: Maps, usedIds: set<string>) {
    match pc
    case ExecAwaitMap(r) => r.ExecuteRequest?
    case ExecLooking(r) => r.ExecuteRequest?
    case ExecAwaitFile(r, out) => r.ExecuteRequest? && Promised(d, r.key, out, usedIds)
    case ExecWriting(r, out) => r.ExecuteRequest? && Promised(d, r.key, out, usedIds)
    case ExecAppended(r, out) => r.ExecuteRequest? && r.key in d.executions && d.executions[r.key] == out
    case CompAwaitMap(r) => r.CompensateRequest?
    case CompLooking(r) => r.CompensateRequest?
    case CompAwaitExecutions(r) => r.CompensateRequest? && r.ref !in d.compensations
    case CompScanning(r) => r.CompensateRequest? && r.ref !in d.compensations
    case CompAwaitFile(r, _) => r.CompensateRequest? && r.ref !in d.compensations && KnownRef(d.executions, r.ref)
    case CompWriting(r, _) => r.CompensateRequest? && r.ref !in d.compensations && KnownRef(d.executions, r.ref)
    case CompAppended(r, out) => r.CompensateRequest? && r.ref in d.compensations && d.compensations[r.ref] == out
    case LeaseAwaitFile(r) => r.LeaseRequest?
    case LeaseWriting(r) => r.LeaseRequest?
  }

  /** An output about to be logged: a new key and a new reference, ending in an issued id. */
  ghost predicate Promised(d: Maps, key: string, out: ExecuteOutput, usedIds: set<string>) {
    && key !in d.executions
    && out.compensationRef.Some?
    && !KnownRef(d.executions, out.compensationRef.value)
    && EventIdOf(out.compensationRef.value) in usedIds
  }

  ghost predicate Owns(lock: Option<Tid>, threads: map<Tid, Pc>, holds: Pc -> bool) {
    && (forall t | t in threads :: holds(threads[t]) <==> lock == Some(t))
    && (lock.Some? ==> lock.value in threads)
  }

  /** The entry logged but not yet inserted: the lock owner's, when it stands just past its append. */
  function ExecutionsInFlight(p: Process): map<string, ExecuteOutput> {
    if p.executionsLock.Some? && p.executionsLock.value in p.threads then
      match p.threads[p.executionsLock.value]
      case ExecAppended(ExecuteRequest(_, key, _, _, _, _), out) => map[key := out]
      case _ => map[]
    else map[]
  }

  function CompensationsInFlight(p: Process): map<string, CompensateOutput> {
    if p.compensationsLock.Some? && p.compensationsLock.value in p.threads then
      match p.threads[p.compensationsLock.value]
      case CompAppended(CompensateRequest(_, ref, _), out) => map[ref := out]
      case _ => map[]
    else map[]
  }

  /** Replaying the log gives the two in-memory maps and the in-flight entries, which are not in them. */
  ghost predicate MemoryMatchesLog(p: Process, d: Maps) {
    && d.executions == p.maps.executions + ExecutionsInFlight(p)
    && d.compensations == p.maps.compensations + CompensationsInFlight(p)
    && p.maps.executions.Keys !! ExecutionsInFlight(p).Keys
    && p.maps.compensations.Keys !! CompensationsInFlight(p).Keys
  }

  /** Each lock is held by exactly the handler that stands where it holds it. */
  ghost predicate LocksOk(p: Process) {
    && Owns(p.executionsLock, p.threads, HoldsExecutions)
    && Owns(p.compensationsLock, p.threads, HoldsCompensations)
    && Owns(p.fileLock, p.threads, HoldsFile)
  }

  ghost predicate ThreadsOk(threads: map<Tid, Pc>, d: Maps, usedIds: set<string>) {
    forall t | t in threads :: PcOk(threads[t], d, usedIds)
  }

  ghost predicate ProcessInv(p: Process, d: Maps, usedIds: set<string>) {
    LocksOk(p) && ThreadsOk(p.threads, d, usedIds) && MemoryMatchesLog(p, d)
  }

  // ---------------------------------------------------------------- what clients have seen

  ghost predicate ReplyLogged(reply: Reply, d: Maps) {
    match reply
    case Executed(key, out) => out.accepted ==> key in d.executions && d.executions[key] == out
    case Compensated(ref, out) => ref in d.compensations && d.compensations[ref] == out
    case _ => true
  }

  /** Once a key has been answered with an accepted output, it is never answered otherwise. */
  ghost predicate RepliesStable(replies: seq<Reply>) {
    && (forall i, j | 0 <= i < j < |replies| && replies[i].Executed? && replies[j].Executed? ::
          replies[i].key == replies[j].key && replies[i].executeOutput.accepted ==>
            replies[j].executeOutput == replies[i].executeOutput)
    && (forall i, j | 0 <= i < j < |replies| && replies[i].Compensated? && replies[j].Compensated? ::
          replies[i].ref == replies[j].ref ==> replies[j].compensateOutput == replies[i].compensateOutput)
  }

  ghost predicate RepliesInv(replies: seq<Reply>, d: Maps) {
    RepliesStable(replies) && forall i | 0 <= i < |replies| :: ReplyLogged(replies[i], d)
  }

  ghost predicate Inv(w: World) {
    && LogInv(w.file, w.usedIds)
    && RepliesInv(w.replies, Replay(w.file).value)
    && (w.process.Some? ==> ProcessInv(w.process.value, Replay(w.file).value, w.usedIds))
  }

  // ---------------------------------------------------------------- appending a line

  lemma ExecutedAppendKeepsLog(file: seq<Line>, usedIds: set<string>, key: string, out: ExecuteOutput)
    requires LogInv(file, usedIds)
    requires Promised(Replay(file).value, key, out, usedIds)
    ensures LogInv(file + [ExecutedLine(key, out)], usedIds)
    ensures var d := Replay(file).value;
            Replay(file + [ExecutedLine(key, out)]).value == d.(executions := d.executions[key := out])
  {
    var line := ExecutedLine(key, out);
    ReplayAppend(file, line);
    ExecutedAppendKeepsEvents(file, Replay(file).value, usedIds, key, out);
    CompensationsFollowExtends(file, line);
  }

  /** An execution of a new key with a new reference keeps the log's events distinct and indexed. */
  lemma ExecutedAppendKeepsEvents(file: seq<Line>, d: Maps, usedIds: set<string>, key: string, out: ExecuteOutput)
    requires Indexed(file, d) && ExecutionsDistinct(file) && CompensationsDistinct(file)
    requires Promised(d, key, out, usedIds)
    ensures var longer := file + [ExecutedLine(key, out)];
            && ExecutionsDistinct(longer) && CompensationsDistinct(longer)
            && Indexed(longer, d.(executions := d.executions[key := out]))
  {
    var line := ExecutedLine(key, out);
    var longer := file + [line];
    IndexExtends(file, line, d);
    assert longer[|file|] == line;
    assert ExecutedBefore(longer, |longer|, out.compensationRef);
  }

  lemma ExecutedBeforeExtends(file: seq<Line>, line: Line, ref: Option<string>)
    requires ExecutedBefore(file, |file|, ref)
    ensures ExecutedBefore(file + [line], |file| + 1, ref)
  {
    var i :| 0 <= i < |file| && IsExecuted(file[i]) && file[i].compensationRef == ref;
    assert (file + [line])[i] == file[i];
  }

  lemma IndexExtends(file: seq<Line>, line: Line, d: Maps)
    requires Indexed(file, d)
    ensures forall k | k in d.executions ::
              ExecutedBefore(file + [line], |file + [line]|, d.executions[k].compensationRef)
  {
    forall k | k in d.executions
      ensures ExecutedBefore(file + [line], |file + [line]|, d.executions[k].compensationRef)
    {
      ExecutedBeforeExtends(file, line, d.executions[k].compensationRef);
    }
  }

  lemma CompensationsFollowExtends(file: seq<Line>, line: Line)
    requires CompensationsFollow(file)
    requires IsCompensated(line) ==> ExecutedBefore(file, |file|, line.compensationRef)
    ensures CompensationsFollow(file + [line])
  {
    var longer := file + [line];
    forall j | 0 <= j < |longer| && IsCompensated(longer[j])
      ensures ExecutedBefore(longer, j, longer[j].compensationRef)
    {
      assert ExecutedBefore(file, j, longer[j].compensationRef);
      var i :| 0 <= i < j && IsExecuted(file[i]) && file[i].compensationRef == longer[j].compensationRef;
      assert longer[i] == file[i];
    }
  }

  /** A compensation of a new reference keeps the log's events distinct and indexed. */
  lemma CompensatedAppendKeepsEvents(file: seq<Line>, d: Maps, ref: string, out: CompensateOutput)
    requires Indexed(file, d) && ExecutionsDistinct(file) && CompensationsDistinct(file) && ref !in d.compensations
    ensures var longer := file + [CompensatedLine(ref, out)];
            && ExecutionsDistinct(longer) && CompensationsDistinct(longer)
            && Indexed(longer, d.(compensations := d.compensations[ref := out]))
  {
    IndexExtends(file, CompensatedLine(ref, out), d);
  }

  lemma CompensatedAppendKeepsLog(file: seq<Line>, usedIds: set<string>, ref: string, out: CompensateOutput)
    requires LogInv(file, usedIds)
    requires ref !in Replay(file).value.compensations && KnownRef(Replay(file).value.executions, ref)
    ensures LogInv(file + [CompensatedLine(ref, out)], usedIds)
    ensures var d := Replay(file).value;
            Replay(file + [CompensatedLine(ref, out)]).value == d.(compensations := d.compensations[ref := out])
  {
    var line := CompensatedLine(ref, out);
    var d := Replay(file).value;
    ReplayAppend(file, line);
    CompensatedAppendKeepsEvents(file, d, ref, out);
    var k :| k in d.executions && d.executions[k].compensationRef == Some(ref);
    assert ExecutedBefore(file, |file|, d.executions[k].compensationRef);
    CompensationsFollowExtends(file, line);
  }

  lemma LeaseAppendKeepsLog(file: seq<Line>, usedIds: set<string>)
    requires LogInv(file, usedIds)
    ensures LogInv(file + [LeaseLine()], usedIds)
    ensures Replay(file + [LeaseLine()]) == Replay(file)
  {
    var line := LeaseLine();
    ReplayAppend(file, line);
    IndexExtends(file, line, Replay(file).value);
    CompensationsFollowExtends(file, line);
  }

  // ---------------------------------------------------------------- one step keeps the invariant

  /** Only the lock owner's claims can be disturbed by a new entry in a locked map. */
  lemma OthersUndisturbed(pc: Pc, d: Maps, d': Maps, usedIds: set<string>)
    requires PcOk(pc, d, usedIds)
    requires forall k | k in d.executions :: k in d'.executions && d'.executions[k] == d.executions[k]
    requires forall k | k in d.compensations :: k in d'.compensations && d'.compensations[k] == d.compensations[k]
    requires HoldsExecutions(pc) ==> d'.executions == d.executions
    requires HoldsCompensations(pc) ==> d'.compensations == d.compensations
    ensures PcOk(pc, d', usedIds)
  {
    if pc.CompAwaitFile? || pc.CompWriting? {
      var k :| k in d.executions && d.executions[k].compensationRef == Some(pc.req.ref);
      assert d'.executions[k].compensationRef == Some(pc.req.ref);
    }
  }

  lemma ReplyKeepsReplies(replies: seq<Reply>, d: Maps, reply: Reply)
    requires RepliesInv(replies, d) && ReplyLogged(reply, d)
    requires reply.Executed? && !reply.executeOutput.accepted ==>
               reply.key !in d.executions || d.executions[reply.key] == reply.executeOutput
    ensures RepliesInv(replies + [reply], d)
  {
  }

  lemma GrowthKeepsReplies(replies: seq<Reply>, d: Maps, d': Maps)
    requires RepliesInv(replies, d)
    requires forall k | k in d.executions :: k in d'.executions && d'.executions[k] == d.executions[k]
    requires forall k | k in d.compensations :: k in d'.compensations && d'.compensations[k] == d.compensations[k]
    ensures RepliesInv(replies, d')
  {
    forall i | 0 <= i < |replies| ensures ReplyLogged(replies[i], d') { assert ReplyLogged(replies[i], d); }
  }

  /** While a handler holds a map's lock and has appended nothing, the map is what the log says. */
  lemma ExecutionsMapIsLog(p: Process, d: Maps, usedIds: set<string>, t: Tid)
    requires ProcessInv(p, d, usedIds) && t in p.threads && (p.threads[t].ExecLooking? || p.threads[t].CompScanning?)
    ensures p.maps.executions == d.executions
  {
    assert p.executionsLock == Some(t) && ExecutionsInFlight(p) == map[];
  }

  lemma CompensationsMapIsLog(p: Process, d: Maps, usedIds: set<string>, t: Tid)
    requires ProcessInv(p, d, usedIds) && t in p.threads && p.threads[t].CompLooking?
    ensures p.maps.compensations == d.compensations
  {
    assert p.compensationsLock == Some(t) && CompensationsInFlight(p) == map[];
  }

  function LockAfter(lock: Option<Tid>, t: Tid, holds: bool): Option<Tid> {
    if holds then Some(t) else Unlock(lock, t)
  }

  /** p' is p after handler t moved to pc, with exactly the locks pc needs. */
  ghost predicate Moved(p: Process, p': Process, t: Tid, pc: Pc) {
    && p'.threads == p.threads[t := pc]
    && p'.maps == p.maps
    && p'.executionsLock == LockAfter(p.executionsLock, t, HoldsExecutions(pc))
    && p'.compensationsLock == LockAfter(p.compensationsLock, t, HoldsCompensations(pc))
    && p'.fileLock == LockAfter(p.fileLock, t, HoldsFile(pc))
    && (HoldsExecutions(pc) ==> p.executionsLock.None? || p.executionsLock == Some(t))
    && (HoldsCompensations(pc) ==> p.compensationsLock.None? || p.compensationsLock == Some(t))
    && (HoldsFile(pc) ==> p.fileLock.None? || p.fileLock == Some(t))
  }

  lemma OwnsAfterMove(lock: Option<Tid>, threads: map<Tid, Pc>, t: Tid, pc: Pc, holds: Pc -> bool)
    requires Owns(lock, threads, holds)
    requires holds(pc) ==> lock.None? || lock == Some(t)
    ensures Owns(LockAfter(lock, t, holds(pc)), threads[t := pc], holds)
  {
  }

  lemma OwnsAfterLeave(lock: Option<Tid>, threads: map<Tid, Pc>, t: Tid, holds: Pc -> bool)
    requires Owns(lock, threads, holds)
    ensures Owns(Unlock(lock, t), threads - {t}, holds)
  {
  }

  lemma LocksAfterMove(p: Process, p': Process, t: Tid, pc: Pc)
    requires LocksOk(p) && Moved(p, p', t, pc)
    ensures LocksOk(p')
  {
    OwnsAfterMove(p.executionsLock, p.threads, t, pc, HoldsExecutions);
    OwnsAfterMove(p.compensationsLock, p.threads, t, pc, HoldsCompensations);
    OwnsAfterMove(p.fileLock, p.threads, t, pc, HoldsFile);
  }

  lemma LocksAfterLeave(p: Process, t: Tid)
    requires LocksOk(p)
    ensures LocksOk(Leave(p, t))
  {
    OwnsAfterLeave(p.executionsLock, p.threads, t, HoldsExecutions);
    OwnsAfterLeave(p.compensationsLock, p.threads, t, HoldsCompensations);
    OwnsAfterLeave(p.fileLock, p.threads, t, HoldsFile);
  }

  lemma ThreadsAfterLeave(threads: map<Tid, Pc>, d: Maps, usedIds: set<string>, t: Tid)
    requires ThreadsOk(threads, d, usedIds)
    ensures ThreadsOk(threads - {t}, d, usedIds)
  {
  }

  lemma LeaveKeepsProcess(p: Process, d: Maps, usedIds: set<string>, t: Tid)
    requires ProcessInv(p, d, usedIds)
    requires t in p.threads && !p.threads[t].ExecAppended? && !p.threads[t].CompAppended?
    ensures ProcessInv(Leave(p, t), d, usedIds)
  {
    LocksAfterLeave(p, t);
    ThreadsAfterLeave(p.threads, d, usedIds, t);
    assert ExecutionsInFlight(Leave(p, t)) == ExecutionsInFlight(p);
    assert CompensationsInFlight(Leave(p, t)) == CompensationsInFlight(p);
  }

  /** A move that appends nothing and inserts nothing. */
  lemma MoveKeepsProcess(p: Process, p': Process, d: Maps, usedIds: set<string>, usedIds': set<string>, t: Tid, pc: Pc)
    requires ProcessInv(p, d, usedIds) && usedIds <= usedIds'
    requires Moved(p, p', t, pc) && PcOk(pc, d, usedIds') && !pc.ExecAppended? && !pc.CompAppended?
    requires t in p.threads ==> !p.threads[t].ExecAppended? && !p.threads[t].CompAppended?
    ensures ProcessInv(p', d, usedIds')
  {
    LocksAfterMove(p, p', t, pc);
    forall u | u in p'.threads ensures PcOk(p'.threads[u], d, usedIds') {
      if u != t { assert PcOk(p.threads[u], d, usedIds); }
    }
    InFlightAfterMove(p, p', t, pc);
  }

  lemma InFlightAfterMove(p: Process, p': Process, t: Tid, pc: Pc)
    requires Owns(p.executionsLock, p.threads, HoldsExecutions)
        && Owns(p.compensationsLock, p.threads, HoldsCompensations)
    requires Moved(p, p', t, pc) && !pc.ExecAppended? && !pc.CompAppended?
    requires t in p.threads ==> !p.threads[t].ExecAppended? && !p.threads[t].CompAppended?
    ensures ExecutionsInFlight(p') == ExecutionsInFlight(p)
    ensures CompensationsInFlight(p') == CompensationsInFlight(p)
  {
  }

  /** The other handlers stay where they may be when handler t, holding the lock of the map that its
      own entry goes to, has logged that entry. */
  lemma ThreadsAfterAppend(p: Process, d: Maps, d': Maps, usedIds: set<string>, t: Tid, pc: Pc)
    requires LocksOk(p) && ThreadsOk(p.threads, d, usedIds) && t in p.threads && PcOk(pc, d', usedIds)
    requires forall k | k in d.executions :: k in d'.executions && d'.executions[k] == d.executions[k]
    requires forall k | k in d.compensations :: k in d'.compensations && d'.compensations[k] == d.compensations[k]
    requires d'.executions == d.executions || HoldsExecutions(p.threads[t])
    requires d'.compensations == d.compensations || HoldsCompensations(p.threads[t])
    ensures ThreadsOk(p.threads[t := pc], d', usedIds)
  {
    forall u | u in p.threads && u != t ensures PcOk(p.threads[u], d', usedIds) {
      assert PcOk(p.threads[u], d, usedIds);
      OthersUndisturbed(p.threads[u], d, d', usedIds);
    }
  }

  function AfterExecuteAppend(p: Process, t: Tid): Process
    requires t in p.threads && p.threads[t].ExecWriting?
  {
    p.(fileLock := None, threads := p.threads[t := ExecAppended(p.threads[t].req, p.threads[t].out)])
  }

  lemma ExecutionIsInFlight(p: Process, d: Maps, t: Tid)
    requires LocksOk(p) && MemoryMatchesLog(p, d) && t in p.threads && p.threads[t].ExecWriting?
    requires p.threads[t].req.ExecuteRequest? && p.threads[t].req.key !in d.executions
    ensures var pc := p.threads[t];
            MemoryMatchesLog(AfterExecuteAppend(p, t), d.(executions := d.executions[pc.req.key := pc.out]))
  {
    var pc, p' := p.threads[t], AfterExecuteAppend(p, t);
    assert p.executionsLock == Some(t) && ExecutionsInFlight(p) == map[];
    assert ExecutionsInFlight(p') == map[pc.req.key := pc.out];
    assert CompensationsInFlight(p') == CompensationsInFlight(p);
  }

  lemma ExecuteAppendKeepsProcess(p: Process, d: Maps, usedIds: set<string>, t: Tid)
    requires ProcessInv(p, d, usedIds) && t in p.threads && p.threads[t].ExecWriting?
    ensures var pc := p.threads[t];
            ProcessInv(AfterExecuteAppend(p, t), d.(executions := d.executions[pc.req.key := pc.out]), usedIds)
  {
    var pc, pc' := p.threads[t], ExecAppended(p.threads[t].req, p.threads[t].out);
    assert PcOk(pc, d, usedIds) && HoldsExecutions(pc) && HoldsFile(pc);
    assert p.executionsLock == Some(t) && p.fileLock == Some(t) && p.compensationsLock != Some(t);
    LocksAfterMove(p, AfterExecuteAppend(p, t), t, pc');
    ThreadsAfterAppend(p, d, d.(executions := d.executions[pc.req.key := pc.out]), usedIds, t, pc');
    ExecutionIsInFlight(p, d, t);
  }

  function AfterCompensateAppend(p: Process, t: Tid): Process
    requires t in p.threads && p.threads[t].CompWriting?
  {
    p.(fileLock := None, threads := p.threads[t := CompAppended(p.threads[t].req, p.threads[t].done)])
  }

  lemma CompensationIsInFlight(p: Process, d: Maps, t: Tid)
    requires LocksOk(p) && MemoryMatchesLog(p, d) && t in p.threads && p.threads[t].CompWriting?
    requires p.threads[t].req.CompensateRequest? && p.threads[t].req.ref !in d.compensations
    ensures var pc := p.threads[t];
            MemoryMatchesLog(AfterCompensateAppend(p, t), d.(compensations := d.compensations[pc.req.ref := pc.done]))
  {
    var pc, p' := p.threads[t], AfterCompensateAppend(p, t);
    assert p.compensationsLock == Some(t) && CompensationsInFlight(p) == map[];
    assert CompensationsInFlight(p') == map[pc.req.ref := pc.done];
    assert ExecutionsInFlight(p') == ExecutionsInFlight(p);
  }

  lemma CompensateAppendKeepsProcess(p: Process, d: Maps, usedIds: set<string>, t: Tid)
    requires ProcessInv(p, d, usedIds) && t in p.threads && p.threads[t].CompWriting?
    ensures var pc := p.threads[t];
            ProcessInv(AfterCompensateAppend(p, t), d.(compensations := d.compensations[pc.req.ref := pc.done]),
                usedIds)
  {
    var pc, pc' := p.threads[t], CompAppended(p.threads[t].req, p.threads[t].done);
    assert PcOk(pc, d, usedIds) && HoldsCompensations(pc) && HoldsFile(pc);
    assert p.compensationsLock == Some(t) && p.fileLock == Some(t) && p.executionsLock != Some(t);
    LocksAfterMove(p, AfterCompensateAppend(p, t), t, pc');
    ThreadsAfterAppend(p, d, d.(compensations := d.compensations[pc.req.ref := pc.done]), usedIds, t, pc');
    CompensationIsInFlight(p, d, t);
  }

  lemma ExecuteInsertKeepsProcess(p: Process, d: Maps, usedIds: set<string>, t: Tid)
    requires ProcessInv(p, d, usedIds) && t in p.threads && p.threads[t].ExecAppended?
    ensures var pc := p.threads[t];
            ProcessInv(Leave(p.(maps := p.maps.(executions := p.maps.executions[pc.req.key := pc.out])), t), d, usedIds)
  {
    var pc := p.threads[t];
    assert PcOk(pc, d, usedIds);
    LocksAfterLeave(p, t);
    ThreadsAfterLeave(p.threads, d, usedIds, t);
    ExecutionIsInserted(p, d, t);
  }

  lemma ExecutionIsInserted(p: Process, d: Maps, t: Tid)
    requires LocksOk(p) && MemoryMatchesLog(p, d) && t in p.threads && p.threads[t].ExecAppended?
    requires p.threads[t].req.ExecuteRequest?
    ensures var pc := p.threads[t];
            MemoryMatchesLog(Leave(p.(maps := p.maps.(executions := p.maps.executions[pc.req.key := pc.out])), t), d)
  {
    var pc := p.threads[t];
    var p' := Leave(p.(maps := p.maps.(executions := p.maps.executions[pc.req.key := pc.out])), t);
    assert p.executionsLock == Some(t) && ExecutionsInFlight(p) == map[pc.req.key := pc.out];
    assert ExecutionsInFlight(p') == map[];
    assert CompensationsInFlight(p') == CompensationsInFlight(p);
  }

  lemma CompensateInsertKeepsProcess(p: Process, d: Maps, usedIds: set<string>, t: Tid)
    requires ProcessInv(p, d, usedIds) && t in p.threads && p.threads[t].CompAppended?
    ensures var pc := p.threads[t];
            ProcessInv(Leave(p.(maps := p.maps.(compensations := p.maps.compensations[pc.req.ref := pc.done])), t), d,
                usedIds)
  {
    var pc := p.threads[t];
    assert PcOk(pc, d, usedIds);
    LocksAfterLeave(p, t);
    ThreadsAfterLeave(p.threads, d, usedIds, t);
    CompensationIsInserted(p, d, t);
  }

  lemma CompensationIsInserted(p: Process, d: Maps, t: Tid)
    requires LocksOk(p) && MemoryMatchesLog(p, d) && t in p.threads && p.threads[t].CompAppended?
    requires p.threads[t].req.CompensateRequest?
    ensures var pc := p.threads[t];
            MemoryMatchesLog(Leave(p.(maps := p.maps.(compensations := p.maps.compensations[pc.req.ref := pc.done])),
                t), d)
  {
    var pc := p.threads[t];
    var p' := Leave(p.(maps := p.maps.(compensations := p.maps.compensations[pc.req.ref := pc.done])), t);
    assert p.compensationsLock == Some(t) && CompensationsInFlight(p) == map[pc.req.ref := pc.done];
    assert CompensationsInFlight(p') == map[];
    assert ExecutionsInFlight(p') == ExecutionsInFlight(p);
  }

  lemma NewOutputIsPromised(d: Maps, usedIds: set<string>, r: Request, id: string)
    requires RefsIssued(d, usedIds) && |id| == EVENT_ID_LENGTH && id !in usedIds
    requires r.ExecuteRequest? && r.key !in d.executions
    ensures Promised(d, r.key, Applied(r.planId, id, r.traceId), usedIds + {id})
  {
    assert EventIdOf(CompensationRef(r.planId, id)) == id;
  }

  /** The moves of a handler that change neither the log nor the replies. */
  lemma QuietMoveKeepsInv(w: World, w': World, t: Tid, pc: Pc)
    requires Inv(w) && w.process.Some? && w'.process.Some?
    requires w'.file == w.file && w'.replies == w.replies && w.usedIds <= w'.usedIds
    requires Moved(w.process.value, w'.process.value, t, pc)
    requires PcOk(pc, Replay(w.file).value, w'.usedIds) && !pc.ExecAppended? && !pc.CompAppended?
    requires t in w.process.value.threads ==>
               !w.process.value.threads[t].ExecAppended? && !w.process.value.threads[t].CompAppended?
    ensures Inv(w')
  {
    MoveKeepsProcess(w.process.value, w'.process.value, Replay(w.file).value, w.usedIds, w'.usedIds, t, pc);
  }

  lemma RefusalKeepsInv(w: World, t: Tid, reply: Reply)
    requires Inv(w) && w.process.Some? && t in w.process.value.threads
    requires !w.process.value.threads[t].ExecAppended? && !w.process.value.threads[t].CompAppended?
    requires ReplyLogged(reply, Replay(w.file).value)
    requires reply.Executed? && !reply.executeOutput.accepted ==>
               var d := Replay(w.file).value;
               reply.key !in d.executions || d.executions[reply.key] == reply.executeOutput
    ensures Inv(Finish(w, w.process.value, t, reply))
  {
    LeaveKeepsProcess(w.process.value, Replay(w.file).value, w.usedIds, t);
    ReplyKeepsReplies(w.replies, Replay(w.file).value, reply);
  }

  lemma ExecuteKeepsInv(c: Config, w: World, t: Tid, id: string, io: bool)
    requires Inv(w) && w.process.Some? && t in w.process.value.threads
    requires w.process.value.threads[t].req.ExecuteRequest?
    requires AdvanceExecute(c, w, w.process.value, t, id, io).Some?
    ensures Inv(AdvanceExecute(c, w, w.process.value, t, id, io).value)
  {
    var p := w.process.value;
    var d := Replay(w.file).value;
    var pc := p.threads[t];
    var r := pc.req;
    assert PcOk(pc, d, w.usedIds);
    if pc.ExecWriting? && io {
      ExecutedAppendKeepsLog(w.file, w.usedIds, r.key, pc.out);
      GrowthKeepsReplies(w.replies, d, d.(executions := d.executions[r.key := pc.out]));
      ExecuteAppendKeepsProcess(p, d, w.usedIds, t);
    } else if pc.ExecAppended? {
      ExecuteInsertKeepsProcess(p, d, w.usedIds, t);
      ReplyKeepsReplies(w.replies, d, Executed(r.key, pc.out));
    } else {
      ExecuteQuietlyKeepsInv(c, w, t, id, io);
    }
  }

  lemma ExecuteQuietlyKeepsInv(c: Config, w: World, t: Tid, id: string, io: bool)
    requires Inv(w) && w.process.Some? && t in w.process.value.threads
    requires w.process.value.threads[t].req.ExecuteRequest?
    requires AdvanceExecute(c, w, w.process.value, t, id, io).Some?
    requires !(w.process.value.threads[t].ExecWriting? && io) && !w.process.value.threads[t].ExecAppended?
    ensures Inv(AdvanceExecute(c, w, w.process.value, t, id, io).value)
  {
    var p := w.process.value;
    var pc := p.threads[t];
    var w' := AdvanceExecute(c, w, p, t, id, io).value;
    assert PcOk(pc, Replay(w.file).value, w.usedIds);
    if pc.ExecLooking? {
      ExecuteLookupKeepsInv(c, w, t, id, io);
    } else if pc.ExecWriting? {
      RefusalKeepsInv(w, t, Failed(Internal));
    } else {
      QuietMoveKeepsInv(w, w', t, w'.process.value.threads[t]);
    }
  }

  lemma ExecuteLookupKeepsInv(c: Config, w: World, t: Tid, id: string, io: bool)
    requires Inv(w) && w.process.Some? && t in w.process.value.threads
    requires w.process.value.threads[t].req.ExecuteRequest? && w.process.value.threads[t].ExecLooking?
    requires AdvanceExecute(c, w, w.process.value, t, id, io).Some?
    ensures Inv(AdvanceExecute(c, w, w.process.value, t, id, io).value)
  {
    var p := w.process.value;
    var d := Replay(w.file).value;
    var r := p.threads[t].req;
    var w' := AdvanceExecute(c, w, p, t, id, io).value;
    ExecutionsMapIsLog(p, d, w.usedIds, t);
    if r.key in p.maps.executions || r.connector != c.connector || !ProviderRefValid(r) {
      RefusalKeepsInv(w, t, w'.replies[|w.replies|]);
    } else {
      NewOutputIsPromised(d, w.usedIds, r, id);
      QuietMoveKeepsInv(w, w', t, ExecAwaitFile(r, Applied(r.planId, id, r.traceId)));
    }
  }

  lemma CompensateKeepsInv(w: World, t: Tid, id: string, io: bool)
    requires Inv(w) && w.process.Some? && t in w.process.value.threads
    requires w.process.value.threads[t].req.CompensateRequest?
    requires AdvanceCompensate(w, w.process.value, t, id, io).Some?
    ensures Inv(AdvanceCompensate(w, w.process.value, t, id, io).value)
  {
    var p := w.process.value;
    var d := Replay(w.file).value;
    var pc := p.threads[t];
    var r := pc.req;
    assert PcOk(pc, d, w.usedIds);
    if pc.CompWriting? && io {
      CompensatedAppendKeepsLog(w.file, w.usedIds, r.ref, pc.done);
      GrowthKeepsReplies(w.replies, d, d.(compensations := d.compensations[r.ref := pc.done]));
      CompensateAppendKeepsProcess(p, d, w.usedIds, t);
    } else if pc.CompAppended? {
      CompensateInsertKeepsProcess(p, d, w.usedIds, t);
      ReplyKeepsReplies(w.replies, d, Compensated(r.ref, pc.done));
    } else {
      CompensateQuietlyKeepsInv(w, t, id, io);
    }
  }

  lemma CompensateLockKeepsInv(w: World, t: Tid, id: string, io: bool)
    requires Inv(w) && w.process.Some? && t in w.process.value.threads
    requires var pc := w.process.value.threads[t];
             pc.req.CompensateRequest? && (pc.CompAwaitMap? || pc.CompAwaitExecutions? || pc.CompAwaitFile?)
    requires AdvanceCompensate(w, w.process.value, t, id, io).Some?
    ensures Inv(AdvanceCompensate(w, w.process.value, t, id, io).value)
  {
    var p := w.process.value;
    var w' := AdvanceCompensate(w, p, t, id, io).value;
    assert PcOk(p.threads[t], Replay(w.file).value, w.usedIds);
    QuietMoveKeepsInv(w, w', t, w'.process.value.threads[t]);
  }

  lemma CompensateQuietlyKeepsInv(w: World, t: Tid, id: string, io: bool)
    requires Inv(w) && w.process.Some? && t in w.process.value.threads
    requires w.process.value.threads[t].req.CompensateRequest?
    requires AdvanceCompensate(w, w.process.value, t, id, io).Some?
    requires !(w.process.value.threads[t].CompWriting? && io) && !w.process.value.threads[t].CompAppended?
    ensures Inv(AdvanceCompensate(w, w.process.value, t, id, io).value)
  {
    var pc := w.process.value.threads[t];
    if pc.CompLooking? {
      CompensateLookupKeepsInv(w, t, id, io);
    } else if pc.CompScanning? {
      ScanKeepsInv(w, t, id);
    } else if pc.CompWriting? {
      RefusalKeepsInv(w, t, Failed(Internal));
    } else {
      CompensateLockKeepsInv(w, t, id, io);
    }
  }

  lemma CompensateLookupKeepsInv(w: World, t: Tid, id: string, io: bool)
    requires Inv(w) && w.process.Some? && t in w.process.value.threads
    requires w.process.value.threads[t].req.CompensateRequest? && w.process.value.threads[t].CompLooking?
    ensures Inv(AdvanceCompensate(w, w.process.value, t, id, io).value)
  {
    var p := w.process.value;
    var r := p.threads[t].req;
    CompensationsMapIsLog(p, Replay(w.file).value, w.usedIds, t);
    if r.ref in p.maps.compensations {
      RefusalKeepsInv(w, t, Compensated(r.ref, p.maps.compensations[r.ref]));
    } else {
      QuietMoveKeepsInv(w, Goto(w, p, t, CompAwaitExecutions(r)), t, CompAwaitExecutions(r));
    }
  }

  lemma FoundKeepsProcess(p: Process, d: Maps, usedIds: set<string>, t: Tid, r: Request, id: string)
    requires r.CompensateRequest? && ProcessInv(p, d, usedIds) && t in p.threads && p.threads[t] == CompScanning(r)
    requires KnownRef(p.maps.executions, r.ref)
    ensures var pc := CompAwaitFile(r, CompensationDone(id, r.traceId));
            ProcessInv(p.(executionsLock := None, threads := p.threads[t := pc]), d, usedIds + {id})
  {
    var pc := CompAwaitFile(r, CompensationDone(id, r.traceId));
    ExecutionsMapIsLog(p, d, usedIds, t);
    assert PcOk(p.threads[t], d, usedIds);
    MoveKeepsProcess(p, p.(executionsLock := None, threads := p.threads[t := pc]), d, usedIds, usedIds + {id}, t, pc);
  }

  lemma ScanKeepsInv(w: World, t: Tid, id: string)
    requires Inv(w) && w.process.Some? && t in w.process.value.threads && w.process.value.threads[t].CompScanning?
    requires w.process.value.threads[t].req.CompensateRequest?
    ensures var next := Scan(w, w.process.value, t, w.process.value.threads[t].req, id); next.Some? ==> Inv(next.value)
  {
    var r := w.process.value.threads[t].req;
    if !KnownRef(w.process.value.maps.executions, r.ref) {
      RefusalKeepsInv(w, t, Failed(RefNotFound));
    } else if Fresh(w, id) {
      FoundKeepsProcess(w.process.value, Replay(w.file).value, w.usedIds, t, r, id);
    }
  }

  lemma LeaseWriteKeepsInv(w: World, t: Tid, io: bool)
    requires Inv(w) && w.process.Some? && t in w.process.value.threads && w.process.value.threads[t].LeaseWriting?
    requires w.process.value.threads[t].req.LeaseRequest?
    ensures Inv(AdvanceLease(w, w.process.value, t, io).value)
  {
    var d := Replay(w.file).value;
    LeaveKeepsProcess(w.process.value, d, w.usedIds, t);
    ReplyKeepsReplies(w.replies, d, if io then LeaseIssued else Failed(Internal));
    LeaseAppendKeepsLog(w.file, w.usedIds);
  }

  lemma LeaseKeepsInv(w: World, t: Tid, io: bool)
    requires Inv(w) && w.process.Some? && t in w.process.value.threads
    requires w.process.value.threads[t].req.LeaseRequest?
    requires AdvanceLease(w, w.process.value, t, io).Some?
    ensures Inv(AdvanceLease(w, w.process.value, t, io).value)
  {
    var pc := w.process.value.threads[t];
    assert PcOk(pc, Replay(w.file).value, w.usedIds);
    if pc.LeaseWriting? {
      LeaseWriteKeepsInv(w, t, io);
    } else {
      QuietMoveKeepsInv(w, AdvanceLease(w, w.process.value, t, io).value, t, LeaseWriting(pc.req));
    }
  }

  lemma ArrivalKeepsInv(c: Config, w: World, t: Tid, r: Request)
    requires Inv(w) && w.process.Some? && t !in w.process.value.threads
    ensures Inv(Accept(c, w, w.process.value, t, r))
  {
    var w' := Accept(c, w, w.process.value, t, r);
    if w'.process == w.process {
      ReplyKeepsReplies(w.replies, Replay(w.file).value, w'.replies[|w.replies|]);
    } else {
      QuietMoveKeepsInv(w, w', t, w'.process.value.threads[t]);
    }
  }

  /** Every step of every handler, and every crash and restart, keeps the invariant. */
  lemma StepKeepsInv(c: Config, w: World, step: Step)
    requires Inv(w) && Next(c, w, step).Some?
    ensures Inv(Next(c, w, step).value)
  {
    match step {
      case Restart =>
      case Crash =>
      case Arrive(t, r) => ArrivalKeepsInv(c, w, t, r);
      case Cancel(t) => LeaveKeepsProcess(w.process.value, Replay(w.file).value, w.usedIds, t);
      case Advance(t, id, io) =>
        match w.process.value.threads[t].req {
          case ExecuteRequest(_, _, _, _, _, _) => ExecuteKeepsInv(c, w, t, id, io);
          case CompensateRequest(_, _, _) => CompensateKeepsInv(w, t, id, io);
          case LeaseRequest(_, _, _) => LeaseKeepsInv(w, t, io);
        }
    }
  }

  lemma {:induction false} RunKeepsInv(c: Config, steps: seq<Step>)
    requires Run(c, steps).Some?
    ensures Inv(Run(c, steps).value)
  {
    if steps != [] {
      RunKeepsInv(c, steps[..|steps| - 1]);
      StepKeepsInv(c, Run(c, steps[..|steps| - 1]).value, steps[|steps| - 1]);
    }
  }
}
