/**
 The production deployment lease: one object in a lock bucket, written only by conditional
 requests, whose custom metadata records which cloud mutations its owner has asked for.

 Every actor is a sequential process with a program counter. A request, once sent, stays in
 `sent` for ever and may be delivered at any later moment, any number of times, with or without
 its answer reaching the sender: requests can be lost, delayed, reordered and duplicated.
 */
module Lease {
  import opened Common

  /** The recorded phases: eight of a deployment, two of a tenant provisioning. */
  datatype Phase = JobDeploy | JobExecution | ApiDeploy | EmailJobDeploy | WebDeploy
                 | ApiRelayDeploy | AppBuild | AppRollout | TenantJobDeploy | TenantJobRun

  datatype Actor = Deployment(build: nat) | Provisioning(run: nat)

  predicate MayRequest(a: Actor, p: Phase) {
    a.Provisioning? <==> (p.TenantJobDeploy? || p.TenantJobRun?)
  }

  /** The lock object as one GET returns it; also the snapshot an actor keeps after reading. */
  datatype Lock = Lock(generation: nat, metageneration: nat, owner: Actor, intents: set<Phase>)

  datatype Request =
    | Post(sender: Actor)                                            // ifGenerationMatch=0
    | Patch(sender: Actor, read: Lock, phase: Phase)                 // both generations must match
    | Delete(sender: Actor, generation: nat, metageneration: nat)    // both generations must match

  datatype Pc =
    | Idle
    | Posting                                        // create request sent
    | Looking                                        // create refused, about to read the lock
    | Inspecting(read: Lock)                         // lock read, owner's build not yet queried
    | Checking(read: Lock, remaining: set<Phase>)    // owner terminal, children still to be seen
    | Deleting(read: Lock)                           // recovery delete sent
    | Holding(generation: nat)
    | MarkRead(read: Lock, phase: Phase)             // intents read, patch not yet sent
    | MarkSent(read: Lock, phase: Phase)
    | Marked(generation: nat, phase: Phase)          // intent acknowledged, mutation may be issued
    | ReleaseChecking(read: Lock, remaining: set<Phase>)
    | Releasing(read: Lock)                          // own delete sent
    | Done                                           // released or retained; nothing more is done
    | Failed                                         // raised while acquiring
    | Dead                                           // terminal: cancelled, timed out, finished

  /** A mutation is accepted before it becomes visible, then runs, then settles. */
  datatype OpState = Accepted | Running | Settled

  type Op = (nat, Phase)

  datatype State = State(
    lock: Option<Lock>,
    nextGeneration: nat,
    pcs: map<Actor, Pc>,
    sent: set<Request>,
    ops: map<Op, OpState>,
    log: seq<Op>,               // every mutation ever issued, in order
    requested: set<Actor>,      // provisioning runs past their first acknowledged note
    observed: set<Op>           // mutations a provisioning run has seen finish
  ) {
    function At(a: Actor): Pc {
      if a in pcs then pcs[a] else Idle
    }

    function Move(a: Actor, pc: Pc): State {
      this.(pcs := pcs[a := pc])
    }

    predicate Finished(o: Op) {
      o in ops && ops[o] == Settled
    }
  }

  const Initial := State(None, 1, map[], {}, map[], [], {}, {})

  // ---- Steps ----

  datatype Step =
    | Start(a: Actor)
    | DeliverPost(a: Actor, answered: bool)
    | Look(a: Actor)
    | Retry(a: Actor)
    | SeeTerminal(a: Actor)
    | SeeChild(a: Actor, p: Phase)
    | SendDelete(a: Actor)
    | DeliverDelete(a: Actor, g: nat, m: nat, answered: bool)
    | BeginMark(a: Actor, p: Phase)
    | SendMark(a: Actor)
    | DeliverPatch(a: Actor, read: Lock, p: Phase, answered: bool)
    | AbandonMark(a: Actor)
    | Issue(a: Actor)
    | Progress(o: Op)
    | Observe(a: Actor, p: Phase)
    | BeginRelease(a: Actor)
    | SeeOwnChild(a: Actor, p: Phase)
    | SendRelease(a: Actor)
    | Retain(a: Actor)
    | Raise(a: Actor)
    | Die(a: Actor)

  function DoPost(s: State, a: Actor, answered: bool): State {
    if Post(a) !in s.sent then s
    else if s.lock.None? then
      var s' := s.(lock := Some(Lock(s.nextGeneration, 1, a, {})), nextGeneration := s.nextGeneration + 1);
      if answered && s.At(a) == Posting then s'.Move(a, Holding(s.nextGeneration)) else s'
    else if answered && s.At(a) == Posting then s.Move(a, Looking)
    else s
  }

  function DoLook(s: State, a: Actor): State {
    if s.At(a) != Looking then s
    else if s.lock.None? then s.Move(a, Posting)
    else s.Move(a, Inspecting(s.lock.value))
  }

  function DoRetry(s: State, a: Actor): State {
    if s.At(a).Inspecting? || s.At(a).Checking? then s.Move(a, Posting) else s
  }

  /** A waiter goes on only for a deployment whose build is terminal, never for a provisioning run. */
  function DoSeeTerminal(s: State, a: Actor): State {
    var pc := s.At(a);
    if pc.Inspecting? && pc.read.owner.Deployment? && s.At(pc.read.owner) == Dead
    then s.Move(a, Checking(pc.read, pc.read.intents)) else s
  }

  function DoSeeChild(s: State, a: Actor, p: Phase): State {
    var pc := s.At(a);
    if pc.Checking? && s.Finished((pc.read.generation, p))
    then s.Move(a, Checking(pc.read, pc.remaining - {p})) else s
  }

  function DoSendDelete(s: State, a: Actor): State {
    var pc := s.At(a);
    if pc.Checking? && pc.remaining == {}
    then s.Move(a, Deleting(pc.read)).(sent := s.sent + {Delete(a, pc.read.generation, pc.read.metageneration)})
    else s
  }

  predicate Matches(s: State, g: nat, m: nat) {
    s.lock.Some? && s.lock.value.generation == g && s.lock.value.metageneration == m
  }

  function DoDelete(s: State, a: Actor, g: nat, m: nat, answered: bool): State {
    if Delete(a, g, m) !in s.sent then s
    else
      var s' := if Matches(s, g, m) then s.(lock := None) else s;
      if answered && s.At(a).Deleting? then s'.Move(a, Posting)
      else if answered && s.At(a).Releasing? then s'.Move(a, Done)
      else s'
  }

  /** Reading the metadata refuses a phase that is already recorded; a provisioning run never notes a phase twice. */
  function DoBeginMark(s: State, a: Actor, p: Phase): State {
    var pc := s.At(a);
    if pc.Holding? && MayRequest(a, p) && s.lock.Some? && s.lock.value.generation == pc.generation
       && p !in s.lock.value.intents
    then s.Move(a, MarkRead(s.lock.value, p)) else s
  }

  function DoSendMark(s: State, a: Actor): State {
    var pc := s.At(a);
    if pc.MarkRead?
    then s.Move(a, MarkSent(pc.read, pc.phase)).(sent := s.sent + {Patch(a, pc.read, pc.phase)})
    else s
  }

  /** The patch writes the intents that were read plus the new one, over whatever is stored. */
  function DoPatch(s: State, a: Actor, read: Lock, p: Phase, answered: bool): State {
    if Patch(a, read, p) !in s.sent then s
    else if Matches(s, read.generation, read.metageneration) then
      var s' := s.(lock := Some(s.lock.value.(metageneration := read.metageneration + 1, intents := read.intents + {p})));
      if answered && s.At(a) == MarkSent(read, p)
      then s'.Move(a, Marked(read.generation, p)).(requested := s.requested + {a})
      else s'
    else if answered && s.At(a) == MarkSent(read, p) then s.Move(a, Holding(read.generation))
    else s
  }

  /** A refused or unanswered mark, or a mutation that was never sent: back to holding. */
  function DoAbandonMark(s: State, a: Actor): State {
    var pc := s.At(a);
    if pc.MarkRead? || pc.MarkSent? then s.Move(a, Holding(pc.read.generation))
    else if pc.Marked? then s.Move(a, Holding(pc.generation))
    else s
  }

  function DoIssue(s: State, a: Actor): State {
    var pc := s.At(a);
    if pc.Marked? then
      var o := (pc.generation, pc.phase);
      s.Move(a, Holding(pc.generation)).(ops := s.ops[o := Accepted], log := s.log + [o])
    else s
  }

  function DoProgress(s: State, o: Op): State {
    if o !in s.ops || s.ops[o] == Settled then s
    else s.(ops := s.ops[o := if s.ops[o] == Accepted then Running else Settled])
  }

  function DoObserve(s: State, a: Actor, p: Phase): State {
    var pc := s.At(a);
    if a.Provisioning? && pc.Holding? && s.Finished((pc.generation, p))
    then s.(observed := s.observed + {(pc.generation, p)}) else s
  }

  /**
   A deployment re-reads the metadata and must then see every recorded child settled. A
   provisioning run releases only if it requested nothing or saw both of its operations finish.
   */
  function DoBeginRelease(s: State, a: Actor): State {
    var pc := s.At(a);
    if !pc.Holding? || s.lock.None? || s.lock.value.generation != pc.generation then s
    else if a.Deployment? then s.Move(a, ReleaseChecking(s.lock.value, s.lock.value.intents))
    else if a !in s.requested || {(pc.generation, TenantJobDeploy), (pc.generation, TenantJobRun)} <= s.observed
    then s.Move(a, ReleaseChecking(s.lock.value, {}))
    else s
  }

  function DoSeeOwnChild(s: State, a: Actor, p: Phase): State {
    var pc := s.At(a);
    if pc.ReleaseChecking? && s.Finished((pc.read.generation, p))
    then s.Move(a, ReleaseChecking(pc.read, pc.remaining - {p})) else s
  }

  function DoSendRelease(s: State, a: Actor): State {
    var pc := s.At(a);
    if pc.ReleaseChecking? && pc.remaining == {}
    then s.Move(a, Releasing(pc.read)).(sent := s.sent + {Delete(a, pc.read.generation, pc.read.metageneration)})
    else s
  }

  function Apply(s: State, step: Step): State {
    match step
    case Start(a) => if s.At(a) == Idle then s.Move(a, Posting).(sent := s.sent + {Post(a)}) else s
    case DeliverPost(a, answered) => DoPost(s, a, answered)
    case Look(a) => DoLook(s, a)
    case Retry(a) => DoRetry(s, a)
    case SeeTerminal(a) => DoSeeTerminal(s, a)
    case SeeChild(a, p) => DoSeeChild(s, a, p)
    case SendDelete(a) => DoSendDelete(s, a)
    case DeliverDelete(a, g, m, answered) => DoDelete(s, a, g, m, answered)
    case BeginMark(a, p) => DoBeginMark(s, a, p)
    case SendMark(a) => DoSendMark(s, a)
    case DeliverPatch(a, read, p, answered) => DoPatch(s, a, read, p, answered)
    case AbandonMark(a) => DoAbandonMark(s, a)
    case Issue(a) => DoIssue(s, a)
    case Progress(o) => DoProgress(s, o)
    case Observe(a, p) => DoObserve(s, a, p)
    case BeginRelease(a) => DoBeginRelease(s, a)
    case SeeOwnChild(a, p) => DoSeeOwnChild(s, a, p)
    case SendRelease(a) => DoSendRelease(s, a)
    case Retain(a) => if s.At(a).Holding? || s.At(a).ReleaseChecking? then s.Move(a, Done) else s
    case Raise(a) => if s.At(a) in {Posting, Looking} || s.At(a).Inspecting? || s.At(a).Checking? || s.At(a).Deleting?
                     then s.Move(a, Failed) else s
    case Die(a) => if s.At(a) != Idle then s.Move(a, Dead) else s
  }

  function Run(s: State, steps: seq<Step>): State {
    if |steps| == 0 then s else Apply(Run(s, steps[..|steps| - 1]), steps[|steps| - 1])
  }

  // ---- The inductive invariant ----

  /** A snapshot is the current lock, or an older state of it, or of a generation gone for good. */
  ghost predicate Genuine(s: State, l: Lock) {
    && l.generation < s.nextGeneration
    && (s.lock.Some? && s.lock.value.generation == l.generation ==>
          && s.lock.value.owner == l.owner
          && l.metageneration <= s.lock.value.metageneration
          && (l.metageneration == s.lock.value.metageneration ==> s.lock.value == l))
  }

  ghost predicate Owns(s: State, a: Actor, g: nat) {
    s.lock.Some? && s.lock.value.generation == g && s.lock.value.owner == a
  }

  /** Program counters from which no further mutation can ever be issued. */
  ghost predicate Quiet(pc: Pc) {
    pc.Releasing? || pc == Done || pc == Failed || pc == Dead
  }

  ghost predicate AllSettled(s: State, g: nat, phases: set<Phase>) {
    forall p :: p in phases ==> s.Finished((g, p))
  }

  /** Every mutation issued under generation g has settled. */
  ghost predicate NothingPending(s: State, g: nat) {
    forall o :: o in s.ops && o.0 == g ==> s.ops[o] == Settled
  }

  ghost predicate PcOk(s: State, a: Actor, pc: Pc) {
    match pc
    case Inspecting(l) => Genuine(s, l)
    case Checking(l, rest) =>
      && Genuine(s, l) && l.owner.Deployment? && s.At(l.owner) == Dead
      && rest <= l.intents && AllSettled(s, l.generation, l.intents - rest)
    case Deleting(l) => Genuine(s, l)
    case Holding(g) => Owns(s, a, g)
    case MarkRead(l, p) => Genuine(s, l) && Owns(s, a, l.generation) && p !in l.intents && MayRequest(a, p)
    case MarkSent(l, p) => Genuine(s, l) && Owns(s, a, l.generation) && p !in l.intents && MayRequest(a, p)
    case Marked(g, p) =>
      && Owns(s, a, g) && p in s.lock.value.intents && (g, p) !in s.ops
      && MayRequest(a, p) && a in s.requested
    case ReleaseChecking(l, rest) =>
      && Genuine(s, l) && Owns(s, a, l.generation)
      && (a.Deployment? ==> rest <= l.intents && AllSettled(s, l.generation, l.intents - rest))
      && (a.Provisioning? ==> rest == {} && NothingPending(s, l.generation))
    case Releasing(l) => Genuine(s, l)
    case _ => true
  }

  /** A delete that would succeed now finds a quiet owner with nothing left to settle. */
  ghost predicate DeleteOk(s: State, sender: Actor, g: nat, m: nat) {
    && g < s.nextGeneration
    && (s.lock.Some? && s.lock.value.generation == g ==> m <= s.lock.value.metageneration)
    && (Matches(s, g, m) ==>
          var l := s.lock.value;
          && Quiet(s.At(l.owner))
          && NothingPending(s, g)
          && (l.owner.Deployment? ==> AllSettled(s, g, l.intents))
          && (l.owner.Provisioning? ==> sender == l.owner))
  }

  ghost predicate RequestOk(s: State, r: Request) {
    match r
    case Post(_) => true
    case Patch(a, l, p) => Genuine(s, l) && l.owner == a && p !in l.intents && MayRequest(a, p)
    case Delete(a, g, m) => DeleteOk(s, a, g, m)
  }

  /** A mutation is recorded in its lease before it runs, and the lease outlives it. */
  ghost predicate OpOk(s: State, o: Op)
    requires o in s.ops
  {
    && o.0 < s.nextGeneration
    && (s.ops[o] != Settled ==> s.lock.Some? && s.lock.value.generation == o.0)
    && (s.lock.Some? && s.lock.value.generation == o.0 ==>
          && o.1 in s.lock.value.intents
          && MayRequest(s.lock.value.owner, o.1)
          && s.lock.value.owner in s.requested)
  }

  ghost predicate LogOk(s: State) {
    && (forall o :: o in s.log <==> o in s.ops)
    && (forall i, j :: 0 <= i < j < |s.log| ==> s.log[i] != s.log[j])
  }

  ghost predicate Inv(s: State) {
    && (s.lock.Some? ==> s.lock.value.generation < s.nextGeneration)
    && (forall a :: a in s.pcs ==> PcOk(s, a, s.pcs[a]))
    && (forall r :: r in s.sent ==> RequestOk(s, r))
    && (forall o :: o in s.ops ==> OpOk(s, o))
    && (forall o :: o in s.observed ==> s.Finished(o))
    && LogOk(s)
  }

  // ---- Every step keeps the invariant ----

  /** Moving one program counter, when nothing already known about that actor is lost. */
  lemma MoveKeeps(s: State, a: Actor, pc: Pc)
    requires Inv(s)
    requires s.At(a) == Dead ==> pc == Dead
    requires Quiet(s.At(a)) ==> Quiet(pc)
    requires PcOk(s.Move(a, pc), a, pc)
    ensures Inv(s.Move(a, pc))
  {
    var s' := s.Move(a, pc);
    forall b | b in s'.pcs ensures PcOk(s', b, s'.pcs[b]) {
      if b != a { assert PcOk(s, b, s.pcs[b]); }
    }
    forall r | r in s'.sent ensures RequestOk(s', r) {
      assert RequestOk(s, r);
    }
    forall o | o in s'.ops ensures OpOk(s', o) {
      assert OpOk(s, o);
    }
  }

  /** Adding one request that is in order. */
  lemma SendKeeps(s: State, r: Request)
    requires Inv(s) && RequestOk(s, r)
    ensures Inv(s.(sent := s.sent + {r}))
  {
    var s' := s.(sent := s.sent + {r});
    forall b | b in s'.pcs ensures PcOk(s', b, s'.pcs[b]) {
      assert PcOk(s, b, s.pcs[b]);
    }
    forall q | q in s'.sent ensures RequestOk(s', q) {
      assert RequestOk(s, q);
    }
    forall o | o in s'.ops ensures OpOk(s', o) {
      assert OpOk(s, o);
    }
  }

  lemma CreateKeeps(s: State, a: Actor)
    requires Inv(s) && s.lock.None?
    ensures Inv(s.(lock := Some(Lock(s.nextGeneration, 1, a, {})), nextGeneration := s.nextGeneration + 1))
  {
    var s' := s.(lock := Some(Lock(s.nextGeneration, 1, a, {})), nextGeneration := s.nextGeneration + 1);
    forall b | b in s'.pcs ensures PcOk(s', b, s'.pcs[b]) {
      assert PcOk(s, b, s.pcs[b]);
    }
    forall r | r in s'.sent ensures RequestOk(s', r) {
      assert RequestOk(s, r);
    }
    forall o | o in s'.ops ensures OpOk(s', o) {
      assert OpOk(s, o);
    }
  }

  lemma DeleteKeeps(s: State, a: Actor, g: nat, m: nat)
    requires Inv(s) && Delete(a, g, m) in s.sent && Matches(s, g, m)
    ensures Inv(s.(lock := None))
  {
    var s' := s.(lock := None);
    assert RequestOk(s, Delete(a, g, m));
    var owner := s.lock.value.owner;
    assert Quiet(s.At(owner));
    forall b | b in s'.pcs ensures PcOk(s', b, s'.pcs[b]) {
      assert PcOk(s, b, s.pcs[b]);
    }
    forall r | r in s'.sent ensures RequestOk(s', r) {
      assert RequestOk(s, r);
    }
    forall o | o in s'.ops ensures OpOk(s', o) {
      assert OpOk(s, o);
    }
  }

  lemma PatchKeeps(s: State, a: Actor, read: Lock, p: Phase)
    requires Inv(s) && Patch(a, read, p) in s.sent && Matches(s, read.generation, read.metageneration)
    ensures s.lock.value == read && read.owner == a && (read.generation, p) !in s.ops
    ensures Inv(s.(lock := Some(read.(metageneration := read.metageneration + 1, intents := read.intents + {p}))))
  {
    var s' := s.(lock := Some(read.(metageneration := read.metageneration + 1, intents := read.intents + {p})));
    assert RequestOk(s, Patch(a, read, p));
    assert forall o :: o in s.ops ==> OpOk(s, o);
    assert (read.generation, p) !in s.ops;
    forall b | b in s'.pcs ensures PcOk(s', b, s'.pcs[b]) {
      assert PcOk(s, b, s.pcs[b]);
    }
    forall r | r in s'.sent ensures RequestOk(s', r) {
      assert RequestOk(s, r);
    }
    forall o | o in s'.ops ensures OpOk(s', o) {
      assert OpOk(s, o);
    }
  }

  lemma IssueKeeps(s: State, a: Actor)
    requires Inv(s) && s.At(a).Marked?
    ensures (s.At(a).generation, s.At(a).phase) !in s.ops
    ensures Inv(DoIssue(s, a))
  {
    var s' := DoIssue(s, a);
    var issued := (s.At(a).generation, s.At(a).phase);
    assert PcOk(s, a, s.pcs[a]);
    forall b | b in s'.pcs ensures PcOk(s', b, s'.pcs[b]) {
      assert PcOk(s, b, s.pcs[b]);
    }
    forall r | r in s'.sent ensures RequestOk(s', r) {
      assert RequestOk(s, r);
    }
    forall o | o in s'.ops ensures OpOk(s', o) {
      if o != issued { assert OpOk(s, o); }
    }
  }

  lemma ProgressKeeps(s: State, o: Op)
    requires Inv(s)
    ensures Inv(DoProgress(s, o))
  {
    var s' := DoProgress(s, o);
    forall b | b in s'.pcs ensures PcOk(s', b, s'.pcs[b]) {
      assert PcOk(s, b, s.pcs[b]);
    }
    forall r | r in s'.sent ensures RequestOk(s', r) {
      assert RequestOk(s, r);
    }
    forall q | q in s'.ops ensures OpOk(s', q) {
      assert OpOk(s, q);
    }
  }

  lemma PostDeliveryKeeps(s: State, a: Actor, answered: bool)
    requires Inv(s)
    ensures Inv(DoPost(s, a, answered))
  {
    if Post(a) in s.sent {
      if s.lock.None? {
        CreateKeeps(s, a);
        var created := s.(lock := Some(Lock(s.nextGeneration, 1, a, {})), nextGeneration := s.nextGeneration + 1);
        if answered && s.At(a) == Posting { MoveKeeps(created, a, Holding(s.nextGeneration)); }
      } else if answered && s.At(a) == Posting {
        MoveKeeps(s, a, Looking);
      }
    }
  }

  lemma DeleteDeliveryKeeps(s: State, a: Actor, g: nat, m: nat, answered: bool)
    requires Inv(s)
    ensures Inv(DoDelete(s, a, g, m, answered))
  {
    if Delete(a, g, m) in s.sent {
      if Matches(s, g, m) { DeleteKeeps(s, a, g, m); }
      var deleted := if Matches(s, g, m) then s.(lock := None) else s;
      if answered && s.At(a).Deleting? { MoveKeeps(deleted, a, Posting); }
      else if answered && s.At(a).Releasing? { MoveKeeps(deleted, a, Done); }
    }
  }

  lemma PatchDeliveryKeeps(s: State, a: Actor, read: Lock, p: Phase, answered: bool)
    requires Inv(s)
    ensures Inv(DoPatch(s, a, read, p, answered))
  {
    if Patch(a, read, p) in s.sent {
      if Matches(s, read.generation, read.metageneration) {
        PatchKeeps(s, a, read, p);
        var written := read.(metageneration := read.metageneration + 1, intents := read.intents + {p});
        var patched := s.(lock := Some(written));
        if answered && s.At(a) == MarkSent(read, p) { AcknowledgeKeeps(patched, a, read, p); }
      } else if answered && s.At(a) == MarkSent(read, p) {
        assert PcOk(s, a, s.pcs[a]);
        MoveKeeps(s, a, Holding(read.generation));
      }
    }
  }

  /** The sender of a patch that took effect learns of it. */
  lemma AcknowledgeKeeps(s: State, a: Actor, read: Lock, p: Phase)
    requires Inv(s) && s.At(a) == MarkSent(read, p) && Owns(s, a, read.generation)
    requires p in s.lock.value.intents && (read.generation, p) !in s.ops
    ensures Inv(s.Move(a, Marked(read.generation, p)).(requested := s.requested + {a}))
  {
    assert PcOk(s, a, s.pcs[a]);
    RequestGrows(s, a);
    MoveKeeps(s.(requested := s.requested + {a}), a, Marked(read.generation, p));
  }

  /** An actor whose mark is being acknowledged is past its first note. */
  lemma RequestGrows(s: State, a: Actor)
    requires Inv(s) && s.At(a).MarkSent?
    ensures Inv(s.(requested := s.requested + {a}))
  {
    var s' := s.(requested := s.requested + {a});
    forall b | b in s'.pcs ensures PcOk(s', b, s'.pcs[b]) {
      assert PcOk(s, b, s.pcs[b]);
    }
    forall r | r in s'.sent ensures RequestOk(s', r) {
      assert RequestOk(s, r);
    }
    forall o | o in s'.ops ensures OpOk(s', o) {
      assert OpOk(s, o);
    }
  }

  /** A provisioning run about to release has nothing pending. */
  lemma ProvisioningQuiet(s: State, a: Actor)
    requires Inv(s) && a.Provisioning? && s.At(a).Holding?
    requires a !in s.requested
             || {(s.At(a).generation, TenantJobDeploy), (s.At(a).generation, TenantJobRun)} <= s.observed
    ensures NothingPending(s, s.At(a).generation)
  {
    var g := s.At(a).generation;
    assert PcOk(s, a, s.pcs[a]);
    forall o | o in s.ops && o.0 == g ensures s.ops[o] == Settled {
      assert OpOk(s, o);
      assert o == (g, TenantJobDeploy) || o == (g, TenantJobRun);
    }
  }

  lemma ReleaseKeeps(s: State, a: Actor)
    requires Inv(s)
    ensures Inv(DoBeginRelease(s, a)) && Inv(DoSendRelease(s, a))
  {
    var begun := DoBeginRelease(s, a);
    if begun != s {
      if a.Provisioning? { ProvisioningQuiet(s, a); }
      assert PcOk(s, a, s.pcs[a]);
      MoveKeeps(s, a, begun.pcs[a]);
    }
    var pc := s.At(a);
    if pc.ReleaseChecking? && pc.remaining == {} {
      assert PcOk(s, a, s.pcs[a]);
      MoveKeeps(s, a, Releasing(pc.read));
      var moved := s.Move(a, Releasing(pc.read));
      assert forall o :: o in moved.ops ==> OpOk(moved, o);
      assert a.Deployment? ==> pc.read.intents - pc.remaining == pc.read.intents;
      SendKeeps(moved, Delete(a, pc.read.generation, pc.read.metageneration));
    }
  }

  lemma LookKeeps(s: State, step: Step)
    requires Inv(s)
    requires step.Look? || step.Retry? || step.SeeTerminal? || step.SeeChild? || step.SeeOwnChild?
    ensures Inv(Apply(s, step))
  {
    var s' := Apply(s, step);
    var a := step.a;
    if s' != s {
      if a in s.pcs { assert PcOk(s, a, s.pcs[a]); }
      MoveKeeps(s, a, s'.pcs[a]);
    }
  }

  lemma TurnKeeps(s: State, step: Step)
    requires Inv(s)
    requires step.BeginMark? || step.AbandonMark? || step.Retain? || step.Raise? || step.Die?
    ensures Inv(Apply(s, step))
  {
    var s' := Apply(s, step);
    var a := step.a;
    if s' != s {
      if a in s.pcs { assert PcOk(s, a, s.pcs[a]); }
      MoveKeeps(s, a, s'.pcs[a]);
    }
  }

  lemma SendStepKeeps(s: State, step: Step)
    requires Inv(s)
    requires step.Start? || step.SendDelete? || step.SendMark?
    ensures Inv(Apply(s, step))
  {
    var s' := Apply(s, step);
    var a := step.a;
    if s' != s {
      if a in s.pcs { assert PcOk(s, a, s.pcs[a]); }
      var moved := s.Move(a, s'.pcs[a]);
      MoveKeeps(s, a, s'.pcs[a]);
      match step {
        case Start(_) => SendKeeps(moved, Post(a));
        case SendDelete(_) =>
          var l := s.At(a).read;
          assert forall o :: o in moved.ops ==> OpOk(moved, o);
          assert l.intents - {} == l.intents;
          SendKeeps(moved, Delete(a, l.generation, l.metageneration));
        case SendMark(_) => SendKeeps(moved, Patch(a, s.At(a).read, s.At(a).phase));
      }
    }
  }

  lemma ApplyKeeps(s: State, step: Step)
    requires Inv(s)
    ensures Inv(Apply(s, step))
  {
    if step.DeliverPost? { PostDeliveryKeeps(s, step.a, step.answered); }
    else if step.DeliverDelete? { DeleteDeliveryKeeps(s, step.a, step.g, step.m, step.answered); }
    else if step.DeliverPatch? { PatchDeliveryKeeps(s, step.a, step.read, step.p, step.answered); }
    else if step.Start? || step.SendDelete? || step.SendMark? { SendStepKeeps(s, step); }
    else if step.Issue? { if s.At(step.a).Marked? { IssueKeeps(s, step.a); } }
    else if step.Progress? { ProgressKeeps(s, step.o); }
    else if step.Observe? { ObserveKeeps(s, step.a, step.p); }
    else if step.BeginRelease? || step.SendRelease? { ReleaseKeeps(s, step.a); }
    else if step.Look? || step.Retry? || step.SeeTerminal? || step.SeeChild? || step.SeeOwnChild? { LookKeeps(s, step); }
    else { TurnKeeps(s, step); }
  }

  lemma ObserveKeeps(s: State, a: Actor, p: Phase)
    requires Inv(s)
    ensures Inv(DoObserve(s, a, p))
  {
    var s' := DoObserve(s, a, p);
    forall b | b in s'.pcs ensures PcOk(s', b, s'.pcs[b]) {
      assert PcOk(s, b, s.pcs[b]);
    }
    forall r | r in s'.sent ensures RequestOk(s', r) {
      assert RequestOk(s, r);
    }
    forall o | o in s'.ops ensures OpOk(s', o) {
      assert OpOk(s, o);
    }
  }

  lemma {:induction false} RunKeeps(s: State, steps: seq<Step>)
    requires Inv(s)
    ensures Inv(Run(s, steps))
  {
    if |steps| != 0 {
      RunKeeps(s, steps[..|steps| - 1]);
      ApplyKeeps(Run(s, steps[..|steps| - 1]), steps[|steps| - 1]);
    }
  }

  // ---- What holds over whole runs ----

  lemma InitialInv()
    ensures Inv(Initial)
  {
  }

  /**
   At any moment of any run all unsettled mutations belong to one lease generation: the one
   now in the bucket, whose metadata records every one of them and whose owner asked for them.
   */
  lemma {:induction false} UnsettledBelongToTheHolder(steps: seq<Step>, o: Op)
    requires o in Run(Initial, steps).ops && Run(Initial, steps).ops[o] != Settled
    ensures Run(Initial, steps).lock.Some?
    ensures Run(Initial, steps).lock.value.generation == o.0
    ensures o.1 in Run(Initial, steps).lock.value.intents
    ensures MayRequest(Run(Initial, steps).lock.value.owner, o.1)
  {
    RunKeeps(Initial, steps);
    assert OpOk(Run(Initial, steps), o);
  }

  lemma {:induction false} AtMostOneUnsettledOwner(steps: seq<Step>, o1: Op, o2: Op)
    requires o1 in Run(Initial, steps).ops && Run(Initial, steps).ops[o1] != Settled
    requires o2 in Run(Initial, steps).ops && Run(Initial, steps).ops[o2] != Settled
    ensures o1.0 == o2.0
  {
    UnsettledBelongToTheHolder(steps, o1);
    UnsettledBelongToTheHolder(steps, o2);
  }

  /** No phase is requested twice under one lease generation. */
  lemma {:induction false} EachPhaseRequestedOnce(steps: seq<Step>, i: nat, j: nat)
    requires i < j < |Run(Initial, steps).log|
    ensures Run(Initial, steps).log[i] != Run(Initial, steps).log[j]
  {
    RunKeeps(Initial, steps);
  }

  /**
   A lease leaves the bucket only through a delete that named its exact generation and
   metageneration, when its owner can do nothing more, every mutation under it has settled and,
   for a deployment, every recorded intent was issued and settled. A provisioning lease is
   removed by its own run only.
   */
  lemma {:induction false} RemovedOnlyWhenSettled(steps: seq<Step>, step: Step)
    requires Run(Initial, steps).lock.Some?
    requires Apply(Run(Initial, steps), step).lock.None?
             || Apply(Run(Initial, steps), step).lock.value.generation != Run(Initial, steps).lock.value.generation
    ensures var s := Run(Initial, steps);
            var l := s.lock.value;
            && step.DeliverDelete? && step.g == l.generation && step.m == l.metageneration
            && Quiet(s.At(l.owner)) && NothingPending(s, l.generation)
            && (l.owner.Deployment? ==> AllSettled(s, l.generation, l.intents))
            && (l.owner.Provisioning? ==> step.a == l.owner)
  {
    RunKeeps(Initial, steps);
    RemovalSettled(Run(Initial, steps), step);
  }

  lemma RemovalSettled(s: State, step: Step)
    requires Inv(s) && s.lock.Some?
    requires Apply(s, step).lock.None? || Apply(s, step).lock.value.generation != s.lock.value.generation
    ensures var l := s.lock.value;
            && step.DeliverDelete? && step.g == l.generation && step.m == l.metageneration
            && Quiet(s.At(l.owner)) && NothingPending(s, l.generation)
            && (l.owner.Deployment? ==> AllSettled(s, l.generation, l.intents))
            && (l.owner.Provisioning? ==> step.a == l.owner)
  {
    if step.DeliverDelete? {
      assert RequestOk(s, Delete(step.a, step.g, step.m));
    }
  }

  lemma {:induction false} RunConcat(s: State, first: seq<Step>, second: seq<Step>)
    ensures Run(s, first + second) == Run(Run(s, first), second)
  {
    if |second| == 0 {
      assert first + second == first;
    } else {
      var n := |second| - 1;
      assert (first + second)[..|first| + n] == first + second[..n];
      RunConcat(s, first, second[..n]);
    }
  }

  ghost predicate Gone(s: State, g: nat) {
    g < s.nextGeneration && (s.lock.Some? ==> s.lock.value.generation != g)
  }

  /** A removed generation never comes back, and nothing is ever issued under it again. */
  lemma {:induction false} GoneForGood(s: State, g: nat, more: seq<Step>)
    requires Inv(s) && Gone(s, g)
    ensures Gone(Run(s, more), g)
    ensures forall o: Op :: o.0 == g ==> (o in Run(s, more).ops <==> o in s.ops)
  {
    if |more| != 0 {
      var before := Run(s, more[..|more| - 1]);
      var step := more[|more| - 1];
      GoneForGood(s, g, more[..|more| - 1]);
      RunKeeps(s, more[..|more| - 1]);
      GoneStays(before, g, step);
    }
  }

  lemma GoneStays(s: State, g: nat, step: Step)
    requires Inv(s) && Gone(s, g)
    ensures Gone(Apply(s, step), g)
    ensures forall o: Op :: o.0 == g ==> (o in Apply(s, step).ops <==> o in s.ops)
  {
    if step.Issue? && s.At(step.a).Marked? {
      assert PcOk(s, step.a, s.pcs[step.a]);
    }
  }

  /** A dead deployment holds the lease and never issued phase p, although p is recorded. */
  ghost predicate Fenced(s: State, g: nat, p: Phase) {
    && s.lock.Some? && s.lock.value.generation == g
    && s.lock.value.owner.Deployment? && s.At(s.lock.value.owner) == Dead
    && p in s.lock.value.intents && (g, p) !in s.ops
  }

  lemma FenceDelivery(s: State, g: nat, p: Phase, step: Step)
    requires Inv(s) && Fenced(s, g, p)
    requires step.DeliverPost? || step.DeliverDelete? || step.DeliverPatch?
    ensures Fenced(Apply(s, step), g, p)
  {
    match step {
      case DeliverPost(a, _) =>
      case DeliverDelete(a, h, m, _) =>
        if Delete(a, h, m) in s.sent { assert RequestOk(s, Delete(a, h, m)); }
      case DeliverPatch(a, read, q, _) =>
        if Patch(a, read, q) in s.sent { assert RequestOk(s, Patch(a, read, q)); }
    }
  }

  lemma FenceStep(s: State, g: nat, p: Phase, step: Step)
    requires Inv(s) && Fenced(s, g, p)
    ensures Fenced(Apply(s, step), g, p)
  {
    if step.DeliverPost? || step.DeliverDelete? || step.DeliverPatch? {
      FenceDelivery(s, g, p, step);
    } else if step.Issue? {
      assert step.a in s.pcs ==> PcOk(s, step.a, s.pcs[step.a]);
    } else if step.Progress? || step.Observe? {
    } else {
      assert Apply(s, step).lock == s.lock && Apply(s, step).ops == s.ops;
    }
  }

  /**
   An intent whose mutation was never issued cannot be discharged: once such a build is dead its
   lease stays in the bucket in every continuation of the run.
   */
  lemma {:induction false} FenceRetained(s: State, g: nat, p: Phase, more: seq<Step>)
    requires Inv(s) && Fenced(s, g, p)
    ensures Fenced(Run(s, more), g, p)
  {
    if |more| != 0 {
      FenceRetained(s, g, p, more[..|more| - 1]);
      RunKeeps(s, more[..|more| - 1]);
      FenceStep(Run(s, more[..|more| - 1]), g, p, more[|more| - 1]);
    }
  }

  // ---- Recovery is possible exactly when nothing was left unissued ----

  lemma {:induction false} RunOne(s: State, step: Step)
    ensures Run(s, [step]) == Apply(s, step)
  {
    assert [step][..0] == [];
  }

  lemma {:induction false} RunSnoc(s: State, steps: seq<Step>, step: Step)
    ensures Run(s, steps + [step]) == Apply(Run(s, steps), step)
  {
    assert (steps + [step])[..|steps|] == steps;
  }

  /** Every issued mutation may settle, without any other effect. */
  lemma {:induction false} SettleAll(s: State, g: nat, phases: set<Phase>) returns (steps: seq<Step>)
    requires forall p :: p in phases ==> (g, p) in s.ops
    ensures Run(s, steps) == s.(ops := Run(s, steps).ops)
    ensures Run(s, steps).ops.Keys == s.ops.Keys
    ensures forall o :: o in s.ops && s.ops[o] == Settled ==> Run(s, steps).ops[o] == Settled
    ensures AllSettled(Run(s, steps), g, phases)
  {
    if phases == {} {
      return [];
    }
    var p :| p in phases;
    var rest := SettleAll(s, g, phases - {p});
    var mid := Run(s, rest);
    var twice := [Progress((g, p)), Progress((g, p))];
    steps := rest + twice;
    RunConcat(s, rest, twice);
    assert twice[..1] == [Progress((g, p))];
    RunOne(mid, Progress((g, p)));
    assert Run(s, steps) == DoProgress(DoProgress(mid, (g, p)), (g, p));
    forall q | q in phases ensures Run(s, steps).Finished((g, q)) {
      if q != p { assert mid.Finished((g, q)); }
    }
  }

  /** A waiter that has seen the owner dead ticks the settled children off one by one. */
  lemma {:induction false} SeeAll(s: State, a: Actor, l: Lock, rest: set<Phase>) returns (steps: seq<Step>)
    requires s.At(a) == Checking(l, rest) && AllSettled(s, l.generation, rest)
    ensures Run(s, steps) == s.Move(a, Checking(l, {}))
    decreases rest
  {
    if rest == {} {
      assert s.Move(a, Checking(l, {})).pcs == s.pcs;
      return [];
    }
    var p :| p in rest;
    var seen := Apply(s, SeeChild(a, p));
    var tail := SeeAll(seen, a, l, rest - {p});
    steps := [SeeChild(a, p)] + tail;
    RunConcat(s, [SeeChild(a, p)], tail);
    RunOne(s, SeeChild(a, p));
    assert seen.Move(a, Checking(l, {})).pcs == s.Move(a, Checking(l, {})).pcs;
  }

  /** A fresh waiter finds the lock taken, reads it and sees that the owner's build is terminal. */
  lemma ReachCheck(s: State, a: Actor) returns (steps: seq<Step>)
    requires s.lock.Some? && s.lock.value.owner.Deployment? && s.At(s.lock.value.owner) == Dead
    requires s.At(a) == Idle
    ensures var s' := Run(s, steps);
            && s'.At(a) == Checking(s.lock.value, s.lock.value.intents)
            && s'.lock == s.lock && s'.ops == s.ops
  {
    var s1 := Apply(s, Start(a));
    var s2 := Apply(s1, DeliverPost(a, true));
    assert s2.At(a) == Looking && s2.lock == s.lock;
    var s3 := Apply(s2, Look(a));
    assert s3.At(a) == Inspecting(s.lock.value);
    RunOne(s, Start(a));
    RunSnoc(s, [Start(a)], DeliverPost(a, true));
    RunSnoc(s, [Start(a)] + [DeliverPost(a, true)], Look(a));
    RunSnoc(s, [Start(a)] + [DeliverPost(a, true)] + [Look(a)], SeeTerminal(a));
    steps := [Start(a)] + [DeliverPost(a, true)] + [Look(a)] + [SeeTerminal(a)];
  }

  /** With every child seen settled, the delete is sent and succeeds. */
  lemma FinishDelete(s: State, a: Actor, l: Lock) returns (steps: seq<Step>)
    requires s.lock == Some(l) && s.At(a) == Checking(l, {})
    ensures Run(s, steps).lock.None?
  {
    RunOne(s, SendDelete(a));
    RunSnoc(s, [SendDelete(a)], DeliverDelete(a, l.generation, l.metageneration, true));
    steps := [SendDelete(a)] + [DeliverDelete(a, l.generation, l.metageneration, true)];
  }

  /** The whole recovery by a fresh waiter a, from its first request to the delete. */
  lemma Recover(s: State, a: Actor) returns (steps: seq<Step>)
    requires s.lock.Some? && s.lock.value.owner.Deployment? && s.At(s.lock.value.owner) == Dead
    requires AllSettled(s, s.lock.value.generation, s.lock.value.intents)
    requires s.At(a) == Idle
    ensures Run(s, steps).lock.None?
  {
    var l := s.lock.value;
    var head := ReachCheck(s, a);
    var checking := Run(s, head);
    assert forall p :: p in l.intents ==> s.Finished((l.generation, p)) && checking.Finished((l.generation, p));
    var ticks := SeeAll(checking, a, l, l.intents);
    var last := FinishDelete(Run(checking, ticks), a, l);
    RunConcat(checking, ticks, last);
    RunConcat(s, head, ticks + last);
    steps := head + (ticks + last);
  }

  /** An owner about to release ticks its own settled children off one by one. */
  lemma {:induction false} SeeOwnAll(s: State, a: Actor, l: Lock, rest: set<Phase>) returns (steps: seq<Step>)
    requires s.At(a) == ReleaseChecking(l, rest) && AllSettled(s, l.generation, rest)
    ensures Run(s, steps) == s.Move(a, ReleaseChecking(l, {}))
    decreases rest
  {
    if rest == {} {
      assert s.Move(a, ReleaseChecking(l, {})).pcs == s.pcs;
      return [];
    }
    var p :| p in rest;
    var seen := Apply(s, SeeOwnChild(a, p));
    var tail := SeeOwnAll(seen, a, l, rest - {p});
    steps := [SeeOwnChild(a, p)] + tail;
    RunConcat(s, [SeeOwnChild(a, p)], tail);
    RunOne(s, SeeOwnChild(a, p));
    assert seen.Move(a, ReleaseChecking(l, {})).pcs == s.Move(a, ReleaseChecking(l, {})).pcs;
  }

  lemma FinishRelease(s: State, a: Actor, l: Lock) returns (steps: seq<Step>)
    requires s.lock == Some(l) && s.At(a) == ReleaseChecking(l, {})
    ensures Run(s, steps).lock.None? && Run(s, steps).At(a) == Done
  {
    RunOne(s, SendRelease(a));
    RunSnoc(s, [SendRelease(a)], DeliverDelete(a, l.generation, l.metageneration, true));
    steps := [SendRelease(a)] + [DeliverDelete(a, l.generation, l.metageneration, true)];
  }

  /** A provisioning run that has requested its operations notes that both have finished. */
  lemma ObserveBoth(s: State, a: Actor) returns (steps: seq<Step>)
    requires a.Provisioning? && s.At(a).Holding?
    requires s.Finished((s.At(a).generation, TenantJobDeploy)) && s.Finished((s.At(a).generation, TenantJobRun))
    ensures var g := s.At(a).generation;
            Run(s, steps) == s.(observed := s.observed + {(g, TenantJobDeploy), (g, TenantJobRun)})
  {
    var g := s.At(a).generation;
    RunOne(s, Observe(a, TenantJobDeploy));
    RunSnoc(s, [Observe(a, TenantJobDeploy)], Observe(a, TenantJobRun));
    steps := [Observe(a, TenantJobDeploy)] + [Observe(a, TenantJobRun)];
    assert s.observed + {(g, TenantJobDeploy)} + {(g, TenantJobRun)} == s.observed + {(g, TenantJobDeploy), (g, TenantJobRun)};
  }

  /** An owner whose recorded work has finished needs only its own, answered requests to give the lease up. */
  lemma OwnerReleases(s: State, a: Actor) returns (steps: seq<Step>)
    requires s.At(a).Holding? && Owns(s, a, s.At(a).generation)
    requires a.Deployment? ==> AllSettled(s, s.lock.value.generation, s.lock.value.intents)
    requires a.Provisioning? ==> a !in s.requested || AllSettled(s, s.lock.value.generation, {TenantJobDeploy, TenantJobRun})
    ensures Run(s, steps).lock.None? && Run(s, steps).At(a) == Done
  {
    var l := s.lock.value;
    var head: seq<Step> := [];
    if a.Provisioning? && a in s.requested { head := ObserveBoth(s, a); }
    var ready := Run(s, head);
    var begun := Apply(ready, BeginRelease(a));
    var rest := if a.Deployment? then l.intents else {};
    assert begun.At(a) == ReleaseChecking(l, rest) && begun.lock == s.lock && begun.ops == s.ops;
    assert forall p :: p in rest ==> s.Finished((l.generation, p)) && begun.Finished((l.generation, p));
    var ticks := SeeOwnAll(begun, a, l, rest);
    var last := FinishRelease(Run(begun, ticks), a, l);
    RunConcat(begun, ticks, last);
    RunOne(ready, BeginRelease(a));
    RunConcat(ready, [BeginRelease(a)], ticks + last);
    RunConcat(s, head, [BeginRelease(a)] + (ticks + last));
    steps := head + ([BeginRelease(a)] + (ticks + last));
  }

  /** So does an owner whose last mark was refused or never answered, while the mark has not taken effect. */
  lemma ReleaseAfterAbandonedMark(s: State, a: Actor) returns (steps: seq<Step>)
    requires s.At(a).MarkRead? || s.At(a).MarkSent?
    requires Owns(s, a, s.At(a).read.generation)
    requires a.Deployment? ==> AllSettled(s, s.lock.value.generation, s.lock.value.intents)
    requires a.Provisioning? ==> a !in s.requested || AllSettled(s, s.lock.value.generation, {TenantJobDeploy, TenantJobRun})
    ensures Run(s, steps).lock.None? && Run(s, steps).At(a) == Done
  {
    var held := Apply(s, AbandonMark(a));
    assert held == s.Move(a, Holding(s.lock.value.generation));
    assert forall o :: held.Finished(o) == s.Finished(o);
    var rest := OwnerReleases(held, a);
    RunOne(s, AbandonMark(a));
    RunConcat(s, [AbandonMark(a)], rest);
    steps := [AbandonMark(a)] + rest;
  }

  ghost predicate CanRecover(s: State, g: nat) {
    exists steps: seq<Step> :: Run(s, steps).lock.None? || Run(s, steps).lock.value.generation != g
  }

  /**
   The lease of a dead deployment can be recovered, by some schedule, exactly when each of its
   recorded intents was followed by its mutation. (a is any actor that has not started yet.)
   */
  lemma RecoverableIffIssued(s: State, a: Actor)
    requires Inv(s) && s.At(a) == Idle
    requires s.lock.Some? && s.lock.value.owner.Deployment? && s.At(s.lock.value.owner) == Dead
    ensures CanRecover(s, s.lock.value.generation)
       <==> forall p :: p in s.lock.value.intents ==> (s.lock.value.generation, p) in s.ops
  {
    var l := s.lock.value;
    if forall p :: p in l.intents ==> (l.generation, p) in s.ops {
      var settle := SettleAll(s, l.generation, l.intents);
      var recover := Recover(Run(s, settle), a);
      RunConcat(s, settle, recover);
      assert Run(s, settle + recover).lock.None?;
    } else {
      var p :| p in l.intents && (l.generation, p) !in s.ops;
      forall steps: seq<Step>
        ensures Run(s, steps).lock.Some? && Run(s, steps).lock.value.generation == l.generation
      {
        FenceRetained(s, l.generation, p, steps);
      }
    }
  }

  /** The shortfall is real: any build that dies between recording its first intent and the mutation is fenced for good. */
  lemma {:induction false} FenceIsReached(a: Actor, p: Phase, more: seq<Step>)
    requires a.Deployment? && MayRequest(a, p)
    ensures var l := Lock(1, 1, a, {});
            var steps := [Start(a), DeliverPost(a, true), BeginMark(a, p), SendMark(a), DeliverPatch(a, l, p, true), Die(a)];
            && Fenced(Run(Initial, steps), 1, p)
            && Fenced(Run(Initial, steps + more), 1, p)
            && !CanRecover(Run(Initial, steps), 1)
  {
    var l := Lock(1, 1, a, {});
    var steps := [Start(a), DeliverPost(a, true), BeginMark(a, p), SendMark(a), DeliverPatch(a, l, p, true), Die(a)];
    FenceSteps(a, p);
    InitialInv();
    RunKeeps(Initial, steps);
    RunConcat(Initial, steps, more);
    FenceRetained(Run(Initial, steps), 1, p, more);
    forall rest: seq<Step> ensures Fenced(Run(Run(Initial, steps), rest), 1, p) {
      FenceRetained(Run(Initial, steps), 1, p, rest);
    }
  }

  lemma {:induction false} RunThree(s: State, a: Step, b: Step, c: Step)
    ensures Run(s, [a, b, c]) == Apply(Apply(Apply(s, a), b), c)
  {
    RunOne(s, a);
    RunSnoc(s, [a], b);
    RunSnoc(s, [a, b], c);
    assert [a] + [b] == [a, b] && [a, b] + [c] == [a, b, c];
  }

  lemma {:induction false} RunSix(s: State, a: Step, b: Step, c: Step, d: Step, e: Step, f: Step)
    ensures Run(s, [a, b, c, d, e, f]) == Apply(Apply(Apply(Apply(Apply(Apply(s, a), b), c), d), e), f)
  {
    var first, second := [a, b, c], [d, e, f];
    RunConcat(s, first, second);
    assert first + second == [a, b, c, d, e, f];
    RunThree(s, a, b, c);
    RunThree(Run(s, first), d, e, f);
  }

  /** A build that has just taken the free lock and sent its first mark. */
  lemma FirstMark(a: Actor, p: Phase)
    requires MayRequest(a, p)
    ensures var l := Lock(1, 1, a, {});
            var s := Apply(Apply(Apply(Apply(Initial, Start(a)), DeliverPost(a, true)), BeginMark(a, p)), SendMark(a));
            s.lock == Some(l) && s.At(a) == MarkSent(l, p) && Patch(a, l, p) in s.sent && s.ops == map[]
  {
    var s2 := Apply(Apply(Initial, Start(a)), DeliverPost(a, true));
    assert s2.At(a) == Holding(1) && s2.lock == Some(Lock(1, 1, a, {}));
  }

  lemma FenceSteps(a: Actor, p: Phase)
    requires a.Deployment? && MayRequest(a, p)
    ensures Fenced(Run(Initial, [Start(a), DeliverPost(a, true), BeginMark(a, p), SendMark(a),
                                 DeliverPatch(a, Lock(1, 1, a, {}), p, true), Die(a)]), 1, p)
  {
    FirstMark(a, p);
    RunSix(Initial, Start(a), DeliverPost(a, true), BeginMark(a, p), SendMark(a), DeliverPatch(a, Lock(1, 1, a, {}), p, true), Die(a));
    var s := Apply(Apply(Apply(Apply(Initial, Start(a)), DeliverPost(a, true)), BeginMark(a, p)), SendMark(a));
    MarkThenDie(s, a, Lock(1, 1, a, {}), p);
  }

  lemma MarkThenDie(s: State, a: Actor, l: Lock, p: Phase)
    requires a.Deployment? && s.lock == Some(l) && l.owner == a && s.At(a) == MarkSent(l, p)
    requires Patch(a, l, p) in s.sent && s.ops == map[]
    ensures Fenced(Apply(Apply(s, DeliverPatch(a, l, p, true)), Die(a)), l.generation, p)
  {
  }

  // ---- What every delete request rests on ----

  /** A delete names a lock that was read when it was the sender's own or its owner dead, with every intent settled. */
  ghost predicate Justified(s: State, a: Actor, g: nat, m: nat) {
    exists l: Lock :: JustifiedBy(s, a, g, m, l)
  }

  ghost predicate JustifiedBy(s: State, a: Actor, g: nat, m: nat, l: Lock) {
    && l.generation == g && l.metageneration == m && AllSettled(s, g, l.intents)
    && (l.owner == a || (l.owner.Deployment? && s.At(l.owner) == Dead))
  }

  ghost predicate DeletesJustified(s: State) {
    forall a: Actor, g, m :: a.Deployment? && Delete(a, g, m) in s.sent ==> Justified(s, a, g, m)
  }

  /** Whoever has asked for its own lease to be deleted does nothing more under it. */
  ghost predicate ReleasersQuiet(s: State) {
    forall a, g, m :: Delete(a, g, m) in s.sent && Owns(s, a, g) ==> Quiet(s.At(a))
  }

  lemma StepKeepsSettled(s: State, step: Step, g: nat, phases: set<Phase>)
    requires Inv(s) && AllSettled(s, g, phases)
    ensures AllSettled(Apply(s, step), g, phases)
  {
    if step.Issue? && s.At(step.a).Marked? { IssueKeeps(s, step.a); }
  }

  lemma DeadStaysDead(s: State, step: Step, a: Actor)
    ensures s.At(a) == Dead ==> Apply(s, step).At(a) == Dead
    ensures Quiet(s.At(a)) ==> Quiet(Apply(s, step).At(a))
  {
  }

  lemma StillJustified(s: State, step: Step, a: Actor, g: nat, m: nat)
    requires Inv(s) && Justified(s, a, g, m)
    ensures Justified(Apply(s, step), a, g, m)
  {
    var l: Lock :| JustifiedBy(s, a, g, m, l);
    StepKeepsSettled(s, step, g, l.intents);
    DeadStaysDead(s, step, l.owner);
    assert JustifiedBy(Apply(s, step), a, g, m, l);
  }

  /** Which step sends which delete. */
  lemma NewDelete(s: State, step: Step, a: Actor, g: nat, m: nat)
    requires Delete(a, g, m) in Apply(s, step).sent && Delete(a, g, m) !in s.sent
    ensures (step.SendDelete? || step.SendRelease?) && step.a == a
    ensures var pc := s.At(a);
            && (if step.SendDelete? then pc.Checking? else pc.ReleaseChecking?)
            && pc.remaining == {} && pc.read.generation == g && pc.read.metageneration == m
  {
  }

  lemma NewDeleteJustified(s: State, step: Step, a: Actor, g: nat, m: nat)
    requires Inv(s) && a.Deployment?
    requires Delete(a, g, m) in Apply(s, step).sent && Delete(a, g, m) !in s.sent
    ensures Justified(Apply(s, step), a, g, m)
  {
    NewDelete(s, step, a, g, m);
    assert PcOk(s, a, s.pcs[a]);
    var l := s.At(a).read;
    assert l.intents - {} == l.intents;
    assert JustifiedBy(s, a, g, m, l);
    StillJustified(s, step, a, g, m);
  }

  lemma StepKeepsJustified(s: State, step: Step)
    requires Inv(s) && DeletesJustified(s)
    ensures DeletesJustified(Apply(s, step))
  {
    forall a: Actor, g, m | a.Deployment? && Delete(a, g, m) in Apply(s, step).sent ensures Justified(Apply(s, step), a, g, m) {
      if Delete(a, g, m) in s.sent { StillJustified(s, step, a, g, m); }
      else { NewDeleteJustified(s, step, a, g, m); }
    }
  }

  lemma OwnDeleteIsQuiet(s: State, step: Step, a: Actor, g: nat, m: nat)
    requires Inv(s) && Delete(a, g, m) in Apply(s, step).sent && Delete(a, g, m) !in s.sent && Owns(s, a, g)
    ensures Quiet(Apply(s, step).At(a))
  {
    NewDelete(s, step, a, g, m);
    assert PcOk(s, a, s.pcs[a]);
  }

  lemma OwnsBefore(s: State, step: Step, a: Actor, g: nat)
    requires Inv(s) && Owns(Apply(s, step), a, g) && g < s.nextGeneration
    ensures Owns(s, a, g)
  {
    if step.DeliverPatch? && Patch(step.a, step.read, step.p) in s.sent {
      assert RequestOk(s, Patch(step.a, step.read, step.p));
    }
  }

  lemma StepKeepsReleasersQuiet(s: State, step: Step)
    requires Inv(s) && ReleasersQuiet(s)
    ensures ReleasersQuiet(Apply(s, step))
  {
    ApplyKeeps(s, step);
    forall a, g, m | Delete(a, g, m) in Apply(s, step).sent && Owns(Apply(s, step), a, g)
      ensures Quiet(Apply(s, step).At(a))
    {
      if Delete(a, g, m) in s.sent {
        assert RequestOk(s, Delete(a, g, m));
        OwnsBefore(s, step, a, g);
        DeadStaysDead(s, step, a);
      } else {
        NewDelete(s, step, a, g, m);
        assert PcOk(s, a, s.pcs[a]);
        OwnsBefore(s, step, a, g);
        OwnDeleteIsQuiet(s, step, a, g, m);
      }
    }
  }

  lemma {:induction false} RunKeepsDeletes(steps: seq<Step>)
    ensures Inv(Run(Initial, steps)) && DeletesJustified(Run(Initial, steps)) && ReleasersQuiet(Run(Initial, steps))
  {
    RunKeeps(Initial, steps);
    if |steps| != 0 {
      RunKeepsDeletes(steps[..|steps| - 1]);
      StepKeepsJustified(Run(Initial, steps[..|steps| - 1]), steps[|steps| - 1]);
      StepKeepsReleasersQuiet(Run(Initial, steps[..|steps| - 1]), steps[|steps| - 1]);
    }
  }

  /**
   In every run, whatever a deployment asks to be deleted is a lock it read with all intents settled, and either
   its own or that of a dead build.
   */
  lemma {:induction false} DeleteIsJustified(steps: seq<Step>, a: Actor, g: nat, m: nat)
    requires a.Deployment? && Delete(a, g, m) in Run(Initial, steps).sent
    ensures Justified(Run(Initial, steps), a, g, m)
  {
    RunKeepsDeletes(steps);
  }
}
