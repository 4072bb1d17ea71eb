/**
 The deployment's own side of the lease: acquiring with recovery, recording an intent, releasing.
 Each request is one step of the protocol, and everybody else may take any steps in between, so
 whatever is proved of the protocol's runs holds for this code in any surroundings.
 */
module LeaseClient {
  import opened Common
  import opened Lease

  /** Steps of other actors, of the network and of the cloud: anything that does not move this client. */
  predicate NotMine(step: Step, me: Actor) {
    match step
    case Progress(o) => true
    case DeliverPost(a, answered) => a != me || !answered
    case DeliverDelete(a, g, m, answered) => a != me || !answered
    case DeliverPatch(a, read, p, answered) => a != me || !answered
    case _ => step.a != me
  }

  predicate Elsewhere(steps: seq<Step>, me: Actor) {
    forall i :: 0 <= i < |steps| ==> NotMine(steps[i], me)
  }

  lemma {:induction false} OthersLeaveMe(s: State, steps: seq<Step>, me: Actor)
    requires Elsewhere(steps, me)
    ensures Run(s, steps).At(me) == s.At(me)
  {
    if |steps| > 0 {
      OthersLeaveMe(s, steps[..|steps| - 1], me);
      assert NotMine(steps[|steps| - 1], me);
    }
  }

  /** Steps before each request, those before a child's status by child, and whether the create's answer is lost. */
  datatype Round = Round(beforePost: seq<Step>, beforeGet: seq<Step>, beforeStatus: seq<Step>,
                         beforeChild: map<Phase, seq<Step>>, beforeDelete: seq<Step>, postLost: bool)

  predicate Surroundings(r: Round, me: Actor) {
    && Elsewhere(r.beforePost, me) && Elsewhere(r.beforeGet, me) && Elsewhere(r.beforeStatus, me)
    && EachElsewhere(r.beforeChild, me) && Elsewhere(r.beforeDelete, me)
  }

  predicate EachElsewhere(between: map<Phase, seq<Step>>, me: Actor) {
    forall p :: p in between ==> Elsewhere(between[p], me)
  }

  function Before(between: map<Phase, seq<Step>>, p: Phase): seq<Step> {
    if p in between then between[p] else []
  }

  class ProductionLease {
    const me: Actor
    var generation: Option<nat>
    var world: State
    ghost var trace: seq<Step>

    /** The world is where the protocol's steps so far have led. */
    ghost predicate Valid()
      reads this
    {
      me.Deployment? && world == Run(Initial, trace)
    }

    constructor (build: nat, s: State, ghost steps: seq<Step>)
      requires s == Run(Initial, steps)
      ensures Valid() && me == Deployment(build) && world == s && generation.None?
    {
      me, generation, world, trace := Deployment(build), None, s, steps;
    }

    method Take(step: Step)
      requires Valid()
      modifies this`world, this`trace
      ensures Valid() && world == Apply(old(world), step)
    {
      RunSnoc(Initial, trace, step);
      world := Apply(world, step);
      trace := trace + [step];
    }

    method Others(steps: seq<Step>)
      requires Valid() && Elsewhere(steps, me)
      modifies this`world, this`trace
      ensures Valid() && world == Run(old(world), steps) && world.At(me) == old(world).At(me)
    {
      RunConcat(Initial, trace, steps);
      OthersLeaveMe(world, steps, me);
      world := Run(world, steps);
      trace := trace + steps;
    }

    // ---- Requests ----

    method AwaitPost(before: seq<Step>)
      requires Valid() && world.At(me) == Posting && Elsewhere(before, me)
      modifies this`world, this`trace
      ensures Valid() && (world.At(me).Holding? || world.At(me) == Looking)
    {
      Others(before);
      PostKnown(trace, me);
      Take(DeliverPost(me, true));
    }

    method LosePost(before: seq<Step>)
      requires Valid() && world.At(me) == Posting && Elsewhere(before, me)
      modifies this`world, this`trace
      ensures Valid() && world.At(me) == Failed
    {
      Others(before);
      Take(DeliverPost(me, false));
      Take(Raise(me));
    }

    method ReadHolder(before: seq<Step>)
      requires Valid() && world.At(me) == Looking && Elsewhere(before, me)
      modifies this`world, this`trace
      ensures Valid() && (world.At(me) == Posting || world.At(me).Inspecting?)
    {
      Others(before);
      Take(Look(me));
    }

    method ReadStatus(before: seq<Step>)
      requires Valid() && world.At(me).Inspecting? && Elsewhere(before, me)
      modifies this`world, this`trace
      ensures Valid() && (world.At(me) == old(world).At(me)
                          || (world.At(me).Checking? && world.At(me).read == old(world).At(me).read))
    {
      Others(before);
      Take(SeeTerminal(me));
    }

    method WaitAgain()
      requires Valid() && (world.At(me).Inspecting? || world.At(me).Checking?)
      modifies this`world, this`trace
      ensures Valid() && world.At(me) == Posting
    {
      Take(Retry(me));
    }

    method DeleteHolder(before: seq<Step>, read: Lock)
      requires Valid() && world.At(me) == Checking(read, {}) && Elsewhere(before, me)
      modifies this`world, this`trace
      ensures Valid() && world.At(me) == Posting
    {
      Others(before);
      Take(SendDelete(me));
      Take(DeliverDelete(me, read.generation, read.metageneration, true));
    }

    // ---- Acquiring ----

    /** Waits for the lease, recovering a dead deployment's when its children are all seen settled. */
    method Acquire(rounds: seq<Round>) returns (acquired: bool)
      requires Valid() && generation.None? && world.At(me) == Idle
      requires forall i :: 0 <= i < |rounds| ==> Surroundings(rounds[i], me)
      modifies this
      ensures Valid() && (acquired <==> generation.Some?)
      ensures if acquired then world.At(me) == Holding(generation.value) else world.At(me) == Failed
      ensures acquired ==> Owns(world, me, generation.value)
      ensures forall g, m :: Delete(me, g, m) in world.sent ==> Justified(world, me, g, m)
    {
      Take(Start(me));
      for i := 0 to |rounds|
        invariant Valid() && generation.None? && world.At(me) == Posting
      {
        if rounds[i].postLost {
          LosePost(rounds[i].beforePost);
          RunKeepsDeletes(trace);
          return false;
        }
        AwaitPost(rounds[i].beforePost);
        if world.At(me).Holding? {
          generation := Some(world.At(me).generation);
          RunKeepsDeletes(trace);
          assert PcOk(world, me, world.pcs[me]);
          return true;
        }
        ReadHolder(rounds[i].beforeGet);
        if world.At(me).Inspecting? { Inspect(rounds[i]); }
      }
      Take(Raise(me));
      RunKeepsDeletes(trace);
      return false;
    }

    /** Looks at the holder and deletes its lease if that is allowed; otherwise waits for the next attempt. */
    method Inspect(r: Round)
      requires Valid() && world.At(me).Inspecting? && Surroundings(r, me)
      modifies this`world, this`trace
      ensures Valid() && world.At(me) == Posting
    {
      var read := world.At(me).read;
      if read.owner.Deployment? {
        ReadStatus(r.beforeStatus);
        if world.At(me).Checking? {
          var finished := SeeChildren(r.beforeChild, read);
          if finished {
            DeleteHolder(r.beforeDelete, read);
            return;
          }
        }
      }
      WaitAgain();
    }

    /** Reads every child in turn; stops at the first that is not finished. */
    method SeeChildren(between: map<Phase, seq<Step>>, read: Lock) returns (finished: bool)
      requires Valid() && world.At(me).Checking? && world.At(me).read == read && EachElsewhere(between, me)
      modifies this`world, this`trace
      ensures Valid() && world.At(me).Checking? && world.At(me).read == read
      ensures finished <==> world.At(me).remaining == {}
    {
      var remaining := world.At(me).remaining;
      while remaining != {}
        invariant Valid() && world.At(me) == Checking(read, remaining)
        decreases remaining
      {
        var p :| p in remaining;
        Others(Before(between, p));
        Take(SeeChild(me, p));
        if world.At(me).remaining == remaining { return false; }
        remaining := world.At(me).remaining;
      }
      return true;
    }

    // ---- Intents and mutations ----

    method ReadIntents(phase: Phase)
      requires Valid() && generation.Some? && world.At(me) == Holding(generation.value)
      modifies this`world, this`trace
      ensures Valid()
      ensures world.At(me) == Holding(generation.value)
           || (world.At(me).MarkRead? && world.At(me).phase == phase && world.At(me).read.generation == generation.value)
    {
      Take(BeginMark(me, phase));
    }

    /** The patch is sent and answered, with anything happening before and in between. */
    method PatchIntents(before: seq<Step>, inFlight: seq<Step>, read: Lock, phase: Phase)
      requires Valid() && world.At(me) == MarkRead(read, phase) && Elsewhere(before, me) && Elsewhere(inFlight, me)
      modifies this`world, this`trace
      ensures Valid() && (world.At(me) == Holding(read.generation) || world.At(me) == Marked(read.generation, phase))
    {
      Others(before);
      Take(SendMark(me));
      SentStays(world, inFlight, Patch(me, read, phase));
      Others(inFlight);
      Take(DeliverPatch(me, read, phase, true));
    }

    /** The patch is sent and its answer never comes: the client does not know and does not go on. */
    method LosePatch(before: seq<Step>, inFlight: seq<Step>, read: Lock, phase: Phase)
      requires Valid() && world.At(me) == MarkRead(read, phase) && Elsewhere(before, me) && Elsewhere(inFlight, me)
      modifies this`world, this`trace
      ensures Valid() && world.At(me) == Holding(read.generation)
    {
      Others(before);
      Take(SendMark(me));
      Others(inFlight);
      Take(AbandonMark(me));
    }

    /** Records the intent of a phase; only then may its mutation be issued, and it never was before. */
    method MarkIntent(phase: Phase, before: seq<Step>, inFlight: seq<Step>, lost: bool) returns (marked: bool)
      requires Valid() && generation.Some? && world.At(me) == Holding(generation.value)
      requires Elsewhere(before, me) && Elsewhere(inFlight, me)
      modifies this`world, this`trace
      ensures Valid() && (lost ==> !marked)
      ensures if marked then world.At(me) == Marked(generation.value, phase) else world.At(me) == Holding(generation.value)
      ensures marked ==> world.lock.Some? && world.lock.value.generation == generation.value
                         && world.lock.value.owner == me && phase in world.lock.value.intents
      ensures marked ==> (generation.value, phase) !in world.ops
    {
      ReadIntents(phase);
      if !world.At(me).MarkRead? { return false; }
      if lost {
        LosePatch(before, inFlight, world.At(me).read, phase);
        return false;
      }
      PatchIntents(before, inFlight, world.At(me).read, phase);
      marked := world.At(me).Marked?;
      if marked { MarkedFacts(trace, me); }
    }

    /** Issues the mutation whose intent is recorded: once, and under the client's own lock, whatever happened in between. */
    method IssueMutation(phase: Phase, before: seq<Step>)
      requires Valid() && generation.Some? && world.At(me) == Marked(generation.value, phase) && Elsewhere(before, me)
      modifies this`world, this`trace
      ensures Valid() && world.At(me) == Holding(generation.value) && Owns(world, me, generation.value)
      ensures phase in world.lock.value.intents && IssuedOnce(world, (generation.value, phase))
    {
      Others(before);
      MarkedFacts(trace, me);
      Take(Issue(me));
      LastIssued(trace);
    }

    // ---- Releasing ----

    method RetainLease()
      requires Valid() && (world.At(me).Holding? || world.At(me).ReleaseChecking?)
      modifies this`world, this`trace
      ensures Valid() && world == old(world).Move(me, Done)
    {
      Take(Retain(me));
    }

    method ReadOwnLease(before: seq<Step>)
      requires Valid() && world.At(me).Holding? && Elsewhere(before, me)
      modifies this`world, this`trace
      ensures Valid() && Held(world.At(me)) == Some(old(world).At(me).generation)
    {
      Others(before);
      Take(BeginRelease(me));
    }

    method SeeOwnChildren(between: map<Phase, seq<Step>>) returns (finished: bool)
      requires Valid() && world.At(me).ReleaseChecking? && EachElsewhere(between, me)
      modifies this`world, this`trace
      ensures Valid() && world.At(me).ReleaseChecking? && world.At(me).read == old(world).At(me).read
      ensures finished <==> world.At(me).remaining == {}
    {
      var read, remaining := world.At(me).read, world.At(me).remaining;
      while remaining != {}
        invariant Valid() && world.At(me) == ReleaseChecking(read, remaining)
        decreases remaining
      {
        var p :| p in remaining;
        Others(Before(between, p));
        Take(SeeOwnChild(me, p));
        if world.At(me).remaining == remaining { return false; }
        remaining := world.At(me).remaining;
      }
      return true;
    }

    method DeleteOwnLease(before: seq<Step>)
      requires Valid() && world.At(me).ReleaseChecking? && world.At(me).remaining == {} && Elsewhere(before, me)
      modifies this`world, this`trace
      ensures Valid() && world.At(me) == Done
      ensures var read := old(world).At(me).read;
              Delete(me, read.generation, read.metageneration) in world.sent && AllSettled(world, read.generation, read.intents)
    {
      var read := world.At(me).read;
      Others(before);
      CheckedIsSettled(trace, me);
      Take(SendRelease(me));
      Take(DeliverDelete(me, read.generation, read.metageneration, true));
    }

    /**
     Asks for its own lease to be deleted when every child has been seen finished, and then every recorded intent
     has indeed settled; otherwise retains it, and has never asked.
     */
    method Release(beforeGet: seq<Step>, between: map<Phase, seq<Step>>, beforeDelete: seq<Step>)
      requires Valid() && generation.Some? && world.At(me) == Holding(generation.value)
      requires Elsewhere(beforeGet, me) && EachElsewhere(between, me) && Elsewhere(beforeDelete, me)
      modifies this
      ensures Valid() && world.At(me) == Done && (generation.None? || generation == old(generation))
      ensures generation.None? ==>
                exists l: Lock :: l.generation == old(generation).value && AllSettled(world, l.generation, l.intents)
                                  && Delete(me, l.generation, l.metageneration) in world.sent
      ensures generation.Some? ==> forall m :: Delete(me, generation.value, m) !in world.sent
    {
      ReadOwnLease(beforeGet);
      var finished := false;
      if world.At(me).ReleaseChecking? { finished := SeeOwnChildren(between); }
      if finished {
        ghost var read := world.At(me).read;
        HolderHasNotAsked(trace, me);
        DeleteOwnLease(beforeDelete);
        assert read.generation == old(generation).value && Delete(me, read.generation, read.metageneration) in world.sent;
        generation := None;
      } else {
        HolderHasNotAsked(trace, me);
        RetainLease();
      }
    }
  }

  /** The generation an actor holds and has not begun to give up. */
  function Held(pc: Pc): Option<nat> {
    if pc.Holding? then Some(pc.generation)
    else if pc.ReleaseChecking? then Some(pc.read.generation)
    else None
  }

  /** Whoever still holds its lease owns the lock and has not asked for it to be deleted. */
  lemma {:induction false} HolderHasNotAsked(trace: seq<Step>, me: Actor)
    requires Held(Run(Initial, trace).At(me)).Some?
    ensures var s := Run(Initial, trace);
            var g := Held(s.At(me)).value;
            Owns(s, me, g) && forall m :: Delete(me, g, m) !in s.sent
  {
    RunKeepsDeletes(trace);
    assert PcOk(Run(Initial, trace), me, Run(Initial, trace).pcs[me]);
  }

  /** When every own child has been seen finished, every recorded intent has settled. */
  lemma {:induction false} CheckedIsSettled(trace: seq<Step>, me: Actor)
    requires me.Deployment? && Run(Initial, trace).At(me).ReleaseChecking? && Run(Initial, trace).At(me).remaining == {}
    ensures var s := Run(Initial, trace);
            AllSettled(s, s.At(me).read.generation, s.At(me).read.intents)
  {
    RunKeeps(Initial, trace);
    var s := Run(Initial, trace);
    assert PcOk(s, me, s.pcs[me]) && s.At(me).read.intents - {} == s.At(me).read.intents;
  }

  /** Requests once sent stay sent. */
  lemma {:induction false} SentStays(s: State, steps: seq<Step>, r: Request)
    ensures r in s.sent ==> r in Run(s, steps).sent
  {
    if |steps| > 0 { SentStays(s, steps[..|steps| - 1], r); }
  }

  /** A client past its first step has sent its create request. */
  lemma {:induction false} PostKnown(trace: seq<Step>, me: Actor)
    ensures Run(Initial, trace).At(me) != Idle ==> Post(me) in Run(Initial, trace).sent
  {
    if |trace| > 0 {
      PostKnown(trace[..|trace| - 1], me);
      PostStays(Run(Initial, trace[..|trace| - 1]), trace[|trace| - 1], me);
    }
  }

  lemma PostStays(s: State, step: Step, me: Actor)
    requires s.At(me) != Idle ==> Post(me) in s.sent
    ensures Apply(s, step).At(me) != Idle ==> Post(me) in Apply(s, step).sent
  {
  }

  /** A recorded intent is in the lock, which is the client's own, and its mutation was never issued. */
  lemma {:induction false} MarkedFacts(trace: seq<Step>, me: Actor)
    requires Run(Initial, trace).At(me).Marked?
    ensures var s := Run(Initial, trace);
            var pc := s.At(me);
            && Owns(s, me, pc.generation) && pc.phase in s.lock.value.intents && (pc.generation, pc.phase) !in s.ops
  {
    RunKeeps(Initial, trace);
    assert PcOk(Run(Initial, trace), me, Run(Initial, trace).pcs[me]);
  }

  /** The last of all mutations, and not issued before. */
  ghost predicate IssuedOnce(s: State, o: Op) {
    var n := |s.log|;
    n > 0 && s.log[n - 1] == o && forall i :: 0 <= i < n - 1 ==> s.log[i] != o
  }

  lemma {:induction false} LastIssued(trace: seq<Step>)
    requires |Run(Initial, trace).log| > 0
    ensures var s := Run(Initial, trace);
            IssuedOnce(s, s.log[|s.log| - 1])
  {
    RunKeeps(Initial, trace);
  }
}
