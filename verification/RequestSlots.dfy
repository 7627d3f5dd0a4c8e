/** The slots that space out HTTP requests (src/api/request_handler.py, `_wait_for_request_slot`), as
    a protocol of threads that interleave freely. */
module RequestSlots {
  import opened Common

  type Thread = nat

  /** Where a thread stands: outside, with the lock, having computed its wait, asleep until some time,
      free to take the slot, or with the slot but still holding the lock. */
  datatype Phase = Outside | Locked | Decided(wait: real) | Asleep(until: real) | Ready | Granted

  /** The monotonic clock, the shared fields and, for the record, the times of the granted slots. */
  datatype System = System(clock: real, holder: Option<Thread>, last: Option<real>, phases: map<Thread, Phase>,
                           grants: seq<real>)

  datatype Step =
    | Wait(time: real)
    | Acquire(thread: Thread)
    | ReadClock(thread: Thread)
    | Sleep(thread: Thread)
    | Wake(thread: Thread)
    | Grant(thread: Thread)
    | Release(thread: Thread)

  function Initial(clock: real): System {
    System(clock, None, None, map[], [])
  }

  function PhaseOf(s: System, t: Thread): Phase {
    if t in s.phases then s.phases[t] else Outside
  }

  function Moved(s: System, t: Thread, p: Phase): System {
    s.(phases := s.phases[t := p])
  }

  /** One atomic step, or none when the thread cannot take it. Only the lock keeps two threads from
      being inside together, and a sleep lasts at least as long as asked. */
  function Next(interval: real, s: System, step: Step): Option<System> {
    match step
    case Wait(time) =>
      if time >= 0.0 then Some(s.(clock := s.clock + time)) else None
    case Acquire(t) =>
      if PhaseOf(s, t).Outside? && s.holder.None? then Some(Moved(s.(holder := Some(t)), t, Locked)) else None
    case ReadClock(t) =>
      if PhaseOf(s, t).Locked? then
        Some(Moved(s, t, if s.last.None? then Ready else Decided(interval - (s.clock - s.last.value))))
      else None
    case Sleep(t) =>
      var p := PhaseOf(s, t);
      if p.Decided? then Some(Moved(s, t, if p.wait > 0.0 then Asleep(s.clock + p.wait) else Ready)) else None
    case Wake(t) =>
      var p := PhaseOf(s, t);
      if p.Asleep? && s.clock >= p.until then Some(Moved(s, t, Ready)) else None
    case Grant(t) =>
      if PhaseOf(s, t).Ready? then Some(Moved(s.(last := Some(s.clock), grants := s.grants + [s.clock]), t, Granted))
        else None
    case Release(t) =>
      if PhaseOf(s, t).Granted? then Some(Moved(s.(holder := None), t, Outside)) else None
  }

  /** The state after the steps, when every one of them can be taken. */
  function Run(interval: real, s: System, steps: seq<Step>): Option<System> {
    if steps == [] then Some(s)
    else
      var before := Run(interval, s, steps[..|steps| - 1]);
      if before.None? then None else Next(interval, before.value, steps[|steps| - 1])
  }

  /** How early the thread can still take its slot. */
  ghost predicate NotTooEarly(interval: real, s: System, p: Phase) {
    match p
    case Decided(wait) => s.last.Some? ==> s.last.value + interval <= s.clock + wait
    case Asleep(until) => s.last.Some? ==> s.last.value + interval <= until
    case Ready => s.last.Some? ==> s.last.value + interval <= s.clock
    case _ => true
  }

  /** Only the holder of the lock is inside, it cannot be granted too early a slot, and the slots so
      far are far enough apart. */
  ghost predicate Sound(interval: real, s: System) {
    && (forall t :: t in s.phases && !s.phases[t].Outside? ==> s.holder == Some(t))
    && (s.holder.Some? ==> !PhaseOf(s, s.holder.value).Outside? && NotTooEarly(interval, s, PhaseOf(s, s.holder.value)))
    && (s.last.None? <==> s.grants == [])
    && (s.last.Some? ==> s.last.value == s.grants[|s.grants| - 1] <= s.clock)
    && Spaced(interval, s.grants)
  }

  ghost predicate Spaced(interval: real, grants: seq<real>) {
    forall i :: 0 < i < |grants| ==> grants[i - 1] + interval <= grants[i]
  }

  lemma StepKeepsSound(interval: real, s: System, step: Step)
    requires Sound(interval, s) && Next(interval, s, step).Some?
    ensures Sound(interval, Next(interval, s, step).value)
  {}

  lemma {:induction false} RunKeepsSound(interval: real, clock: real, steps: seq<Step>)
    requires Run(interval, Initial(clock), steps).Some?
    ensures Sound(interval, Run(interval, Initial(clock), steps).value)
  {
    if steps != [] {
      RunKeepsSound(interval, clock, steps[..|steps| - 1]);
      StepKeepsSound(interval, Run(interval, Initial(clock), steps[..|steps| - 1]).value, steps[|steps| - 1]);
    }
  }

  /** Under every interleaving, granted slots are at least the interval apart, at most one thread is
      between taking and releasing the lock, and it is the one on record as the holder. */
  lemma {:induction false} SlotsAreSpaced(interval: real, clock: real, steps: seq<Step>, t: Thread, u: Thread)
    requires Run(interval, Initial(clock), steps).Some?
    ensures
      var s := Run(interval, Initial(clock), steps).value;
      && Spaced(interval, s.grants)
      && (!PhaseOf(s, t).Outside? && !PhaseOf(s, u).Outside? ==> t == u)
  {
    RunKeepsSound(interval, clock, steps);
  }

  /** A thread that holds the lock waits no longer than it has to: reading the clock and going to sleep at once, it is
      free from the end of the interval after the last slot, and at once when that has passed or there was no slot. */
  lemma WaitIsExact(interval: real, s: System, t: Thread)
    requires PhaseOf(s, t).Locked?
    ensures
      var read := Next(interval, s, ReadClock(t));
      && read.Some? && read.value.clock == s.clock
      && match s.last
         case None => PhaseOf(read.value, t) == Ready
         case Some(last) =>
           var asleep := Next(interval, read.value, Sleep(t));
           && asleep.Some?
           && PhaseOf(asleep.value, t) == if s.clock < last + interval then Asleep(last + interval) else Ready
  {}

  /** A slot is granted at the time of the clock, after all earlier ones, and is the last one from then on. */
  lemma GrantIsRecorded(interval: real, s: System, t: Thread)
    requires PhaseOf(s, t).Ready?
    ensures
      var after := Next(interval, s, Grant(t));
      && after.Some? && after.value.grants == s.grants + [s.clock] && after.value.last == Some(s.clock)
      && after.value.holder == s.holder
  {}

  lemma {:induction false} SpacedIsDistant(interval: real, grants: seq<real>, i: nat, j: nat)
    requires Spaced(interval, grants) && i <= j < |grants|
    ensures grants[i] + (j - i) as real * interval <= grants[j]
  {
    if i < j {
      SpacedIsDistant(interval, grants, i, j - 1);
      assert (j - i) as real * interval == (j - 1 - i) as real * interval + interval;
      assert grants[j - 1] + interval <= grants[j];
    }
  }

  /** So any two slots are apart by the interval for every slot between them. */
  lemma DistantSlots(interval: real, clock: real, steps: seq<Step>, i: nat, j: nat)
    requires Run(interval, Initial(clock), steps).Some?
    requires i <= j < |Run(interval, Initial(clock), steps).value.grants|
    ensures
      var grants := Run(interval, Initial(clock), steps).value.grants;
      grants[i] + (j - i) as real * interval <= grants[j]
  {
    RunKeepsSound(interval, clock, steps);
    SpacedIsDistant(interval, Run(interval, Initial(clock), steps).value.grants, i, j);
  }

  /** No deadlock: while the clock runs, the holder of the lock can always go on to release it. */
  lemma HolderCanProceed(interval: real, s: System) returns (steps: seq<Step>)
    requires Sound(interval, s) && s.holder.Some?
    ensures Run(interval, s, steps).Some? && Run(interval, s, steps).value.holder.None?
  {
    steps := StepsToRelease(interval, s, s.holder.value);
  }

  lemma OneStep(interval: real, s: System, step: Step, rest: seq<Step>)
    requires Next(interval, s, step).Some? && Run(interval, Next(interval, s, step).value, rest).Some?
    ensures Run(interval, s, [step] + rest) == Run(interval, Next(interval, s, step).value, rest)
    decreases |rest|
  {
    if rest == [] {
      assert ([step] + rest)[..0] == [];
      assert Run(interval, s, []) == Some(s);
    } else {
      var n := |rest| - 1;
      assert ([step] + rest)[..|rest|] == [step] + rest[..n];
      OneStep(interval, s, step, rest[..n]);
    }
  }

  lemma StepsToRelease(interval: real, s: System, t: Thread) returns (steps: seq<Step>)
    requires !PhaseOf(s, t).Outside?
    ensures Run(interval, s, steps).Some? && Run(interval, s, steps).value.holder.None?
    decreases match PhaseOf(s, t) { case Outside => 0 case Granted => 1 case Ready => 2 case Asleep(_) => 3
      case Decided(_) => 4 case Locked => 5 }
  {
    var p := PhaseOf(s, t);
    var step :=
      match p
      case Granted => Release(t)
      case Ready => Grant(t)
      case Asleep(_) => Wake(t)
      case Decided(_) => Sleep(t)
      case _ => ReadClock(t);
    if p.Asleep? && s.clock < p.until {
      var later := s.(clock := p.until);
      var pause := Wait(p.until - s.clock);
      assert Next(interval, s, pause) == Some(later);
      var rest := StepsToRelease(interval, Moved(later, t, Ready), t);
      OneStep(interval, later, step, rest);
      OneStep(interval, s, pause, [step] + rest);
      steps := [pause] + ([step] + rest);
    } else if p.Granted? {
      assert Run(interval, Next(interval, s, step).value, []).Some?;
      OneStep(interval, s, step, []);
      steps := [step] + [];
    } else {
      var rest := StepsToRelease(interval, Next(interval, s, step).value, t);
      OneStep(interval, s, step, rest);
      steps := [step] + rest;
    }
  }
}
