/**
 The image job queue (internal/content/webp_processor.go): the in-flight keys, the channel of 25 jobs, and the
 workers, with every call of Enqueue and every worker a thread of its own.
 */
module Processor {
  import opened Prelude
  import opened Keys

  const QUEUE_CAP := 25

  datatype Job = Job(path: string, id: string, width: int) {
    function Key(): string {
      FlightKey(id, width)
    }
  }

  /** The key a worker deletes when it is done: the variant's, as the code has it, or the one Enqueue stored. */
  datatype Release = AsWritten | Corrected {
    function Key(job: Job): string {
      match this
      case AsWritten => VariantKey(job.id, job.width)
      case Corrected => job.Key()
    }
  }

  datatype Call = Sending(job: Job) | Returned(ok: bool)

  datatype Worker = Idle | Working(job: Job) | Finished(job: Job)

  /** `sent` and `done` record the jobs that entered the queue and the keys of those that left a worker. */
  datatype State = State(
    inFlight: set<string>, queue: seq<Job>, calls: map<nat, Call>, workers: map<nat, Worker>,
    sent: seq<Job>, done: set<string>)
  {
    predicate IsSending(t: nat) {
      t in calls && calls[t].Sending?
    }

    function Worker(w: nat): Worker {
      if w in workers then workers[w] else Idle
    }
  }

  const INITIAL := State({}, [], map[], map[], [], {})

  datatype Event =
    | Store(t: nat, job: Job)
    | Send(t: nat)
    | Refuse(t: nat)
    | Expire(t: nat)
    | Take(w: nat)
    | Finish(w: nat)
    | Release(w: nat)

  /** The default branch of the select is taken only when the channel is full; an expired context may win any race. */
  predicate Enabled(s: State, e: Event) {
    match e
    case Store(t, _) => t !in s.calls
    case Send(t) => s.IsSending(t) && |s.queue| < QUEUE_CAP
    case Refuse(t) => s.IsSending(t) && |s.queue| == QUEUE_CAP
    case Expire(t) => s.IsSending(t)
    case Take(w) => s.Worker(w).Idle? && s.queue != []
    case Finish(w) => s.Worker(w).Working?
    case Release(w) => s.Worker(w).Finished?
  }

  function Step(release: Release, s: State, e: Event): State
    requires Enabled(s, e)
  {
    match e
    case Store(t, job) =>
      if job.Key() in s.inFlight then s.(calls := s.calls[t := Returned(true)])
      else s.(inFlight := s.inFlight + {job.Key()}, calls := s.calls[t := Sending(job)])
    case Send(t) =>
      var job := s.calls[t].job;
      s.(queue := s.queue + [job], calls := s.calls[t := Returned(true)], sent := s.sent + [job])
    case Refuse(t) => GiveUp(s, t)
    case Expire(t) => GiveUp(s, t)
    case Take(w) => s.(queue := s.queue[1..], workers := s.workers[w := Working(s.queue[0])])
    case Finish(w) => s.(workers := s.workers[w := Finished(s.Worker(w).job)])
    case Release(w) =>
      var job := s.Worker(w).job;
      s.(inFlight := s.inFlight - {release.Key(job)}, workers := s.workers[w := Idle], done := s.done + {job.Key()})
  }

  function GiveUp(s: State, t: nat): State
    requires s.IsSending(t)
  {
    s.(inFlight := s.inFlight - {s.calls[t].job.Key()}, calls := s.calls[t := Returned(false)])
  }

  ghost predicate IsRun(release: Release, states: seq<State>, events: seq<Event>) {
    && |states| == |events| + 1
    && states[0] == INITIAL
    && forall i :: 0 <= i < |events| ==>
         Enabled(states[i], events[i]) && states[i + 1] == Step(release, states[i], events[i])
  }

  // ---- where the jobs are ----

  datatype Place = Calling(t: nat) | Queued(i: nat) | Running(w: nat)

  /** The job at a place, if there is one: about to be sent, queued, or with a worker. */
  function JobAt(s: State, place: Place): Option<Job> {
    match place
    case Calling(t) => if s.IsSending(t) then Some(s.calls[t].job) else None
    case Queued(i) => if i < |s.queue| then Some(s.queue[i]) else None
    case Running(w) => if s.Worker(w).Idle? then None else Some(s.Worker(w).job)
  }

  ghost predicate HasKey(s: State, place: Place, key: string) {
    JobAt(s, place).Some? && JobAt(s, place).value.Key() == key
  }

  ghost predicate Active(s: State, key: string) {
    exists place :: HasKey(s, place, key)
  }

  /** No two jobs for one image and width, and each marked as in flight. */
  ghost predicate NoDuplicates(s: State) {
    && (forall place, key :: HasKey(s, place, key) ==> key in s.inFlight)
    && (forall p, q, key :: HasKey(s, p, key) && HasKey(s, q, key) ==> p == q)
  }

  ghost predicate Inv(s: State) {
    |s.queue| <= QUEUE_CAP && NoDuplicates(s)
  }

  /** Where the job at a place was before the step. */
  function Before(s: State, e: Event, place: Place): Place
    requires Enabled(s, e)
  {
    match e
    case Send(t) => if place == Queued(|s.queue|) then Calling(t) else place
    case Take(w) =>
      if place == Running(w) then Queued(0)
      else if place.Queued? then Queued(place.i + 1)
      else place
    case _ => place
  }

  /** A step moves jobs, and removes one, but makes none: except for a call's own new job. */
  lemma StepMoves(release: Release, s: State, e: Event, place: Place)
    requires Enabled(s, e)
    ensures var after := JobAt(Step(release, s, e), place);
      after.Some? ==>
        after == JobAt(s, Before(s, e, place)) ||
        (e.Store? && place == Calling(e.t) && after == Some(e.job) && e.job.Key() !in s.inFlight)
  {
  }

  /** Before undoes the step at one place only. */
  lemma BeforeInjective(release: Release, s: State, e: Event, p: Place, q: Place)
    requires Enabled(s, e) && Before(s, e, p) == Before(s, e, q)
    requires JobAt(Step(release, s, e), p).Some? && JobAt(Step(release, s, e), q).Some?
    ensures p == q
  {
  }

  /** A step takes no key out of flight that a job still holds. */
  lemma KeptStaysInFlight(release: Release, s: State, e: Event, place: Place, key: string)
    requires Inv(s) && Enabled(s, e) && HasKey(Step(release, s, e), place, key)
    ensures key in Step(release, s, e).inFlight
  {
    StepMoves(release, s, e, place);
    if !(e.Store? && place == Calling(e.t)) {
      assert HasKey(s, Before(s, e, place), key);
    }
    match e
    case Refuse(t) => assert HasKey(s, Calling(t), s.calls[t].job.Key());
    case Expire(t) => assert HasKey(s, Calling(t), s.calls[t].job.Key());
    case Release(w) =>
      var job := s.Worker(w).job;
      assert HasKey(s, Running(w), job.Key());
      var held := JobAt(Step(release, s, e), place).value;
      ReleaseMissesFlight(job.id, job.width, held.id, held.width);
    case _ =>
  }

  /** A key after the step was there before it, or is the new job's and was not in flight. */
  lemma KeyFromBefore(release: Release, s: State, e: Event, place: Place, key: string)
    requires Inv(s) && Enabled(s, e) && HasKey(Step(release, s, e), place, key)
    ensures if key in s.inFlight then HasKey(s, Before(s, e, place), key) else e.Store? && place == Calling(e.t)
  {
    StepMoves(release, s, e, place);
    assert JobAt(Step(release, s, e), place) == JobAt(s, Before(s, e, place)) ==> HasKey(s, Before(s, e, place), key);
  }

  lemma StepKeepsInv(release: Release, s: State, e: Event)
    requires Inv(s) && Enabled(s, e)
    ensures Inv(Step(release, s, e))
  {
    var after := Step(release, s, e);
    forall place, key | HasKey(after, place, key) ensures key in after.inFlight {
      KeptStaysInFlight(release, s, e, place, key);
    }
    forall p, q, key | HasKey(after, p, key) && HasKey(after, q, key) ensures p == q {
      KeyFromBefore(release, s, e, p, key);
      KeyFromBefore(release, s, e, q, key);
      if key in s.inFlight {
        BeforeInjective(release, s, e, p, q);
      }
    }
  }

  /**
   In every interleaving, whichever key the workers release: no image and width has two jobs, the queue never holds
   more than 25, and the keys of all jobs are in flight.
   */
  lemma {:induction false} RunKeepsInv(release: Release, states: seq<State>, events: seq<Event>, i: nat)
    requires IsRun(release, states, events) && i < |states|
    ensures |states[i].queue| <= 25 && NoDuplicates(states[i])
  {
    if i > 0 {
      RunKeepsInv(release, states, events, i - 1);
      StepKeepsInv(release, states[i - 1], events[i - 1]);
    }
  }

  /** What waits is what was sent last, in that order. */
  ghost predicate IsLatest(s: State) {
    |s.queue| <= |s.sent| && s.queue == s.sent[|s.sent| - |s.queue|..]
  }

  lemma StepKeepsLatest(release: Release, s: State, e: Event)
    requires IsLatest(s) && Enabled(s, e)
    ensures IsLatest(Step(release, s, e))
    ensures e.Take? ==> Step(release, s, e).Worker(e.w) == Working(s.sent[|s.sent| - |s.queue|])
  {
    var from := |s.sent| - |s.queue|;
    if e.Send? {
      var job := s.calls[e.t].job;
      assert (s.sent + [job])[from..] == s.sent[from..] + [job];
    } else if e.Take? {
      assert s.sent[from..][1..] == s.sent[from + 1..];
    }
  }

  /** The channel is first in, first out: of what waits, a worker takes what was sent first. */
  lemma {:induction false} FirstInFirstOut(release: Release, states: seq<State>, events: seq<Event>, i: nat)
    requires IsRun(release, states, events) && i < |states|
    ensures IsLatest(states[i])
    ensures i < |events| && events[i].Take? ==>
      states[i + 1].Worker(events[i].w) == Working(states[i].sent[|states[i].sent| - |states[i].queue|])
  {
    if i > 0 {
      FirstInFirstOut(release, states, events, i - 1);
      StepKeepsLatest(release, states[i - 1], events[i - 1]);
    }
    if i < |events| { StepKeepsLatest(release, states[i], events[i]); }
  }

  /**
   An Enqueue that returns an error leaves no key and no job behind; one that returns nil has a job under way, or had.
   */
  lemma EnqueueOutcome(release: Release, states: seq<State>, events: seq<Event>, i: nat, t: nat, ok: bool)
    requires IsRun(release, states, events) && i < |events|
    requires t in states[i + 1].calls && states[i + 1].calls[t] == Returned(ok)
    requires t in states[i].calls ==> states[i].calls[t] != Returned(ok)
    ensures t in states[i].calls ==> states[i].calls[t].Sending?
    ensures !ok ==> states[i].IsSending(t) && var key := states[i].calls[t].job.Key();
      key !in states[i + 1].inFlight && !Active(states[i + 1], key) && states[i + 1].queue == states[i].queue
    ensures ok && events[i].Store? ==>
      events[i].job.Key() in states[i].inFlight && states[i + 1].queue == states[i].queue
    ensures ok && events[i].Send? ==> states[i + 1].queue == states[i].queue + [states[i].calls[t].job]
  {
    RunKeepsInv(release, states, events, i + 1);
  }

  // ---- what stays in flight ----

  /** With the corrected key: exactly the keys of the jobs under way. */
  ghost predicate Exact(s: State) {
    forall key :: key in s.inFlight <==> Active(s, key)
  }

  ghost predicate IsFlightKey(key: string) {
    exists id, width :: key == FlightKey(id, width)
  }

  /** With the key as written: those, and the keys of all jobs ever finished. */
  ghost predicate Leaky(s: State) {
    && (forall key :: key in s.inFlight <==> Active(s, key) || key in s.done)
    && (forall key :: key in s.done ==> !Active(s, key) && IsFlightKey(key))
  }

  ghost predicate WasSent(s: State, key: string) {
    exists i :: 0 <= i < |s.sent| && s.sent[i].Key() == key
  }

  /** With the key as written, what has been sent stays in flight, and is not sent again. */
  ghost predicate SentOnce(s: State) {
    && (forall key :: WasSent(s, key) ==> key in s.inFlight)
    && (forall t :: s.IsSending(t) ==> !WasSent(s, s.calls[t].job.Key()))
    && (forall i, j :: 0 <= i < j < |s.sent| ==> s.sent[i].Key() != s.sent[j].Key())
  }

  /** Where the job at a place is after the step, unless the step ends it. */
  function After(s: State, e: Event, place: Place): Place
    requires Enabled(s, e)
  {
    match e
    case Send(t) => if place == Calling(t) then Queued(|s.queue|) else place
    case Take(w) =>
      if place == Queued(0) then Running(w)
      else if place.Queued? then Queued(place.i - 1)
      else place
    case _ => place
  }

  predicate Ends(e: Event, place: Place) {
    match e
    case Refuse(t) => place == Calling(t)
    case Expire(t) => place == Calling(t)
    case Release(w) => place == Running(w)
    case _ => false
  }

  lemma StepKeeps(release: Release, s: State, e: Event, place: Place, key: string)
    requires Enabled(s, e) && HasKey(s, place, key) && !Ends(e, place)
    ensures HasKey(Step(release, s, e), After(s, e, place), key)
  {
  }

  /** Which keys are active after a step. */
  lemma ActiveAfter(release: Release, s: State, e: Event, key: string)
    requires Inv(s) && Enabled(s, e)
    ensures Active(Step(release, s, e), key) <==>
      match e
      case Store(_, job) => Active(s, key) || (key == job.Key() && key !in s.inFlight)
      case Refuse(t) => Active(s, key) && key != s.calls[t].job.Key()
      case Expire(t) => Active(s, key) && key != s.calls[t].job.Key()
      case Release(w) => Active(s, key) && key != s.Worker(w).job.Key()
      case _ => Active(s, key)
  {
    var after := Step(release, s, e);
    StepKeepsInv(release, s, e);
    if Active(after, key) {
      var place :| HasKey(after, place, key);
      StepMoves(release, s, e, place);
      if JobAt(after, place) == JobAt(s, Before(s, e, place)) {
        assert HasKey(s, Before(s, e, place), key);
        EndedIsElsewhere(release, s, e, place, key);
      }
    }
    if Active(s, key) {
      var place :| HasKey(s, place, key);
      if !Ends(e, place) { StepKeeps(release, s, e, place, key); }
    }
    if e.Store? && key == e.job.Key() && key !in s.inFlight {
      assert HasKey(after, Calling(e.t), key);
    }
  }

  /** The job a step takes away had its key to itself. */
  lemma EndedIsElsewhere(release: Release, s: State, e: Event, place: Place, key: string)
    requires Inv(s) && Enabled(s, e) && HasKey(Step(release, s, e), place, key) && HasKey(s, Before(s, e, place), key)
    ensures match e
      case Refuse(t) => key != s.calls[t].job.Key()
      case Expire(t) => key != s.calls[t].job.Key()
      case Release(w) => key != s.Worker(w).job.Key()
      case _ => true
  {
    match e
    case Refuse(t) => assert HasKey(s, Calling(t), s.calls[t].job.Key());
    case Expire(t) => assert HasKey(s, Calling(t), s.calls[t].job.Key());
    case Release(w) => assert HasKey(s, Running(w), s.Worker(w).job.Key());
    case _ =>
  }

  lemma StepKeepsExact(s: State, e: Event)
    requires Inv(s) && Exact(s) && Enabled(s, e)
    ensures Exact(Step(Corrected, s, e))
  {
    var after := Step(Corrected, s, e);
    forall key ensures key in after.inFlight <==> Active(after, key) {
      ActiveAfter(Corrected, s, e, key);
    }
  }

  lemma StepKeepsLeaky(s: State, e: Event)
    requires Inv(s) && Leaky(s) && Enabled(s, e)
    ensures Leaky(Step(AsWritten, s, e))
  {
    var after := Step(AsWritten, s, e);
    EndedWasActive(s, e);
    forall key ensures key in after.inFlight <==> Active(after, key) || key in after.done
      ensures key in after.done ==> !Active(after, key)
    {
      ActiveAfter(AsWritten, s, e, key);
      LeakyInFlight(s, e, key);
    }
  }

  /** The job that a step takes away was under way. */
  lemma EndedWasActive(s: State, e: Event)
    requires Enabled(s, e)
    ensures e.Refuse? || e.Expire? ==> Active(s, s.calls[e.t].job.Key())
    ensures e.Release? ==> Active(s, s.Worker(e.w).job.Key()) && IsFlightKey(s.Worker(e.w).job.Key())
  {
    match e
    case Refuse(t) => assert HasKey(s, Calling(t), s.calls[t].job.Key());
    case Expire(t) => assert HasKey(s, Calling(t), s.calls[t].job.Key());
    case Release(w) => assert HasKey(s, Running(w), s.Worker(w).job.Key());
    case _ =>
  }

  /** The worker's delete removes nothing: no in-flight key has the form it deletes. */
  lemma LeakyInFlight(s: State, e: Event, key: string)
    requires Inv(s) && Leaky(s) && Enabled(s, e)
    ensures key in Step(AsWritten, s, e).inFlight <==>
      match e
      case Store(_, job) => key in s.inFlight || key == job.Key()
      case Refuse(t) => key in s.inFlight && key != s.calls[t].job.Key()
      case Expire(t) => key in s.inFlight && key != s.calls[t].job.Key()
      case _ => key in s.inFlight
  {
    if e.Release? && key in s.inFlight {
      var job := s.Worker(e.w).job;
      assert IsFlightKey(key) by {
        if Active(s, key) {
          var place :| HasKey(s, place, key);
          assert key == FlightKey(JobAt(s, place).value.id, JobAt(s, place).value.width);
        }
      }
      var id, width :| key == FlightKey(id, width);
      ReleaseMissesFlight(job.id, job.width, id, width);
    }
  }

  lemma WasSentStep(s: State, e: Event, key: string)
    requires Enabled(s, e)
    ensures WasSent(Step(AsWritten, s, e), key) <==> WasSent(s, key) || (e.Send? && key == s.calls[e.t].job.Key())
  {
    var after := Step(AsWritten, s, e);
    if WasSent(s, key) {
      var i :| 0 <= i < |s.sent| && s.sent[i].Key() == key;
      assert after.sent[i] == s.sent[i];
    }
    if e.Send? { assert after.sent[|s.sent|] == s.calls[e.t].job; }
  }

  lemma StepKeepsSentOnce(s: State, e: Event)
    requires Inv(s) && Leaky(s) && SentOnce(s) && Enabled(s, e)
    ensures SentOnce(Step(AsWritten, s, e))
  {
    var after := Step(AsWritten, s, e);
    if e.Send? { assert HasKey(s, Calling(e.t), s.calls[e.t].job.Key()); }
    forall key | WasSent(after, key) ensures key in after.inFlight {
      WasSentStep(s, e, key);
      LeakyInFlight(s, e, key);
    }
    forall t | after.IsSending(t) ensures !WasSent(after, after.calls[t].job.Key()) {
      var key := after.calls[t].job.Key();
      WasSentStep(s, e, key);
      if s.IsSending(t) {
        assert HasKey(s, Calling(t), key);
      }
    }
    if e.Send? {
      forall i | 0 <= i < |s.sent| ensures s.sent[i].Key() != s.calls[e.t].job.Key() {
        assert WasSent(s, s.sent[i].Key());
      }
    }
  }

  lemma {:induction false} CorrectedIsExact(states: seq<State>, events: seq<Event>, i: nat)
    requires IsRun(Corrected, states, events) && i < |states|
    ensures Exact(states[i])
  {
    if i > 0 {
      CorrectedIsExact(states, events, i - 1);
      RunKeepsInv(Corrected, states, events, i - 1);
      StepKeepsExact(states[i - 1], events[i - 1]);
    }
  }

  lemma {:induction false} WrittenIsLeaky(states: seq<State>, events: seq<Event>, i: nat)
    requires IsRun(AsWritten, states, events) && i < |states|
    ensures Leaky(states[i]) && SentOnce(states[i])
  {
    if i > 0 {
      WrittenIsLeaky(states, events, i - 1);
      RunKeepsInv(AsWritten, states, events, i - 1);
      StepKeepsLeaky(states[i - 1], events[i - 1]);
      StepKeepsSentOnce(states[i - 1], events[i - 1]);
    }
  }

  /**
   The keys in flight are exactly those of the jobs under way: always, if the worker released the key Enqueue
   stored; with the key as written, if and only if no job has ever finished.
   */
  lemma ExactIff(release: Release, states: seq<State>, events: seq<Event>, i: nat)
    requires IsRun(release, states, events) && i < |states|
    ensures Exact(states[i]) <==> release == Corrected || states[i].done == {}
  {
    if release == Corrected {
      CorrectedIsExact(states, events, i);
    } else {
      WrittenIsLeaky(states, events, i);
      if states[i].done != {} {
        var key :| key in states[i].done;
        assert key in states[i].inFlight && !Active(states[i], key);
      }
    }
  }

  ghost predicate IsIdle(s: State) {
    s.queue == [] && (forall t :: !s.IsSending(t)) && forall w :: s.Worker(w).Idle?
  }

  /** Once idle: nothing is left in flight, or the key of every job that was ever finished is. */
  lemma IdleInFlight(release: Release, states: seq<State>, events: seq<Event>, i: nat)
    requires IsRun(release, states, events) && i < |states| && IsIdle(states[i])
    ensures states[i].inFlight == if release == Corrected then {} else states[i].done
  {
    var s := states[i];
    forall place ensures JobAt(s, place).None? {
      match place
      case Queued(i) =>
      case _ =>
    }
    assert forall key :: !Active(s, key);
    if release == Corrected { CorrectedIsExact(states, events, i); } else { WrittenIsLeaky(states, events, i); }
  }

  /**
   With the key as written, an image and width are sent to the queue once in the life of the process: after a job
   has finished, failed or not, every later Enqueue for it returns nil and does nothing.
   */
  lemma NeverSentAgain(states: seq<State>, events: seq<Event>, i: nat, j: nat, key: string)
    requires IsRun(AsWritten, states, events) && i <= j < |states| && key in states[i].done
    ensures key in states[j].done && !Active(states[j], key) && SentOnce(states[j])
    ensures forall t, job: Job | job.Key() == key && t !in states[j].calls :: Ignores(states[j], t, job)
  {
    DoneStays(AsWritten, states, events, i, j, key);
    WrittenIsLeaky(states, events, j);
  }

  ghost predicate Ignores(s: State, t: nat, job: Job)
    requires t !in s.calls
  {
    Step(AsWritten, s, Store(t, job)) == s.(calls := s.calls[t := Returned(true)])
  }

  lemma {:induction false} DoneStays(
      release: Release, states: seq<State>, events: seq<Event>, i: nat, j: nat, key: string)
    requires IsRun(release, states, events) && i <= j < |states| && key in states[i].done
    ensures key in states[j].done
  {
    if i < j { DoneStays(release, states, events, i, j - 1, key); }
  }

  // ---- the calls as code ----

  class Processor {
    var inFlight: set<string>
    var jobs: seq<Job>

    constructor ()
      ensures inFlight == {} && jobs == []
    {
      inFlight := {};
      jobs := [];
    }

    /** A call that nobody interrupts; `expired` says that the select chose the caller's expired context. */
    method Enqueue(job: Job, expired: bool) returns (ok: bool)
      requires |jobs| <= QUEUE_CAP
      modifies this
      ensures |jobs| <= QUEUE_CAP
      ensures ok <==> job.Key() in old(inFlight) || (!expired && |old(jobs)| < QUEUE_CAP)
      ensures jobs == old(jobs) + if ok && job.Key() !in old(inFlight) then [job] else []
      ensures inFlight == old(inFlight) + if ok then {job.Key()} else {}
    {
      var key := FlightKey(job.id, job.width);
      if key in inFlight {
        return true;
      }
      inFlight := inFlight + {key};
      if expired {
        inFlight := inFlight - {key};
        return false;
      }
      if |jobs| < QUEUE_CAP {
        jobs := jobs + [job];
        return true;
      }
      inFlight := inFlight - {key};
      return false;
    }

    method Receive() returns (job: Option<Job>)
      modifies `jobs
      ensures job.None? <==> old(jobs) == []
      ensures job.Some? ==> [job.value] + jobs == old(jobs)
      ensures job.None? ==> jobs == old(jobs)
    {
      if jobs == [] {
        return None;
      }
      job := Some(jobs[0]);
      jobs := jobs[1..];
    }

    method Release(job: Job)
      modifies `inFlight
      ensures inFlight == old(inFlight) - {AsWritten.Key(job)}
    {
      var key := VariantKey(job.id, job.width);
      inFlight := inFlight - {key};
    }
  }

  /** The run of one job from its call to its end, with the key as written: its key stays in flight. */
  lemma FinishedJobStays(job: Job) returns (states: seq<State>, events: seq<Event>)
    ensures IsRun(AsWritten, states, events)
    ensures var last := states[|states| - 1]; last.done != {} && job.Key() in last.inFlight && !Exact(last)
  {
    var s1 := Step(AsWritten, INITIAL, Store(0, job));
    var s2 := Step(AsWritten, s1, Send(0));
    var s3 := Step(AsWritten, s2, Take(0));
    var s4 := Step(AsWritten, s3, Finish(0));
    var s5 := Step(AsWritten, s4, Event.Release(0));
    states, events := [INITIAL, s1, s2, s3, s4, s5], [Store(0, job), Send(0), Take(0), Finish(0), Event.Release(0)];
    assert s5.done == {job.Key()};
    assert IsRun(AsWritten, states, events);
    ExactIff(AsWritten, states, events, 5);
    WrittenIsLeaky(states, events, 5);
  }
}
