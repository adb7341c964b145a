/**
 The lazily filled post cache (internal/content/disk_loader.go): double-checked locking over a read-write lock,
 for any number of calls of GetContent on one post.
 */
module PostCache {
  import opened Prelude

  const MAX_FILE_SIZE := 10 * 1024 * 1024

  /** Rendered bytes; None is the nil slice, which is also what rendering an empty source gives. */
  type Content = Option<string>

  /** The front-matter parser (None where it fails) and the Markdown renderer. */
  datatype Formats = Formats(body: string -> Option<string>, render: string -> Result<Content>)

  /** What the disk answers to one load. */
  datatype Disk = NoFile | NoStats | File(size: int, bytes: Result<string>)

  datatype Answer = Success(content: Content) | Failure

  /** The critical section that fills the cache: the new content and the call's answer. */
  function Fill(formats: Formats, disk: Disk): (Content, Answer) {
    match disk
    case NoFile => (None, Failure)
    case NoStats => (None, Failure)
    case File(size, bytes) =>
      if size > MAX_FILE_SIZE || bytes.Err? then (None, Failure)
      else
        var body := formats.body(bytes.value);
        match formats.render(if body.Some? then body.value else bytes.value)
        case Err => (None, Failure)
        case Ok(content) => (content, Success(content))
  }

  // ---- what a load means, said of the file ----

  ghost predicate Carries(answer: Answer, rendered: Result<Content>) {
    answer == match rendered case Ok(content) => Success(content) case Err => Failure
  }

  /**
   A load serves the rendering of the body below the front matter, or of the whole file where no body is found; and
   it fails if the file cannot be opened, measured or read, or is larger than 10 MB.
   */
  ghost predicate IsLoad(formats: Formats, disk: Disk, content: Content, answer: Answer) {
    && content == (match answer case Success(served) => served case Failure => None)
    && if disk.File? && disk.size <= 10 * 1024 * 1024 && disk.bytes.Ok? then
         var body := formats.body(disk.bytes.value);
         Carries(answer, formats.render(if body.Some? then body.value else disk.bytes.value))
       else answer.Failure?
  }

  lemma FillIsLoad(formats: Formats, disk: Disk)
    ensures IsLoad(formats, disk, Fill(formats, disk).0, Fill(formats, disk).1)
  {
  }

  /** Front matter is not served: files of one body, however they begin, give one content and one answer. */
  lemma OnlyBodyIsServed(
      formats: Formats, disk: Disk, disk': Disk, content: Content, content': Content, answer: Answer, answer': Answer)
    requires disk.File? && disk.size <= 10 * 1024 * 1024 && disk'.File? && disk'.size <= 10 * 1024 * 1024
    requires disk.bytes.Ok? && disk'.bytes.Ok?
    requires formats.body(disk.bytes.value).Some? && formats.body(disk.bytes.value) == formats.body(disk'.bytes.value)
    requires IsLoad(formats, disk, content, answer) && IsLoad(formats, disk', content', answer')
    ensures content == content' && answer == answer'
  {
  }

  // ---- the machine ----

  /** Where a call is. Looking and Saw hold the read lock; Holding, Loading and Leaving the write lock. */
  datatype Pc =
    | Entering
    | Looking
    | Saw(content: Content)
    | Missed
    | Holding
    | Loading
    | Leaving(answer: Answer)
    | Returned(answer: Answer)
  {
    predicate Reads() {
      Looking? || Saw?
    }

    predicate Writes() {
      Holding? || Loading? || Leaving?
    }
  }

  datatype State = State(
    content: Content, readers: set<nat>, writer: Option<nat>, calls: map<nat, Pc>, diskReads: nat)
  {
    predicate At(t: nat, pc: Pc) {
      t in calls && calls[t] == pc
    }

    function Go(t: nat, pc: Pc): State {
      this.(calls := calls[t := pc])
    }
  }

  const INITIAL := State(None, {}, None, map[], 0)

  datatype Event =
    | Call(t: nat)
    | RLock(t: nat)
    | Look(t: nat)
    | RUnlock(t: nat)
    | Lock(t: nat)
    | Recheck(t: nat)
    | Load(t: nat, disk: Disk)
    | Unlock(t: nat)

  predicate Enabled(s: State, e: Event) {
    match e
    case Call(t) => t !in s.calls
    case RLock(t) => s.At(t, Entering) && s.writer.None?
    case Look(t) => s.At(t, Looking)
    case RUnlock(t) => t in s.calls && s.calls[t].Saw?
    case Lock(t) => s.At(t, Missed) && s.writer.None? && s.readers == {}
    case Recheck(t) => s.At(t, Holding)
    case Load(t, _) => s.At(t, Loading)
    case Unlock(t) => t in s.calls && s.calls[t].Leaving?
  }

  function Step(formats: Formats, s: State, e: Event): State
    requires Enabled(s, e)
  {
    match e
    case Call(t) => s.Go(t, Entering)
    case RLock(t) => s.Go(t, Looking).(readers := s.readers + {t})
    case Look(t) => s.Go(t, Saw(s.content))
    case RUnlock(t) =>
      var content := s.calls[t].content;
      s.Go(t, if content.Some? then Returned(Success(content)) else Missed).(readers := s.readers - {t})
    case Lock(t) => s.Go(t, Holding).(writer := Some(t))
    case Recheck(t) =>
      if s.content.Some? then s.Go(t, Leaving(Success(s.content)))
      else s.Go(t, Loading).(diskReads := s.diskReads + 1)
    case Load(t, disk) =>
      var (content, answer) := Fill(formats, disk);
      s.Go(t, Leaving(answer)).(content := content)
    case Unlock(t) => s.Go(t, Returned(s.calls[t].answer)).(writer := None)
  }

  /** The states of one interleaving. */
  ghost predicate IsRun(formats: Formats, states: seq<State>, events: seq<Event>) {
    && |states| == |events| + 1
    && states[0] == INITIAL
    && forall i :: 0 <= i < |events| ==>
         Enabled(states[i], events[i]) && states[i + 1] == Step(formats, states[i], events[i])
  }

  // ---- the lock protocol, and what it protects ----

  ghost predicate Locked(s: State) {
    && (forall t :: t in s.readers <==> t in s.calls && s.calls[t].Reads())
    && (forall t :: s.writer == Some(t) <==> t in s.calls && s.calls[t].Writes())
    && (s.writer.Some? ==> s.readers == {})
  }

  /** No call has seen, or is about to return, anything but the cached content. */
  ghost predicate PcOk(content: Content, pc: Pc) {
    match pc
    case Saw(seen) => seen == content
    case Loading => content.None?
    case Leaving(answer) => answer.Success? && answer.content.Some? ==> answer.content == content
    case Returned(answer) => answer.Success? && answer.content.Some? ==> answer.content == content
    case _ => true
  }

  ghost predicate Inv(s: State) {
    Locked(s) && forall t :: t in s.calls ==> PcOk(s.content, s.calls[t])
  }

  lemma StepKeepsLocked(formats: Formats, s: State, e: Event)
    requires Inv(s) && Enabled(s, e)
    ensures Locked(Step(formats, s, e))
  {
    var after := Step(formats, s, e);
    forall t ensures t in after.readers <==> t in after.calls && after.calls[t].Reads() {
      assert t != e.t ==> (t in after.readers <==> t in s.readers);
    }
    forall t ensures after.writer == Some(t) <==> t in after.calls && after.calls[t].Writes() {
      assert s.writer == Some(t) <==> t in s.calls && s.calls[t].Writes();
    }
  }

  /** Only a call that holds the write lock and found nothing changes the content; nobody else has then seen any. */
  lemma StepKeepsInv(formats: Formats, s: State, e: Event)
    requires Inv(s) && Enabled(s, e)
    ensures Inv(Step(formats, s, e))
    ensures s.content.Some? ==> Step(formats, s, e).content == s.content && Step(formats, s, e).diskReads == s.diskReads
  {
    StepKeepsLocked(formats, s, e);
    var after := Step(formats, s, e);
    forall t | t in after.calls ensures PcOk(after.content, after.calls[t]) {
      if t != e.t {
        assert after.calls[t] == s.calls[t] && PcOk(s.content, s.calls[t]);
        if e.Load? {
          assert PcOk(s.content, s.calls[e.t]);
          assert s.writer == Some(e.t);
          assert t !in s.readers && s.writer != Some(t);
        }
      }
    }
  }

  lemma {:induction false} RunKeepsInv(formats: Formats, states: seq<State>, events: seq<Event>, i: nat)
    requires IsRun(formats, states, events) && i < |states|
    ensures Inv(states[i])
  {
    if i > 0 {
      RunKeepsInv(formats, states, events, i - 1);
      StepKeepsInv(formats, states[i - 1], events[i - 1]);
    }
  }

  /** The machine's loads are such loads. */
  lemma LoadReadsFile(formats: Formats, states: seq<State>, events: seq<Event>, i: nat)
    requires IsRun(formats, states, events) && i < |events| && events[i].Load?
    ensures var e, after := events[i], states[i + 1];
      && e.t in after.calls && after.calls[e.t].Leaving?
      && IsLoad(formats, e.disk, after.content, after.calls[e.t].answer)
  {
    FillIsLoad(formats, events[i].disk);
  }

  /** A load that fails, for whatever reason, leaves the cache empty. */
  lemma FailureLeavesEmpty(formats: Formats, states: seq<State>, events: seq<Event>, i: nat)
    requires IsRun(formats, states, events) && i < |events| && events[i].Load?
    ensures states[i].content.None?
    ensures states[i + 1].At(events[i].t, Leaving(Failure)) ==> states[i + 1].content.None?
    ensures !states[i + 1].At(events[i].t, Leaving(Failure)) ==>
      states[i + 1].At(events[i].t, Leaving(Success(states[i + 1].content)))
  {
    RunKeepsInv(formats, states, events, i);
    assert PcOk(states[i].content, states[i].calls[events[i].t]);
  }

  ghost predicate Served(s: State, bytes: string) {
    exists t :: s.At(t, Returned(Success(Some(bytes))))
  }

  /** Calls made after the cache was filled never leave the fast path. */
  ghost predicate OnFastPath(pc: Pc, bytes: string) {
    pc.Entering? || pc.Looking? || pc == Saw(Some(bytes)) || pc == Returned(Success(Some(bytes)))
  }

  ghost predicate LateCallsFast(early: State, s: State, bytes: string) {
    forall t :: t in s.calls && t !in early.calls ==> OnFastPath(s.calls[t], bytes)
  }

  lemma LateCallsStep(formats: Formats, early: State, s: State, e: Event, bytes: string)
    requires Inv(s) && Enabled(s, e) && s.content == Some(bytes)
    requires LateCallsFast(early, s, bytes) && early.calls.Keys <= s.calls.Keys
    ensures LateCallsFast(early, Step(formats, s, e), bytes)
  {
  }

  ghost predicate AllReturned(s: State, bytes: string) {
    forall t, other :: s.At(t, Returned(Success(Some(other)))) ==> other == bytes
  }

  lemma OneAnswer(s: State, bytes: string)
    requires Inv(s) && s.content == Some(bytes)
    ensures AllReturned(s, bytes)
  {
    forall t, other | s.At(t, Returned(Success(Some(other)))) ensures other == bytes {
      assert PcOk(s.content, s.calls[t]);
    }
  }

  /**
   Once a call has returned bytes: the cache holds them for good, the disk is not read again, every call that ever
   returns bytes returns these, and every call made from then on returns them without taking the write lock.
   */
  lemma {:induction false} FilledOnce(
      formats: Formats, states: seq<State>, events: seq<Event>, i: nat, j: nat, bytes: string)
    requires IsRun(formats, states, events) && i <= j < |states|
    requires Served(states[i], bytes)
    ensures states[j].content == Some(bytes) && states[j].diskReads == states[i].diskReads
    ensures AllReturned(states[j], bytes)
    ensures LateCallsFast(states[i], states[j], bytes) && states[i].calls.Keys <= states[j].calls.Keys
  {
    RunKeepsInv(formats, states, events, j);
    if i == j {
      var t :| states[i].At(t, Returned(Success(Some(bytes))));
      assert PcOk(states[i].content, states[i].calls[t]);
    } else {
      FilledOnce(formats, states, events, i, j - 1, bytes);
      RunKeepsInv(formats, states, events, j - 1);
      StepKeepsInv(formats, states[j - 1], events[j - 1]);
      LateCallsStep(formats, states[i], states[j - 1], events[j - 1], bytes);
    }
    OneAnswer(states[j], bytes);
  }

  ghost predicate Unfinished(s: State, t: nat) {
    t in s.calls && !s.calls[t].Returned?
  }

  /** The locks never leave every unfinished call waiting. */
  lemma NoDeadlock(formats: Formats, states: seq<State>, events: seq<Event>, i: nat, t: nat, disk: Disk)
    returns (e: Event)
    requires IsRun(formats, states, events) && i < |states| && Unfinished(states[i], t)
    ensures Enabled(states[i], e) && Unfinished(states[i], e.t)
  {
    RunKeepsInv(formats, states, events, i);
    var s := states[i];
    var u := if s.writer.Some? then s.writer.value else if s.readers != {} then var r :| r in s.readers; r else t;
    e := if s.calls[u].Entering? then RLock(u)
      else if s.calls[u].Looking? then Look(u)
      else if s.calls[u].Saw? then RUnlock(u)
      else if s.calls[u].Missed? then Lock(u)
      else if s.calls[u].Holding? then Recheck(u)
      else if s.calls[u].Loading? then Load(u, disk)
      else Unlock(u);
  }

  // ---- the two sections as code ----

  class Post {
    var content: Content

    constructor ()
      ensures content.None?
    {
      content := None;
    }

    /** Under the write lock: look again, and only then read the disk. */
    method LoadLocked(formats: Formats, disk: Disk) returns (answer: Answer)
      modifies this
      ensures old(content).Some? ==> content == old(content) && answer == Success(content)
      ensures old(content).None? ==> (content, answer) == Fill(formats, disk)
    {
      if content.Some? {
        return Success(content);
      }
      match disk
      case NoFile => return Failure;
      case NoStats => return Failure;
      case File(size, bytes) =>
        if size > MAX_FILE_SIZE {
          return Failure;
        }
        if bytes.Err? {
          return Failure;
        }
        var markdownBody := bytes.value;
        var parsed := formats.body(bytes.value);
        if parsed.Some? {
          markdownBody := parsed.value;
        }
        var rendered := formats.render(markdownBody);
        if rendered.Err? {
          content := None;
          return Failure;
        }
        content := rendered.value;
        return Success(content);
    }

    /** A call that nobody interrupts. */
    method GetContent(formats: Formats, disk: Disk) returns (answer: Answer)
      modifies this
      ensures old(content).Some? ==> content == old(content) && answer == Success(content)
      ensures old(content).None? ==> (content, answer) == Fill(formats, disk) && IsLoad(formats, disk, content, answer)
      ensures answer.Failure? ==> content.None?
    {
      if content.Some? {
        return Success(content);
      }
      answer := LoadLocked(formats, disk);
      FillIsLoad(formats, disk);
    }
  }
}
