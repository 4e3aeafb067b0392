/** Status polling for one submitted conversion task: every tick asks the
    server for the task's status, writes the outcome into the file's row, and
    finally settles the job's promise. The shared helper `pollTaskStatus` and
    the pollers inlined in the audio and document converters are the same
    machine; they differ only in how the failure text is chosen (`Variant`). */
module Polling {
  import opened Wrappers
  import opened Text
  import opened Files
  import opened Slots

  /** The optional `meta` object of a status reply. */
  datatype Meta = Meta(progress: Option<int>, message: Option<string>)

  /** A parsed status reply (`TaskStatus`); absent fields are `None`. */
  datatype Payload = Payload(
    status: Option<string>,
    state: Option<string>,
    filename: Option<string>,
    originalName: Option<string>,
    fileId: Option<string>,
    error: Option<string>,
    traceback: Option<string>,
    meta: Option<Meta>)

  /** What one tick observes. `Answer` is a 2xx status reply whose body parsed;
      `fileReady` is what the HEAD request on the result URL would report
      (true only for a 2xx answer), consulted only when the tick probes.
      `CheckFailed` is a status request that threw, answered non-2xx, or
      whose body was not JSON. */
  datatype Reply = Answer(payload: Payload, fileReady: bool) | CheckFailed

  /** `SharedHelper` is pollingHelper.ts; `Inlined` the copies inside the
      audio and document converters. */
  datatype Variant = SharedHelper | Inlined

  datatype PollConfig = PollConfig(
    variant: Variant,
    taskId: string,
    fileName: string,
    format: string,
    maxRetries: int,
    pollInterval: int)

  const DefaultMaxRetries: int := 20
  const DefaultPollInterval: int := 500
  const ResultBase := "http://localhost:8000/convertifileapp/result/"
  const TimedOutText := "Timed out! Retry later."
  const MissingTaskText := "Task ID is missing"
  const ProbeCompletedText := "Conversion completed!"

  /** The configuration every caller uses: 20 retries, 500 ms. */
  function DefaultConfig(variant: Variant, taskId: string, fileName: string, format: string): PollConfig
  {
    PollConfig(variant, taskId, fileName, format, DefaultMaxRetries, DefaultPollInterval)
  }

  /** The promise: still pending, resolved with true/false, or rejected. */
  datatype Outcome = Polling | Resolved(success: bool) | Rejected(reason: string)

  /** The closure state of one poller together with the row it writes. */
  datatype PollState = PollState(retryCount: nat, interval: int, outcome: Outcome, slot: Slot)

  function Start(cfg: PollConfig, slot: Slot): PollState
  {
    PollState(0, cfg.pollInterval, Polling, slot)
  }

  datatype StatusKind = Completed | Failed | Processing | Started | Pending | Unrecognised

  /** The switch key: `status` before `state`, lower-cased; empty when neither is present. */
  function StatusKey(p: Payload): (k: string)
    ensures IsLowerCase(k)
    ensures p.status.Some? ==> k == ToLower(p.status.value)
    ensures p.status.None? ==> k == ToLower(p.state.GetOr(""))
  {
    var raw := if p.status.Some? then p.status.value else if p.state.Some? then p.state.value else "";
    ToLower(raw)
  }

  function Classify(k: string): StatusKind
  {
    if k == "completed" then Completed
    else if k == "failed" then Failed
    else if k == "processing" then Processing
    else if k == "started" then Started
    else if k == "pending" then Pending
    else Unrecognised
  }

  function MetaMessage(p: Payload): Option<string>
  {
    if p.meta.Some? then p.meta.value.message else None
  }

  /** `statusData.meta?.message` is truthy: the server's own text wins. */
  predicate HasMetaMessage(p: Payload)
  {
    Truthy(MetaMessage(p))
  }

  /** `statusData.meta?.progress` is truthy (present and not 0). */
  predicate HasMetaProgress(p: Payload)
  {
    p.meta.Some? && p.meta.value.progress.Some? && p.meta.value.progress.value != 0
  }

  /** The row after the unconditional meta update: a truthy message replaces
      the status, any numeric progress (0 included) replaces the progress. */
  function WithMeta(slot: Slot, p: Payload): Slot
  {
    if p.meta.None? then slot
    else
      var m := p.meta.value;
      var s1 := if Truthy(m.message) then slot.(status := m.message.value) else slot;
      if m.progress.Some? then s1.(progress := m.progress.value) else s1
  }

  /** The error text of a failed task. The helper writes
      `(meta?.message ?? error) || traceback || 'Unknown error'`, the inlined
      copies `meta?.message || error || traceback || 'Unknown error'`. */
  function FailureText(v: Variant, p: Payload): string
  {
    var first := if v == SharedHelper then (if MetaMessage(p).Some? then MetaMessage(p) else p.error)
                 else if Truthy(MetaMessage(p)) then MetaMessage(p) else p.error;
    if Truthy(first) then first.value
    else if Truthy(p.traceback) then p.traceback.value
    else "Unknown error"
  }

  /** `${file.name.split('.')[0]}.${format}` */
  function FallbackName(cfg: PollConfig): string
  {
    BaseName(cfg.fileName) + "." + cfg.format
  }

  /** The descriptor written for a completed task: `(filename ?? original_name)
      || fallback` and the result URL of `file_id ?? taskId`. */
  function CompletedDownload(cfg: PollConfig, p: Payload): Download
  {
    var named := if p.filename.Some? then p.filename else p.originalName;
    var name := if Truthy(named) then named.value else FallbackName(cfg);
    var id := if p.fileId.Some? then p.fileId.value else cfg.taskId;
    Download(ResultBase + id, name)
  }

  /** The text a status handler writes when `meta.message` is falsy. */
  function HandlerText(cfg: PollConfig, kind: StatusKind, key: string, p: Payload): string
  {
    match kind
    case Completed => "Completed!"
    case Failed => "Failed: " + FailureText(cfg.variant, p)
    case Processing => "Processing..."
    case Started => "Started processing..."
    case Pending => "In queue..."
    case Unrecognised => if key != "" then "Status: " + key else "Unknown status"
  }

  /** The progress a status handler writes when `meta.progress` is falsy
      (failed and unrecognised statuses write none). */
  function HandlerProgress(kind: StatusKind): Option<int>
  {
    match kind
    case Completed => Some(100)
    case Processing => Some(50)
    case Started => Some(20)
    case Pending => Some(10)
    case _ => None
  }

  /** completed resolves true, failed resolves false, the rest keep polling. */
  function HandlerOutcome(kind: StatusKind): Outcome
  {
    match kind
    case Completed => Resolved(true)
    case Failed => Resolved(false)
    case _ => Polling
  }

  /** The status a handler leaves: the fixed text unless `meta.message` is truthy. */
  function HandledStatus(cfg: PollConfig, status: string, p: Payload): string
  {
    if HasMetaMessage(p) then status else HandlerText(cfg, Classify(StatusKey(p)), StatusKey(p), p)
  }

  /** The progress a handler leaves: the fixed value, if the status has one,
      unless `meta.progress` is truthy. */
  function HandledProgress(progress: int, p: Payload): int
  {
    var fixed := HandlerProgress(Classify(StatusKey(p)));
    if HasMetaProgress(p) || fixed.None? then progress else fixed.value
  }

  /** The descriptor a handler leaves: only completion writes one. */
  function HandledResult(cfg: PollConfig, result: Download, p: Payload): Download
  {
    if Classify(StatusKey(p)) == Completed then CompletedDownload(cfg, p) else result
  }

  /** The row after the status handler, applied to the row after the meta update. */
  function Handle(cfg: PollConfig, slot: Slot, p: Payload): Slot
  {
    Slot(HandledStatus(cfg, slot.status, p), HandledProgress(slot.progress, p), HandledResult(cfg, slot.result, p))
  }

  /** Whether the tick with this attempt number asks the HEAD probe: only
      after the sixth attempt and only when the reply has no status. */
  predicate Probes(attempt: int, p: Payload)
  {
    attempt > 6 && !Truthy(p.status)
  }

  /** One call of `checkStatus`. Once the promise is settled the timer is
      cleared and no tick arrives, which `Next` renders as "nothing changes". */
  function Next(cfg: PollConfig, s: PollState, r: Reply): (t: PollState)
    ensures !s.outcome.Polling? ==> t == s
    ensures s.outcome.Polling? && cfg.taskId != "" ==> t.retryCount == s.retryCount + 1
    ensures s.outcome.Polling? && cfg.taskId == "" ==> t.outcome == Rejected(MissingTaskText) && t.slot == s.slot
    ensures t.outcome.Polling? ==> t.retryCount <= cfg.maxRetries
    ensures t.interval == s.interval || t.interval == 2 * cfg.pollInterval
    ensures s.outcome.Polling? && cfg.taskId != "" && t.retryCount > cfg.maxRetries ==> t.outcome == Resolved(false) && t.slot.status == TimedOutText
    ensures t.slot.result != s.slot.result ==> t.outcome == Resolved(true)
  {
    if !s.outcome.Polling? then s
    else if cfg.taskId == "" then s.(outcome := Rejected(MissingTaskText))
    else
      var n := s.retryCount + 1;
      if n > cfg.maxRetries then PollState(n, s.interval, Resolved(false), s.slot.(status := TimedOutText))
      else match r
        case CheckFailed =>
          PollState(n, if n > 5 then 2 * cfg.pollInterval else s.interval, Polling, s.slot)
        case Answer(p, ready) =>
          if Probes(n, p) && ready then
            PollState(n, s.interval, Resolved(true),
              s.slot.(status := ProbeCompletedText, result := Download(ResultBase + cfg.taskId, FallbackName(cfg))))
          else
            PollState(n, s.interval, HandlerOutcome(Classify(StatusKey(p))), Handle(cfg, WithMeta(s.slot, p), p))
  }

  /** A sequence of ticks. */
  function Run(cfg: PollConfig, s: PollState, rs: seq<Reply>): PollState
    decreases |rs|
  {
    if rs == [] then s else Run(cfg, Next(cfg, s, rs[0]), rs[1..])
  }

  /** A settled promise stays settled and the row stays as it was. */
  lemma {:induction false} SettledIsFinal(cfg: PollConfig, s: PollState, rs: seq<Reply>)
    requires !s.outcome.Polling?
    ensures Run(cfg, s, rs) == s
    decreases |rs|
  {
    if rs != [] {
      SettledIsFinal(cfg, Next(cfg, s, rs[0]), rs[1..]);
    }
  }

  /** Running two scripts one after the other is running their concatenation. */
  lemma {:induction false} RunAppend(cfg: PollConfig, s: PollState, a: seq<Reply>, b: seq<Reply>)
    ensures Run(cfg, s, a + b) == Run(cfg, Run(cfg, s, a), b)
    decreases |a|
  {
    if a != [] {
      assert (a + b)[0] == a[0] && (a + b)[1..] == a[1..] + b;
      RunAppend(cfg, Next(cfg, s, a[0]), a[1..], b);
    } else {
      assert a + b == b;
    }
  }

  /** Polling always ends: a poller with a task id settles within
      maxRetries + 1 ticks of starting, whatever the server answers. */
  lemma {:induction false} PollingSettles(cfg: PollConfig, s: PollState, rs: seq<Reply>)
    requires cfg.taskId != ""
    requires s.outcome.Polling? ==> s.retryCount <= cfg.maxRetries < s.retryCount + |rs|
    ensures !Run(cfg, s, rs).outcome.Polling?
    decreases |rs|
  {
    if rs == [] {
    } else if !s.outcome.Polling? {
      SettledIsFinal(cfg, s, rs);
    } else {
      PollingSettles(cfg, Next(cfg, s, rs[0]), rs[1..]);
    }
  }

  /** With a task id the promise is never rejected. */
  lemma {:induction false} NeverRejectedWithTaskId(cfg: PollConfig, s: PollState, rs: seq<Reply>)
    requires cfg.taskId != "" && !s.outcome.Rejected?
    ensures !Run(cfg, s, rs).outcome.Rejected?
    decreases |rs|
  {
    if rs != [] {
      NeverRejectedWithTaskId(cfg, Next(cfg, s, rs[0]), rs[1..]);
    }
  }

  /** Without a task id the first tick rejects with "Task ID is missing",
      counts no attempt and leaves the row alone. */
  lemma MissingTaskIdRejects(cfg: PollConfig, slot: Slot, r: Reply)
    requires cfg.taskId == ""
    ensures Next(cfg, Start(cfg, slot), r) == PollState(0, cfg.pollInterval, Rejected(MissingTaskText), slot)
  {
  }

  function Repeat(r: Reply, k: nat): (rs: seq<Reply>)
    ensures |rs| == k && forall i :: 0 <= i < k ==> rs[i] == r
  {
    if k == 0 then [] else [r] + Repeat(r, k - 1)
  }

  /** A status endpoint that keeps failing leaves the row alone, counts every
      attempt and, from the sixth attempt on, doubles the interval. */
  lemma {:induction false} FailingChecksKeepPolling(cfg: PollConfig, s: PollState, k: nat)
    requires cfg.taskId != "" && s.outcome.Polling?
    requires s.retryCount + k <= cfg.maxRetries
    requires s.retryCount > 5 ==> s.interval == 2 * cfg.pollInterval
    ensures var t := Run(cfg, s, Repeat(CheckFailed, k));
      t.outcome.Polling? && t.slot == s.slot && t.retryCount == s.retryCount + k
      && t.interval == (if s.retryCount + k > 5 then 2 * cfg.pollInterval else s.interval)
    decreases k
  {
    if k > 0 {
      var rs := Repeat(CheckFailed, k);
      assert rs[0] == CheckFailed && rs[1..] == Repeat(CheckFailed, k - 1);
      FailingChecksKeepPolling(cfg, Next(cfg, s, CheckFailed), k - 1);
    }
  }

  /** With an unreachable status endpoint the default poller gives up on the
      21st tick: it resolves false with "Timed out! Retry later." after having
      backed off to a 1000 ms interval. */
  lemma UnreachableServerTimesOut(taskId: string, fileName: string, format: string, v: Variant, slot: Slot)
    requires taskId != ""
    ensures var cfg := DefaultConfig(v, taskId, fileName, format);
      var t := Run(cfg, Start(cfg, slot), Repeat(CheckFailed, 21));
      t.outcome == Resolved(false) && t.retryCount == 21 && t.interval == 1000
      && t.slot == slot.(status := TimedOutText)
  {
    var cfg := DefaultConfig(v, taskId, fileName, format);
    var s := Start(cfg, slot);
    FailingChecksKeepPolling(cfg, s, 20);
    assert Repeat(CheckFailed, 21) == Repeat(CheckFailed, 20) + [CheckFailed];
    RunAppend(cfg, s, Repeat(CheckFailed, 20), [CheckFailed]);
  }

  /** A tick that is handled (neither the timeout nor a successful probe)
      ends with the server's own message when `meta.message` is truthy, and
      with its progress when `meta.progress` is truthy, whatever the status. */
  lemma MetaTakesPrecedence(cfg: PollConfig, s: PollState, p: Payload, ready: bool)
    requires s.outcome.Polling? && cfg.taskId != "" && s.retryCount + 1 <= cfg.maxRetries
    requires !(Probes(s.retryCount + 1, p) && ready)
    ensures HasMetaMessage(p) ==> Next(cfg, s, Answer(p, ready)).slot.status == MetaMessage(p).value
    ensures HasMetaProgress(p) ==> Next(cfg, s, Answer(p, ready)).slot.progress == p.meta.value.progress.value
  {
  }

  /** Without `meta`, each status word writes its fixed text and progress. */
  lemma DefaultsWithoutMeta(cfg: PollConfig, s: PollState, p: Payload, ready: bool)
    requires s.outcome.Polling? && cfg.taskId != "" && s.retryCount + 1 <= cfg.maxRetries
    requires !(Probes(s.retryCount + 1, p) && ready)
    requires p.meta.None?
    ensures var t := Next(cfg, s, Answer(p, ready));
      var k := StatusKey(p);
      (k == "completed" ==> t.slot == Slot("Completed!", 100, CompletedDownload(cfg, p)) && t.outcome == Resolved(true))
      && (k == "failed" ==> t.slot == s.slot.(status := "Failed: " + FailureText(cfg.variant, p)) && t.outcome == Resolved(false))
      && (k == "processing" ==> t.slot == s.slot.(status := "Processing...", progress := 50) && t.outcome == Polling)
      && (k == "started" ==> t.slot == s.slot.(status := "Started processing...", progress := 20) && t.outcome == Polling)
      && (k == "pending" ==> t.slot == s.slot.(status := "In queue...", progress := 10) && t.outcome == Polling)
      && (Classify(k) == Unrecognised ==>
            t.slot == s.slot.(status := if k == "" then "Unknown status" else "Status: " + k) && t.outcome == Polling)
  {
  }

  /** Status words match whatever their letter case: "COMPLETED" completes. */
  lemma StatusWordsIgnoreCase(p: Payload, q: Payload)
    requires p.status.Some? && q.status.Some? && ToLower(p.status.value) == ToLower(q.status.value)
    ensures Classify(StatusKey(p)) == Classify(StatusKey(q))
  {
  }

  /** The HEAD probe is consulted only after the sixth attempt and only for a
      reply without a status: elsewhere its answer makes no difference. */
  lemma ProbeOnlyLateAndStatusless(cfg: PollConfig, s: PollState, p: Payload)
    requires s.retryCount + 1 <= 6 || Truthy(p.status)
    ensures Next(cfg, s, Answer(p, true)) == Next(cfg, s, Answer(p, false))
  {
  }

  /** A successful probe completes the job under the fallback name. */
  lemma ProbeCompletes(cfg: PollConfig, s: PollState, p: Payload)
    requires s.outcome.Polling? && cfg.taskId != "" && s.retryCount + 1 <= cfg.maxRetries
    requires Probes(s.retryCount + 1, p)
    ensures var t := Next(cfg, s, Answer(p, true));
      t.outcome == Resolved(true) && t.slot.status == ProbeCompletedText
      && t.slot.progress == s.slot.progress
      && t.slot.result == Download(ResultBase + cfg.taskId, BaseName(cfg.fileName) + "." + cfg.format)
  {
  }

  /** The two failure-text expressions disagree exactly when the server sends
      an empty `meta.message` together with a non-empty `error`: the helper's
      `??` then skips `error`, the inlined `||` does not. */
  lemma FailureTextVariantsDiffer(p: Payload)
    ensures FailureText(SharedHelper, p) != FailureText(Inlined, p)
        <==> MetaMessage(p) == Some("") && Truthy(p.error)
              && p.error != (if Truthy(p.traceback) then p.traceback else Some("Unknown error"))
  {
  }

  /** A non-empty `filename` names the download; an empty one is not
      replaced by `original_name` but by the fallback name. */
  lemma CompletedName(cfg: PollConfig, p: Payload)
    ensures Truthy(p.filename) ==> CompletedDownload(cfg, p).fileName == p.filename.value
    ensures p.filename.None? && Truthy(p.originalName) ==> CompletedDownload(cfg, p).fileName == p.originalName.value
    ensures p.filename == Some("") ==> CompletedDownload(cfg, p).fileName == FallbackName(cfg)
    ensures StartsWith(CompletedDownload(cfg, p).fileUrl, ResultBase)
  {
  }

  /** The interval only ever takes the two values `checkStatus` sets. */
  lemma {:induction false} IntervalIsOneOfTwo(cfg: PollConfig, s: PollState, rs: seq<Reply>)
    requires s.interval == cfg.pollInterval || s.interval == 2 * cfg.pollInterval
    ensures var t := Run(cfg, s, rs); t.interval == cfg.pollInterval || t.interval == 2 * cfg.pollInterval
    decreases |rs|
  {
    if rs != [] {
      IntervalIsOneOfTwo(cfg, Next(cfg, s, rs[0]), rs[1..]);
    }
  }

  /** One running `pollTaskStatus` (or inlined poller): its closure variables
      and the page arrays it writes through the index-local updaters. */
  class Poller {
    const cfg: PollConfig
    const index: nat
    const ui: JobArrays
    var retryCount: nat
    var interval: int
    var outcome: Outcome

    predicate Valid()
      reads this, ui
    {
      ui.HasSlot(index)
    }

    function State(): PollState
      reads this, ui
      requires Valid()
    {
      PollState(retryCount, interval, outcome, ui.SlotAt(index))
    }

    constructor (cfg: PollConfig, index: nat, ui: JobArrays)
      requires ui.HasSlot(index)
      ensures this.cfg == cfg && this.index == index && this.ui == ui
      ensures Valid() && State() == Start(cfg, ui.SlotAt(index))
    {
      this.cfg := cfg;
      this.index := index;
      this.ui := ui;
      retryCount := 0;
      interval := cfg.pollInterval;
      outcome := Polling;
    }

    method WriteStatus(msg: string)
      requires Valid()
      modifies ui
      ensures ui.statuses == old(ui.statuses)[index := msg]
      ensures ui.progresses == old(ui.progresses) && ui.results == old(ui.results)
      ensures ui.statusLog == old(ui.statusLog) + [(index, msg)]
    {
      ui.SetStatus(index, msg);
    }

    method WriteProgress(v: int)
      requires Valid()
      modifies ui
      ensures ui.progresses == old(ui.progresses)[index := v]
      ensures ui.statuses == old(ui.statuses) && ui.results == old(ui.results)
      ensures ui.statusLog == old(ui.statusLog)
    {
      ui.SetProgress(index, v);
    }

    method WriteResult(d: Download)
      requires Valid()
      modifies ui
      ensures ui.results == old(ui.results)[index := d]
      ensures ui.statuses == old(ui.statuses) && ui.progresses == old(ui.progresses)
      ensures ui.statusLog == old(ui.statusLog)
    {
      ui.SetResult(index, d);
    }

    /** The status handlers of `checkStatus`, after the meta update. */
    method Dispatch(p: Payload)
      requires Valid()
      modifies this, ui
      ensures Valid() && retryCount == old(retryCount) && interval == old(interval)
      ensures ui.SlotAt(index) == Handle(cfg, old(ui.SlotAt(index)), p)
      ensures outcome == HandlerOutcome(Classify(StatusKey(p)))
      ensures ui.OnlyRowChanged(index)
    {
      DispatchStatus(p);
      DispatchProgress(p);
      DispatchResult(p);
      outcome := HandlerOutcome(Classify(StatusKey(p)));
    }

    /** `if (!statusData.meta?.message) updateStatus(...)` of the handler. */
    method DispatchStatus(p: Payload)
      requires Valid()
      modifies ui
      ensures ui.statuses == old(ui.statuses)[index := HandledStatus(cfg, old(ui.statuses[index]), p)]
      ensures ui.progresses == old(ui.progresses) && ui.results == old(ui.results)
      ensures old(ui.statusLog) <= ui.statusLog
    {
      if !HasMetaMessage(p) {
        var key := StatusKey(p);
        WriteStatus(HandlerText(cfg, Classify(key), key, p));
      }
    }

    /** `if (!statusData.meta?.progress) updateProgress(...)` of the handler. */
    method DispatchProgress(p: Payload)
      requires Valid()
      modifies ui
      ensures ui.progresses == old(ui.progresses)[index := HandledProgress(old(ui.progresses[index]), p)]
      ensures ui.statuses == old(ui.statuses) && ui.results == old(ui.results)
      ensures ui.statusLog == old(ui.statusLog)
    {
      var progress := HandlerProgress(Classify(StatusKey(p)));
      if !HasMetaProgress(p) && progress.Some? {
        WriteProgress(progress.value);
      }
    }

    /** The `setResult` of `handleCompleted`. */
    method DispatchResult(p: Payload)
      requires Valid()
      modifies ui
      ensures ui.results == old(ui.results)[index := HandledResult(cfg, old(ui.results[index]), p)]
      ensures ui.statuses == old(ui.statuses) && ui.progresses == old(ui.progresses)
      ensures ui.statusLog == old(ui.statusLog)
    {
      if Classify(StatusKey(p)) == Completed {
        WriteResult(CompletedDownload(cfg, p));
      }
    }

    /** One tick: `checkStatus` with the reply it observes. */
    method Step(r: Reply)
      requires Valid()
      modifies this, ui
      ensures Valid() && State() == Next(cfg, old(State()), r)
      ensures ui.OnlyRowChanged(index)
    {
      if !outcome.Polling? {
        return;
      }
      if cfg.taskId == "" {
        outcome := Rejected(MissingTaskText);
        return;
      }
      retryCount := retryCount + 1;
      if retryCount > cfg.maxRetries {
        WriteStatus(TimedOutText);
        outcome := Resolved(false);
        return;
      }
      match r
      case CheckFailed =>
        if retryCount > 5 {
          interval := 2 * cfg.pollInterval;
        }
      case Answer(p, ready) =>
        if Probes(retryCount, p) && ready {
          WriteStatus(ProbeCompletedText);
          WriteResult(Download(ResultBase + cfg.taskId, FallbackName(cfg)));
          outcome := Resolved(true);
          return;
        }
        if p.meta.Some? {
          if Truthy(p.meta.value.message) {
            WriteStatus(p.meta.value.message.value);
          }
          if p.meta.value.progress.Some? {
            WriteProgress(p.meta.value.progress.value);
          }
        }
        assert ui.SlotAt(index) == WithMeta(old(ui.SlotAt(index)), p);
        Dispatch(p);
    }

    /** A whole polling session over a script of ticks; ticks after the
        promise settles find the timer cleared. */
    method Drive(rs: seq<Reply>)
      requires Valid()
      modifies this, ui
      ensures Valid() && State() == Run(cfg, old(State()), rs)
      ensures ui.OnlyRowChanged(index)
    {
      var i := 0;
      while i < |rs| && outcome.Polling?
        invariant 0 <= i <= |rs|
        invariant Valid() && ui.OnlyRowChanged(index)
        invariant Run(cfg, State(), rs[i..]) == Run(cfg, old(State()), rs)
      {
        assert rs[i..][0] == rs[i] && rs[i..][1..] == rs[i + 1..];
        Step(rs[i]);
        i := i + 1;
      }
      if i < |rs| {
        SettledIsFinal(cfg, State(), rs[i..]);
      }
    }
  }
}
