/** What every converter does around its own form encoding: announce the
    start, post the form, take the task id from the reply, then poll. */
module Submission {
  import opened Wrappers
  import opened Text
  import opened Form
  import opened Slots
  import opened Polling

  /** The body of a 2xx reply: parsed JSON with its `celery_id`, or a
      parse error. */
  datatype Body = Json(celeryId: Option<string>) | NotJson(parseError: string)

  /** The POST's result: an HTTP reply, or the message of the error `fetch` threw. */
  datatype SubmitReply = Http(ok: bool, code: int, statusText: string, body: Body) | Unreachable(message: string)

  const StartingText := "Starting conversion"
  const SendingText := "Sending to server"
  const NoTaskText := "No task ID returned from server"

  function ErrorText(message: string): string
  {
    "Error: " + message
  }

  /** The message of the TypeError a property read on `undefined` throws
      (V8's wording). */
  function ReadError(property: string): string
  {
    "Cannot read properties of undefined (reading '" + property + "')"
  }

  /** The error a form encoding throws: a TypeError from reading a property
      of `undefined`. */
  datatype EncodeError = ReadOfUndefined(property: string)

  function EncodeErrorMessage(e: EncodeError): string
  {
    ReadError(e.property)
  }

  /** The task id of a submission, or the message of the error the converter
      throws: "Server error: <code> <text>" for a non-2xx reply and
      "No task ID returned from server" for a missing or empty `celery_id`. */
  function TaskIdOf(r: SubmitReply): (t: Result<string, string>)
    ensures t.Success? <==> r.Http? && r.ok && r.body.Json? && Truthy(r.body.celeryId)
    ensures t.Success? ==> t.value != "" && t.value == r.body.celeryId.value
    ensures r.Http? && !r.ok ==> t == Failure("Server error: " + IntToString(r.code) + " " + r.statusText)
    ensures r.Http? && r.ok && r.body.Json? && !Truthy(r.body.celeryId) ==> t == Failure(NoTaskText)
  {
    match r
    case Unreachable(m) => Failure(m)
    case Http(ok, code, text, body) =>
      if !ok then Failure("Server error: " + IntToString(code) + " " + text)
      else match body
        case NotJson(e) => Failure(e)
        case Json(id) => if Truthy(id) then Success(id.value) else Failure(NoTaskText)
  }

  /** How a converter's promise stands at the end of the tick script. */
  datatype JobResult = Returned(success: bool) | StillPolling

  function ResultOf(o: Outcome): JobResult
  {
    if o.Resolved? then Returned(o.success) else StillPolling
  }

  /** The row and the result of a job once its form is built (or failed to
      build): the form error, or "Sending to server", the POST and the poller. */
  function AfterEncoding(slot: Slot, fileName: string, format: string, variant: Variant,
                         form: Result<FormData, EncodeError>, reply: SubmitReply, ticks: seq<Reply>): (Slot, JobResult)
  {
    if form.Failure? then (slot.(status := ErrorText(EncodeErrorMessage(form.error))), Returned(false))
    else
      var sent := slot.(status := SendingText);
      match TaskIdOf(reply)
      case Failure(m) => (sent.(status := ErrorText(m)), Returned(false))
      case Success(id) =>
        var cfg := DefaultConfig(variant, id, fileName, format);
        var t := Run(cfg, Start(cfg, sent), ticks);
        (t.slot, ResultOf(t.outcome))
  }

  /** The row and the result of one conversion job: "Starting conversion"
      is shown first, then the job continues as `AfterEncoding`. */
  function Job(slot: Slot, fileName: string, format: string, variant: Variant,
               form: Result<FormData, EncodeError>, reply: SubmitReply, ticks: seq<Reply>): (Slot, JobResult)
  {
    AfterEncoding(slot.(status := StartingText), fileName, format, variant, form, reply, ticks)
  }

  /** A poller that resolves true has written a download link under the
      result endpoint. */
  lemma {:induction false} SuccessLeavesLink(cfg: PollConfig, s: PollState, rs: seq<Reply>)
    requires s.outcome.Polling? || (s.outcome == Resolved(true) && StartsWith(s.slot.result.fileUrl, ResultBase))
    ensures Run(cfg, s, rs).outcome == Resolved(true) ==> StartsWith(Run(cfg, s, rs).slot.result.fileUrl, ResultBase)
    decreases |rs|
  {
    if rs != [] {
      var t := Next(cfg, s, rs[0]);
      if t.outcome.Rejected? || t.outcome == Resolved(false) {
        SettledIsFinal(cfg, t, rs[1..]);
      } else {
        SuccessLeavesLink(cfg, t, rs[1..]);
      }
    }
  }

  /** Jobs report every error on their own row and return false; a job that
      returns true leaves a download link; with 21 ticks every submitted job
      has returned. */
  lemma JobGuarantees(slot: Slot, fileName: string, format: string, variant: Variant,
                      form: Result<FormData, EncodeError>, reply: SubmitReply, ticks: seq<Reply>)
    ensures var (row, r) := Job(slot, fileName, format, variant, form, reply, ticks);
      (form.Failure? ==> row.status == ErrorText(EncodeErrorMessage(form.error)) && r == Returned(false))
      && (form.Success? && TaskIdOf(reply).Failure? ==> row.status == ErrorText(TaskIdOf(reply).error) && r == Returned(false))
      && (r == Returned(true) ==> StartsWith(row.result.fileUrl, ResultBase))
      && (|ticks| >= DefaultMaxRetries + 1 ==> r.Returned?)
      && (form.Failure? || TaskIdOf(reply).Failure? ==> row.progress == slot.progress && row.result == slot.result)
  {
    if form.Success? && TaskIdOf(reply).Success? {
      var cfg := DefaultConfig(variant, TaskIdOf(reply).value, fileName, format);
      var s := Start(cfg, slot.(status := SendingText));
      SuccessLeavesLink(cfg, s, ticks);
      if |ticks| >= DefaultMaxRetries + 1 {
        PollingSettles(cfg, s, ticks);
        NeverRejectedWithTaskId(cfg, s, ticks);
      }
    }
  }

  /** The body every converter shares once its form is built (or failed to
      build), with "Starting conversion" already on the row: report an
      encoding error, or show "Sending to server", post, and poll. */
  method SendAndPoll(ui: JobArrays, index: nat, fileName: string, format: string, variant: Variant,
                     form: Result<FormData, EncodeError>, reply: SubmitReply, ticks: seq<Reply>)
    returns (r: JobResult)
    requires ui.HasSlot(index)
    modifies ui
    ensures ui.HasSlot(index) && ui.OnlyRowChanged(index)
    ensures (ui.SlotAt(index), r) == AfterEncoding(old(ui.SlotAt(index)), fileName, format, variant, form, reply, ticks)
    ensures form.Success? ==>
      (|ui.statusLog| > |old(ui.statusLog)| && ui.statusLog[|old(ui.statusLog)|] == (index, SendingText))
  {
    if form.Failure? {
      ui.SetStatus(index, ErrorText(EncodeErrorMessage(form.error)));
      return Returned(false);
    }
    ui.SetStatus(index, SendingText);
    ghost var afterSending := ui.statusLog;
    var taskId := TaskIdOf(reply);
    if taskId.Failure? {
      ui.SetStatus(index, ErrorText(taskId.error));
      return Returned(false);
    }
    var cfg := DefaultConfig(variant, taskId.value, fileName, format);
    var poller := new Poller(cfg, index, ui);
    poller.Drive(ticks);
    assert afterSending <= ui.statusLog;
    r := ResultOf(poller.outcome);
  }
}
