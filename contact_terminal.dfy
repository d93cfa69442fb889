/**
 * The contact form component: its form state machine, its append-only log and
 * its form fields. The component's `await` splits `handleSubmit` in two:
 * `BeginSubmit` runs before the pipeline is awaited and `Settle` after it.
 */
module ContactTerminal {
  import opened Wrappers
  import Uplink
  import RateLimit

  datatype FormState = Idle | Sending | Success | Error

  /** The `type` argument of `addLog`. */
  datatype LogType = InfoLog | ErrorLog | SuccessLog | WarningLog

  /** How the awaited `transmit` call settled: with a response, or by throwing. */
  datatype Settlement = Returned(response: Uplink.Response) | Threw(message: string)

  /** The form as first rendered and after a reset: every field empty. */
  const EmptyForm: Uplink.Payload := Uplink.Payload("", "", "", Some(""))

  const StartLine: string := "INITIATING ZOD VALIDATION PROTOCOL..."
  const EncryptLine: string := "ENCRYPTING PAYLOAD..."

  /** The bracketed tag of a log line. */
  function Prefix(t: LogType): (p: string)
    ensures p in {"ERR", "OK", "WARN", "SYS"}
    ensures p == "ERR" <==> t == ErrorLog
    ensures p == "OK" <==> t == SuccessLog
    ensures p == "WARN" <==> t == WarningLog
  {
    if t == ErrorLog then "ERR"
    else if t == SuccessLog then "OK"
    else if t == WarningLog then "WARN"
    else "SYS"
  }

  /** The colour class of a log line. */
  function Colour(t: LogType): (r: string)
    ensures (r == "text-red-500") <==> t == ErrorLog
    ensures (r == "text-emerald-500") <==> t == SuccessLog
    ensures (r == "text-amber-500") <==> t == WarningLog
  {
    if t == ErrorLog then "text-red-500"
    else if t == SuccessLog then "text-emerald-500"
    else if t == WarningLog then "text-amber-500"
    else "text-emerald-500/70"
  }

  /** `line` ends with `tail`. */
  predicate EndsWith(line: string, tail: string) {
    |tail| <= |line| && line[|line| - |tail|..] == tail
  }

  /** One log line; `clock` is the HH:MM:SS part of the current ISO time.
      The message is kept verbatim at the end of the line. */
  function Entry(t: LogType, clock: string, msg: string): (line: string)
    ensures EndsWith(line, msg)
  {
    "<span class=\"" + Colour(t) + "\">[" + Prefix(t) + "]</span> " + clock + " :: " + msg
  }

  /** Log lines with different types carry different tags. */
  lemma PrefixDistinguishesTypes(t: LogType, u: LogType)
    requires t != u
    ensures Prefix(t) != Prefix(u)
  {
  }

  /** The state the form settles in. */
  function SettledState(s: Settlement): (state: FormState)
    ensures state in {Success, Error}
    ensures state == Success <==> s.Returned? && s.response.status == 201
  {
    match s
    case Returned(r) => if r.status == 201 then Success else Error
    case Threw(_) => Error
  }

  /** The lines the form logs when the call settles. */
  function SettledLogs(s: Settlement, clock: string): (lines: seq<string>)
    ensures 1 <= |lines| <= 2
    ensures s.Returned? ==> EndsWith(lines[|lines| - 1], s.response.message)
  {
    match s
    case Returned(r) =>
      if r.status == 201 then [Entry(InfoLog, clock, EncryptLine), Entry(SuccessLog, clock, r.message)]
      else [Entry(ErrorLog, clock, r.message)]
    case Threw(m) => [Entry(ErrorLog, clock, "FATAL_EXCEPTION: " + m)]
  }

  /** End to end: a filled honeypot always shows the success panel. */
  lemma HoneypotShowsSuccess(stored: Option<seq<int>>, data: Uplink.Payload, env: Uplink.Env)
    requires Uplink.HoneypotHit(data)
    ensures SettledState(Returned(Uplink.Pipeline(stored, data, env).response)) == Success
  {
  }

  /**
   * End to end: the success panel is shown exactly when the honeypot is hit, or
   * the submission is admitted, valid, and then either redirected to the mail
   * client or accepted by the service.
   */
  lemma SuccessMeansAcceptedOrSilenced(stored: Option<seq<int>>, data: Uplink.Payload, env: Uplink.Env)
    ensures (SettledState(Returned(Uplink.Pipeline(stored, data, env).response)) == Success)
      <==> (|| Uplink.HoneypotHit(data)
            || (&& RateLimit.Check(stored, env.now, env.persisted).admitted
                && Uplink.FirstIssue(data, env.isEmail).None?
                && (!Uplink.Configured(env.serviceUrl) || env.post(Uplink.Clean(data)).Accepted?)))
  {
  }

  /** The component: its state, its log and its form fields. */
  class Terminal {
    var formState: FormState
    var logs: seq<string>
    var formData: Uplink.Payload
    /** The browser storage the pipeline uses. */
    const store: Uplink.LocalStore

    constructor (store: Uplink.LocalStore)
      ensures formState == Idle && logs == [] && formData == EmptyForm && this.store == store
    {
      formState := Idle;
      logs := [];
      formData := EmptyForm;
      this.store := store;
    }

    /** `addLog`: exactly one line is appended; the earlier ones stay as they were. */
    method AddLog(msg: string, t: LogType, clock: string)
      modifies this`logs
      ensures logs == old(logs) + [Entry(t, clock, msg)]
    {
      logs := logs + [Entry(t, clock, msg)];
    }

    /** `handleSubmit` up to the `await`: ignored while sending, otherwise the form
        enters SENDING and logs the start. */
    method BeginSubmit(clock: string) returns (started: bool)
      modifies this`formState, this`logs
      ensures started <==> old(formState) != Sending
      ensures !started ==> formState == old(formState) && logs == old(logs)
      ensures started ==> formState == Sending && logs == old(logs) + [Entry(InfoLog, clock, StartLine)]
    {
      if formState == Sending {
        return false;
      }
      formState := Sending;
      AddLog(StartLine, InfoLog, clock);
      started := true;
    }

    /** `handleSubmit` after the `await`: 201 shows success, anything else an error. */
    method Settle(s: Settlement, clock: string)
      modifies this`formState, this`logs
      ensures formState == SettledState(s)
      ensures logs == old(logs) + SettledLogs(s, clock)
    {
      match s
      case Returned(r) =>
        if r.status == 201 {
          AddLog(EncryptLine, InfoLog, clock);
          AddLog(r.message, SuccessLog, clock);
          formState := Success;
        } else {
          AddLog(r.message, ErrorLog, clock);
          formState := Error;
        }
      case Threw(m) =>
        formState := Error;
        AddLog("FATAL_EXCEPTION: " + m, ErrorLog, clock);
    }

    /** The whole of `handleSubmit`, run to completion. */
    method HandleSubmit(env: Uplink.Env, startClock: string, endClock: string)
      modifies this`formState, this`logs, store
      ensures old(formState) == Sending ==>
        formState == Sending && logs == old(logs) && store.limitEntry == old(store.limitEntry)
      ensures old(formState) != Sending ==>
        var o := Uplink.Pipeline(old(store.limitEntry), formData, env);
        && store.limitEntry == o.stored
        && formState == SettledState(Returned(o.response))
        && logs == old(logs) + [Entry(InfoLog, startClock, StartLine)] + SettledLogs(Returned(o.response), endClock)
    {
      var started := BeginSubmit(startClock);
      if !started {
        return;
      }
      var r, _ := Uplink.Transmit(store, formData, env);
      Settle(Returned(r), endClock);
    }

    /** The ESTABLISH_NEW_LINK button: back to IDLE with every field cleared. */
    method Reset()
      modifies this`formState, this`formData
      ensures formState == Idle && formData == EmptyForm
    {
      formState := Idle;
      formData := EmptyForm;
    }

    /** The honeypot input's `onChange`. */
    method SetHoney(v: string)
      modifies this`formData
      ensures formData.honey == Some(v)
      ensures formData.identity == old(formData.identity) && formData.frequency == old(formData.frequency)
      ensures formData.message == old(formData.message)
    {
      formData := formData.(honey := Some(v));
    }

    /** The identity input's `onChange`. */
    method SetIdentity(v: string)
      modifies this`formData
      ensures formData.identity == v
      ensures formData.frequency == old(formData.frequency) && formData.message == old(formData.message)
      ensures formData.honey == old(formData.honey)
    {
      formData := formData.(identity := v);
    }

    /** The address input's `onChange`. */
    method SetFrequency(v: string)
      modifies this`formData
      ensures formData.frequency == v
      ensures formData.identity == old(formData.identity) && formData.message == old(formData.message)
      ensures formData.honey == old(formData.honey)
    {
      formData := formData.(frequency := v);
    }

    /** The message input's `onChange`. */
    method SetMessage(v: string)
      modifies this`formData
      ensures formData.message == v
      ensures formData.identity == old(formData.identity) && formData.frequency == old(formData.frequency)
      ensures formData.honey == old(formData.honey)
    {
      formData := formData.(message := v);
    }
  }
}
