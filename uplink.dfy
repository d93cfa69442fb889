/**
 * The contact-form submission pipeline (`SecureUplink.transmit` and `purge`):
 * honeypot check, rate limit, schema validation, sanitisation, then delivery
 * by POST to the configured e-mail service or, with none configured, by a
 * pre-filled mailto compose action.
 *
 * `Pipeline` states the whole pipeline as a function of the stored rate-limit
 * entry; `Transmit` is the step-by-step version over the browser's storage
 * and is proved to agree with it.
 */
module Uplink {
  import opened Wrappers
  import RateLimit
  import Sanitize

  /** The submitted form. `honey` is the optional honeypot field. */
  datatype Payload = Payload(identity: string, frequency: string, message: string, honey: Option<string>)

  /** The normalised result handed back to the form. */
  datatype Response = Response(status: int, message: string)

  /** The sanitised record sent to the service (its metadata is not modelled). */
  datatype Outgoing = Outgoing(name: string, email: string, message: string, subject: string)

  /** What the service call gave: an ok response, a non-ok one carrying the
      body's `error` text ("" when there is none), or a thrown transport error. */
  datatype Delivery = Accepted | Refused(error: string) | Unreachable(reason: string)

  /** What the pipeline did beyond answering: nothing, opened the mail client,
      or POSTed the payload to the service. */
  datatype Effect =
    | NoDelivery
    | MailCompose(to: string, subject: string, body: string)
    | Posted(url: string, payload: Outgoing)

  /**
   * Everything outside the pipeline that it consults: the clock, whether the
   * storage write succeeds, the configured service URL, Zod's e-mail check, and
   * the service itself.
   */
  datatype Env = Env(
    now: int,
    persisted: bool,
    serviceUrl: string,
    isEmail: string -> bool,
    post: Outgoing -> Delivery)

  /** The response, the rate-limit entry afterwards, and the effect. */
  datatype Outcome = Outcome(response: Response, stored: Option<seq<int>>, effect: Effect)

  /** EMAIL_SERVICE_URL as shipped: empty, so the mailto fallback is used. */
  const EmailServiceUrl: string := ""
  /** FALLBACK_EMAIL. */
  const FallbackEmail: string := "contact@mehdioumassad.com"
  const Placeholder: string := "REPLACE_WITH_YOUR_ID"

  const IdentityMin: nat := 2
  const IdentityMax: nat := 100
  const MessageMin: nat := 10
  const MessageMax: nat := 5000

  const HoneypotReply: string := "PACKET_SECURE: Data written to cold storage."
  const ThrottleReply: string := "ERR_RATE_LIMIT: Traffic throttle active. Try again later."
  const RedirectReply: string := "REDIRECTING: Opening local mail relay..."
  const DeliveredReply: string := "PACKET_DELIVERED: Secure channel confirmed."
  const TransmissionTag: string := "ERR_TRANSMISSION: "

  // ---------------------------------------------------------------- validation

  /** The constraints of `ContactSchema`, each named by the issue it raises. */
  datatype Issue =
    | IdentityTooShort | IdentityTooLong | FrequencyNotEmail
    | MessageTooShort | MessageTooLong | HoneyNotEmpty

  /** The order in which the schema checks its constraints. */
  const SchemaOrder: seq<Issue> :=
    [IdentityTooShort, IdentityTooLong, FrequencyNotEmail, MessageTooShort, MessageTooLong, HoneyNotEmpty]

  function Rank(i: Issue): (k: nat)
    ensures k < |SchemaOrder| && SchemaOrder[k] == i
  {
    match i
    case IdentityTooShort => 0
    case IdentityTooLong => 1
    case FrequencyNotEmail => 2
    case MessageTooShort => 3
    case MessageTooLong => 4
    case HoneyNotEmpty => 5
  }

  /** Whether `data` breaks the constraint behind `i`. */
  predicate Violates(i: Issue, data: Payload, isEmail: string -> bool) {
    match i
    case IdentityTooShort => |data.identity| < IdentityMin
    case IdentityTooLong => |data.identity| > IdentityMax
    case FrequencyNotEmail => !isEmail(data.frequency)
    case MessageTooShort => |data.message| < MessageMin
    case MessageTooLong => |data.message| > MessageMax
    case HoneyNotEmpty => data.honey.Some? && |data.honey.value| > 0
  }

  /** The issue's message: the schema's own text where it gives one, else Zod's default. */
  function IssueText(i: Issue): (text: string)
    ensures text != []
  {
    match i
    case IdentityTooShort => "Identity too short"
    case IdentityTooLong => "String must contain at most 100 character(s)"
    case FrequencyNotEmail => "Invalid frequency format"
    case MessageTooShort => "Message buffer underflow"
    case MessageTooLong => "String must contain at most 5000 character(s)"
    case HoneyNotEmpty => "String must contain at most 0 character(s)"
  }

  /** Different issues are reported with different texts, so a 400 names
      which constraint was broken. */
  lemma IssueTextsDistinct(i: Issue, j: Issue)
    requires i != j
    ensures IssueText(i) != IssueText(j)
  {
  }

  /** The issues `safeParse` reports, in the order it finds them. */
  function Issues(order: seq<Issue>, data: Payload, isEmail: string -> bool): (found: seq<Issue>)
    ensures forall i :: i in found <==> i in order && Violates(i, data, isEmail)
  {
    if order == [] then []
    else (if Violates(order[0], data, isEmail) then [order[0]] else []) + Issues(order[1..], data, isEmail)
  }

  lemma {:induction false} IssuesStartWithFirstViolation(order: seq<Issue>, data: Payload, isEmail: string -> bool, k: nat)
    requires k < |order| && Violates(order[k], data, isEmail)
    requires forall j :: 0 <= j < k ==> !Violates(order[j], data, isEmail)
    ensures Issues(order, data, isEmail) != [] && Issues(order, data, isEmail)[0] == order[k]
  {
    if k > 0 {
      IssuesStartWithFirstViolation(order[1..], data, isEmail, k - 1);
    }
  }

  /**
   * `issues[0]` of a failed parse: `None` when the payload satisfies the schema,
   * otherwise the first constraint it breaks in schema order.
   */
  function FirstIssue(data: Payload, isEmail: string -> bool): (first: Option<Issue>)
    ensures first.None? <==> forall i :: !Violates(i, data, isEmail)
    ensures first.Some? ==> Violates(first.value, data, isEmail)
    ensures first.Some? ==> forall i :: Rank(i) < Rank(first.value) ==> !Violates(i, data, isEmail)
  {
    var found := Issues(SchemaOrder, data, isEmail);
    if found == [] then None
    else
      assert found[0] in found;
      FirstIssueIsEarliest(data, isEmail);
      Some(found[0])
  }

  lemma FirstIssueIsEarliest(data: Payload, isEmail: string -> bool)
    requires Issues(SchemaOrder, data, isEmail) != []
    ensures var first := Issues(SchemaOrder, data, isEmail)[0];
      forall i :: Rank(i) < Rank(first) ==> !Violates(i, data, isEmail)
  {
    var found := Issues(SchemaOrder, data, isEmail);
    assert found[0] in found;
    var k := FirstViolation(SchemaOrder, data, isEmail);
    assert SchemaOrder[Rank(found[0])] == found[0];
    IssuesStartWithFirstViolation(SchemaOrder, data, isEmail, k);
    RankOfOrder(k);
  }

  /** The index of the first constraint in `order` that `data` breaks, or `|order|`. */
  function FirstViolation(order: seq<Issue>, data: Payload, isEmail: string -> bool): (k: nat)
    ensures k <= |order|
    ensures forall j :: 0 <= j < k ==> !Violates(order[j], data, isEmail)
    ensures k < |order| ==> Violates(order[k], data, isEmail)
  {
    if order == [] || Violates(order[0], data, isEmail) then 0
    else 1 + FirstViolation(order[1..], data, isEmail)
  }

  lemma RankOfOrder(k: nat)
    requires k < |SchemaOrder|
    ensures Rank(SchemaOrder[k]) == k
  {
  }

  // ---------------------------------------------------------------- delivery

  /** The honeypot is filled in: `_honey` is present and non-empty. */
  predicate HoneypotHit(data: Payload) {
    data.honey.Some? && |data.honey.value| > 0
  }

  /** `part` occurs in `s` starting at index `k`. */
  predicate OccursAt(s: string, part: string, k: nat) {
    k + |part| <= |s| && s[k..k + |part|] == part
  }

  /** `String.prototype.includes`. */
  function Contains(s: string, part: string): (b: bool)
    ensures b <==> exists k: nat :: OccursAt(s, part, k)
    decreases |s|
  {
    if |s| < |part| then false
    else if s[..|part|] == part then
      assert OccursAt(s, part, 0);
      true
    else
      var b := Contains(s[1..], part);
      assert forall k: nat :: OccursAt(s[1..], part, k) <==> OccursAt(s, part, k + 1) by {
        forall k: nat ensures OccursAt(s[1..], part, k) <==> OccursAt(s, part, k + 1) {
          if k + 1 + |part| <= |s| {
            assert s[1..][k..k + |part|] == s[k + 1..k + 1 + |part|];
          }
        }
      }
      assert b ==> exists k: nat :: OccursAt(s, part, k) by {
        if b {
          var k: nat :| OccursAt(s[1..], part, k);
          assert OccursAt(s, part, k + 1);
        }
      }
      assert (exists k: nat :: OccursAt(s, part, k)) ==> b by {
        if exists k: nat :: OccursAt(s, part, k) {
          var k: nat :| OccursAt(s, part, k);
          assert k != 0;
          assert OccursAt(s[1..], part, k - 1);
        }
      }
      b
  }

  /** A service endpoint is configured: the URL is non-empty and not the placeholder. */
  predicate Configured(url: string): (b: bool)
    ensures b <==> url != [] && forall k: nat :: !OccursAt(url, Placeholder, k)
  {
    url != "" && !Contains(url, Placeholder)
  }

  /** The cleaned payload: every field sanitised, plus the mail subject. */
  function Clean(data: Payload): (out: Outgoing)
    ensures Sanitize.NoTag(out.name) && Sanitize.NoTag(out.email) && Sanitize.NoTag(out.message)
  {
    Sanitize.SanitizeLeavesNoTag(data.identity);
    Sanitize.SanitizeLeavesNoTag(data.frequency);
    Sanitize.SanitizeLeavesNoTag(data.message);
    Outgoing(
      Sanitize.SanitizeInput(data.identity),
      Sanitize.SanitizeInput(data.frequency),
      Sanitize.SanitizeInput(data.message),
      "[OBSIDIAN] Uplink from " + Sanitize.SanitizeInput(data.identity))
  }

  /** The body of the fallback e-mail (before URL encoding). */
  function MailBody(out: Outgoing): (body: string)
    ensures |body| >= 10 + |out.name| && body[..10 + |out.name|] == "IDENTITY: " + out.name
    ensures |body| >= |out.message| && body[|body| - |out.message|..] == out.message
  {
    "IDENTITY: " + out.name + "\nFREQUENCY: " + out.email + "\n\nDATA:\n" + out.message
  }

  /** The 500 reply for a failed service call. */
  function FailureReply(d: Delivery): (r: string)
    requires !d.Accepted?
    ensures |r| > |TransmissionTag| && r[..|TransmissionTag|] == TransmissionTag
    ensures d.Refused? && d.error != "" ==> r[|TransmissionTag|..] == d.error
    ensures d.Unreachable? && d.reason != "" ==> r[|TransmissionTag|..] == d.reason
    ensures d.Refused? && d.error == "" ==> r[|TransmissionTag|..] == "Server rejected payload"
    ensures d.Unreachable? && d.reason == "" ==> r[|TransmissionTag|..] == "Signal lost"
  {
    match d
    case Refused(error) => TransmissionTag + (if error == "" then "Server rejected payload" else error)
    case Unreachable(reason) => TransmissionTag + (if reason == "" then "Signal lost" else reason)
  }

  // ---------------------------------------------------------------- pipeline

  /**
   * `transmit` as a function of the stored rate-limit entry. It answers only
   * 201, 429, 400 or 500, and it delivers (by mail client or POST) exactly when
   * the honeypot is empty, the rate limit admits and the schema is satisfied.
   */
  function Pipeline(stored: Option<seq<int>>, data: Payload, env: Env): (o: Outcome)
    ensures o.response.status in {201, 429, 400, 500}
    ensures o.effect != NoDelivery <==>
      !HoneypotHit(data) && RateLimit.Check(stored, env.now, env.persisted).admitted
      && FirstIssue(data, env.isEmail).None?
  {
    if HoneypotHit(data) then
      Outcome(Response(201, HoneypotReply), stored, NoDelivery)
    else
      var v := RateLimit.Check(stored, env.now, env.persisted);
      if !v.admitted then
        Outcome(Response(429, ThrottleReply), v.stored, NoDelivery)
      else match FirstIssue(data, env.isEmail)
        case Some(issue) =>
          Outcome(Response(400, "ERR_VALIDATION: " + IssueText(issue)), v.stored, NoDelivery)
        case None =>
          var out := Clean(data);
          if !Configured(env.serviceUrl) then
            Outcome(Response(201, RedirectReply), v.stored, MailCompose(FallbackEmail, out.subject, MailBody(out)))
          else
            var d := env.post(out);
            Outcome(
              if d.Accepted? then Response(201, DeliveredReply) else Response(500, FailureReply(d)),
              v.stored,
              Posted(env.serviceUrl, out))
  }

  /** A filled honeypot is answered with a success and touches nothing:
      the rate-limit entry is as it was and nothing is delivered. */
  lemma HoneypotIsSilent(stored: Option<seq<int>>, data: Payload, env: Env)
    requires HoneypotHit(data)
    ensures Pipeline(stored, data, env) == Outcome(Response(201, HoneypotReply), stored, NoDelivery)
  {
  }

  /** Without a honeypot hit the rate-limit slot is used up before validation:
      the entry afterwards is the rate limiter's, whatever the answer is. */
  lemma SlotUsedBeforeValidation(stored: Option<seq<int>>, data: Payload, env: Env)
    requires !HoneypotHit(data)
    ensures Pipeline(stored, data, env).stored == RateLimit.Check(stored, env.now, env.persisted).stored
    ensures Pipeline(stored, data, env).response.status == 429
        <==> !RateLimit.Check(stored, env.now, env.persisted).admitted
  {
  }

  /** A 400 names the first broken constraint, and it is never the honeypot's,
      which the honeypot check has already answered. */
  lemma ValidationReportsFirstIssue(stored: Option<seq<int>>, data: Payload, env: Env)
    ensures var o := Pipeline(stored, data, env);
      o.response.status == 400 ==>
        && FirstIssue(data, env.isEmail).Some?
        && o.response.message == "ERR_VALIDATION: " + IssueText(FirstIssue(data, env.isEmail).value)
        && FirstIssue(data, env.isEmail).value != HoneyNotEmpty
  {
  }

  /** An admitted submission that breaks the schema is answered 400 with the first issue's text. */
  lemma RejectedWith(stored: Option<seq<int>>, data: Payload, env: Env, issue: Issue)
    requires !HoneypotHit(data) && RateLimit.Check(stored, env.now, env.persisted).admitted
    requires FirstIssue(data, env.isEmail) == Some(issue)
    ensures Pipeline(stored, data, env).response == Response(400, "ERR_VALIDATION: " + IssueText(issue))
  {
  }

  /** An empty identity is reported before a short message. */
  lemma EmptyIdentityReportedFirst(stored: Option<seq<int>>, data: Payload, env: Env)
    requires data.identity == "" && data.message == "short" && !HoneypotHit(data)
    requires RateLimit.Check(stored, env.now, env.persisted).admitted
    ensures Pipeline(stored, data, env).response == Response(400, "ERR_VALIDATION: " + IssueText(IdentityTooShort))
  {
    RejectedWith(stored, data, env, IdentityTooShort);
  }

  /** An identity of acceptable length (two characters, such as "Al", is the
      least) passes, and a bad address is then reported whatever the message is. */
  lemma BadAddressReported(stored: Option<seq<int>>, data: Payload, env: Env)
    requires IdentityMin <= |data.identity| <= IdentityMax
    requires !env.isEmail(data.frequency) && !HoneypotHit(data)
    requires RateLimit.Check(stored, env.now, env.persisted).admitted
    ensures Pipeline(stored, data, env).response == Response(400, "ERR_VALIDATION: " + IssueText(FrequencyNotEmail))
  {
    FrequencyReportedAfterIdentity(data, env.isEmail);
    RejectedWith(stored, data, env, FrequencyNotEmail);
  }

  lemma FrequencyReportedAfterIdentity(data: Payload, isEmail: string -> bool)
    requires IdentityMin <= |data.identity| <= IdentityMax && !isEmail(data.frequency)
    ensures FirstIssue(data, isEmail) == Some(FrequencyNotEmail)
  {
    var first := FirstIssue(data, isEmail);
    assert Violates(FrequencyNotEmail, data, isEmail);
  }

  /**
   * The delivery stage: with no endpoint configured (as shipped) the answer is a
   * 201 redirect that opens the mail client on the sanitised fields; otherwise
   * the sanitised payload is POSTed, an ok answer gives 201 and anything else 500.
   */
  lemma DeliveryStage(stored: Option<seq<int>>, data: Payload, env: Env)
    requires !HoneypotHit(data) && RateLimit.Check(stored, env.now, env.persisted).admitted
    requires FirstIssue(data, env.isEmail).None?
    ensures var o := Pipeline(stored, data, env);
      && (!Configured(env.serviceUrl) ==>
            o.response == Response(201, RedirectReply) && o.effect.MailCompose? && o.effect.to == FallbackEmail)
      && (Configured(env.serviceUrl) ==>
            o.effect == Posted(env.serviceUrl, Clean(data))
            && (o.response.status == 201 <==> env.post(Clean(data)).Accepted?)
            && (o.response.status == 500 <==> !env.post(Clean(data)).Accepted?))
  {
  }

  /** As shipped, and whenever the URL still holds the placeholder, no endpoint is configured. */
  lemma ShippedConfigUsesFallback(url: string)
    ensures !Configured(EmailServiceUrl)
    ensures Contains(url, Placeholder) ==> !Configured(url)
  {
  }

  /** Whatever is submitted, the stored entry never exceeds `MaxRequests` stamps
      if it did not before. */
  lemma PipelineKeepsEntrySmall(stored: Option<seq<int>>, data: Payload, env: Env)
    requires stored.Some? ==> |stored.value| <= RateLimit.MaxRequests
    ensures var after := Pipeline(stored, data, env).stored;
      after.Some? ==> |after.value| <= RateLimit.MaxRequests
  {
    RateLimit.CheckKeepsEntrySmall(stored, env.now, env.persisted);
  }

  /** Successive calls of `step`, each starting from the entry the previous one left. */
  function Chain(step: (Option<seq<int>>, Payload, Env) -> Outcome, stored: Option<seq<int>>,
                 subs: seq<(Payload, Env)>): (replies: seq<Response>)
    ensures |replies| == |subs|
    decreases |subs|
  {
    if subs == [] then []
    else
      var o := step(stored, subs[0].0, subs[0].1);
      [o.response] + Chain(step, o.stored, subs[1..])
  }

  /** Successive submissions, each starting from the entry the previous one left. */
  function Session(stored: Option<seq<int>>, subs: seq<(Payload, Env)>): (replies: seq<Response>)
    ensures |replies| == |subs|
  {
    Chain(Pipeline, stored, subs)
  }

  /** The submission times of a session. */
  function Times(subs: seq<(Payload, Env)>): (times: seq<int>)
    ensures |times| == |subs| && forall k :: 0 <= k < |subs| ==> times[k] == subs[k].1.now
  {
    seq(|subs|, k requires 0 <= k < |subs| => subs[k].1.now)
  }

  /** `step` answers a legitimate submission whose write succeeds as the rate
      limiter does, and leaves behind the entry the rate limiter writes. */
  ghost predicate FollowsLimiter(step: (Option<seq<int>>, Payload, Env) -> Outcome) {
    forall stored: Option<seq<int>>, data: Payload, env: Env :: !HoneypotHit(data) && env.persisted ==>
      && step(stored, data, env).stored == RateLimit.Check(stored, env.now, true).stored
      && (step(stored, data, env).response.status == 429 <==> !RateLimit.Check(stored, env.now, true).admitted)
  }

  /** The transmit pipeline is such a step. */
  lemma PipelineFollowsLimiter()
    ensures FollowsLimiter(Pipeline)
  {
    forall stored: Option<seq<int>>, data: Payload, env: Env | !HoneypotHit(data) && env.persisted
      ensures Pipeline(stored, data, env).stored == RateLimit.Check(stored, env.now, true).stored
      ensures Pipeline(stored, data, env).response.status == 429 <==> !RateLimit.Check(stored, env.now, true).admitted
    {
      SlotUsedBeforeValidation(stored, data, env);
    }
  }

  /** For any step that follows the rate limiter, the `k`-th legitimate call is
      answered 429 exactly when the `k`-th replayed rate-limit check rejects. */
  lemma {:induction false} ChainAt(step: (Option<seq<int>>, Payload, Env) -> Outcome, stored: Option<seq<int>>,
                                   subs: seq<(Payload, Env)>, times: seq<int>, k: nat)
    requires FollowsLimiter(step)
    requires k < |subs| == |times|
    requires forall i :: 0 <= i < |subs| ==> !HoneypotHit(subs[i].0) && subs[i].1.persisted
    requires forall i :: 0 <= i < |subs| ==> times[i] == subs[i].1.now
    ensures Chain(step, stored, subs)[k].status == 429 <==> !RateLimit.Replay(stored, times)[k]
    decreases k
  {
    var o := step(stored, subs[0].0, subs[0].1);
    var v := RateLimit.Check(stored, times[0], true);
    assert o.stored == v.stored && (o.response.status == 429 <==> !v.admitted);
    RateLimit.ReplayHead(stored, times);
    ChainHead(step, stored, subs);
    if k > 0 {
      ChainAt(step, v.stored, subs[1..], times[1..], k - 1);
    }
  }

  lemma ChainHead(step: (Option<seq<int>>, Payload, Env) -> Outcome, stored: Option<seq<int>>,
                  subs: seq<(Payload, Env)>)
    requires subs != []
    ensures var o := step(stored, subs[0].0, subs[0].1);
      Chain(step, stored, subs) == [o.response] + Chain(step, o.stored, subs[1..])
  {
  }

  /** The `k`-th submission of a legitimate session is throttled exactly when
      the `k`-th replayed rate-limit check rejects. */
  lemma SessionAt(stored: Option<seq<int>>, subs: seq<(Payload, Env)>, k: nat)
    requires k < |subs|
    requires forall i :: 0 <= i < |subs| ==> !HoneypotHit(subs[i].0) && subs[i].1.persisted
    ensures Session(stored, subs)[k].status == 429 <==> !RateLimit.Replay(stored, Times(subs))[k]
  {
    PipelineFollowsLimiter();
    ChainAt(Pipeline, stored, subs, Times(subs), k);
  }

  /** Without honeypot hits and with every write succeeding, a session is
      throttled exactly where the rate limiter alone, replayed at the same
      times, rejects. */
  lemma SessionFollowsReplay(stored: Option<seq<int>>, subs: seq<(Payload, Env)>)
    requires forall k :: 0 <= k < |subs| ==> !HoneypotHit(subs[k].0) && subs[k].1.persisted
    ensures forall k :: 0 <= k < |subs| ==>
      (Session(stored, subs)[k].status == 429 <==> !RateLimit.Replay(stored, Times(subs))[k])
  {
    forall k | 0 <= k < |subs|
      ensures Session(stored, subs)[k].status == 429 <==> !RateLimit.Replay(stored, Times(subs))[k]
    {
      SessionAt(stored, subs, k);
    }
  }

  /**
   * After a purge (or on a fresh browser), of any run of legitimate submissions
   * within one window the first `MaxRequests` are never throttled and every
   * later one is answered 429. The purged entry is a parameter fixed by the
   * precondition rather than the literal `Some([])`, so that the verifier does
   * not unfold the whole session on a constant argument.
   */
  lemma ThrottledAfterPurge(purged: Option<seq<int>>, subs: seq<(Payload, Env)>, lo: int)
    requires purged == Some([])
    requires forall k :: 0 <= k < |subs| ==> !HoneypotHit(subs[k].0) && subs[k].1.persisted
    requires forall k :: 0 <= k < |subs| ==> lo <= subs[k].1.now < lo + RateLimit.Window
    ensures forall k :: 0 <= k < |subs| ==>
      (Session(purged, subs)[k].status == 429 <==> k >= RateLimit.MaxRequests)
  {
    var times := Times(subs);
    assert forall t :: t in times ==> lo <= t < lo + RateLimit.Window;
    RateLimit.ThrottleAfterMax(times, lo);
    SessionFollowsReplay(purged, subs);
  }

  // ---------------------------------------------------------------- storage and methods

  /** The browser's local storage, reduced to the rate-limit entry
      'OBSIDIAN_UPLINK_LIMIT'. */
  class LocalStore {
    var limitEntry: Option<seq<int>>

    /** A fresh browser: no entry, which reads as the empty list. */
    constructor ()
      ensures limitEntry == Some([])
    {
      limitEntry := Some([]);
    }
  }

  /** `checkRateLimit`: read, prune, reject at the limit, else append `now` and write back. */
  method CheckRateLimit(store: LocalStore, now: int, persisted: bool) returns (admitted: bool)
    modifies store
    ensures RateLimit.Verdict(admitted, store.limitEntry) == RateLimit.Check(old(store.limitEntry), now, persisted)
  {
    match store.limitEntry
    case None =>
      // reading or parsing the entry threw: fail open
      admitted := true;
    case Some(stamps) =>
      var history := RateLimit.Prune(stamps, now);
      if |history| >= RateLimit.MaxRequests {
        return false;
      }
      history := history + [now];
      if persisted {
        store.limitEntry := Some(history);
      }
      admitted := true;
  }

  /** `SecureUplink.transmit`: the stages in order, each returning early. */
  method Transmit(store: LocalStore, data: Payload, env: Env) returns (r: Response, effect: Effect)
    modifies store
    ensures Outcome(r, store.limitEntry, effect) == Pipeline(old(store.limitEntry), data, env)
    ensures HoneypotHit(data) ==> r.status == 201 && effect == NoDelivery && unchanged(store)
  {
    if HoneypotHit(data) {
      return Response(201, HoneypotReply), NoDelivery;
    }
    var admitted := CheckRateLimit(store, env.now, env.persisted);
    if !admitted {
      return Response(429, ThrottleReply), NoDelivery;
    }
    var first := FirstIssue(data, env.isEmail);
    if first.Some? {
      return Response(400, "ERR_VALIDATION: " + IssueText(first.value)), NoDelivery;
    }
    var out := Clean(data);
    if !Configured(env.serviceUrl) {
      return Response(201, RedirectReply), MailCompose(FallbackEmail, out.subject, MailBody(out));
    }
    effect := Posted(env.serviceUrl, out);
    var d := env.post(out);
    if d.Accepted? {
      r := Response(201, DeliveredReply);
    } else {
      r := Response(500, FailureReply(d));
    }
  }

  /** `SecureUplink.purge`: the entry is removed, so it reads as the empty list. */
  method Purge(store: LocalStore) returns (r: Response)
    modifies store
    ensures store.limitEntry == Some([])
    ensures r == Response(200, "LOCAL_CACHE_PURGED")
  {
    store.limitEntry := Some([]);
    r := Response(200, "LOCAL_CACHE_PURGED");
  }
}
