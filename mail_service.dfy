/**
 * The e-mail queue of `internal/service/mail_service.go`: `QueueEmail` stores a
 * pending message, and each pass of the worker (`processQueue`) tries every
 * pending message and every failed one with fewer than three retries, marking
 * it sent or failed.
 *
 * Sending itself (`sendActualEmail`: MIME assembly, TLS, SMTP) is the parameter
 * `send`, which returns `None` on success and the error's text on failure.
 */
module MailService {
  import opened Wrappers
  import opened Text
  import opened Records

  const Pendiente: string := "PENDIENTE"
  const ErrorStatus: string := "ERROR"
  const Enviado: string := "ENVIADO"
  /** A failed message is retried while its retry count is below this. */
  const MaxRetries: int := 3

  /** The transport: the outcome of sending one message with the emitter's settings. */
  type Sender = (EmisorConfig, EmailQueue) -> Option<string>

  /** `QueueEmail`: a new message, pending, never tried. */
  function Queued(to: string, subject: string, body: string, attachment: Bytes, attachName: string): (e: EmailQueue)
    ensures e.status == Pendiente && e.retryCount == 0 && e.lastError == ""
    ensures e.to == to && e.subject == subject && e.body == body && e.attachment == attachment && e.attachName == attachName
  {
    EmailQueue(to, subject, body, attachment, attachName, Pendiente, 0, "")
  }

  method QueueEmail(store: Store, to: string, subject: string, body: string, attachment: Bytes, attachName: string)
    modifies store`emails
    ensures store.emails == old(store.emails) + [Queued(to, subject, body, attachment, attachName)]
  {
    var queueItem := EmailQueue(to, subject, body, attachment, attachName, Pendiente, 0, "");
    store.emails := store.emails + [queueItem];
  }

  /** The worker's query: pending, or failed with fewer than three retries. */
  predicate Eligible(e: EmailQueue)
  {
    e.status == Pendiente || (e.status == ErrorStatus && e.retryCount < MaxRetries)
  }

  /** The positions of the eligible messages, in table order. */
  function EligibleIndices(es: seq<EmailQueue>): (r: seq<nat>)
    ensures forall k :: 0 <= k < |r| ==> r[k] < |es| && Eligible(es[r[k]])
    ensures forall i :: 0 <= i < |es| && Eligible(es[i]) ==> i in r
    ensures forall k, l :: 0 <= k < l < |r| ==> r[k] < r[l]
  {
    if es == [] then []
    else
      var prev := EligibleIndices(es[..|es| - 1]);
      assert forall i :: 0 <= i < |es| - 1 ==> es[..|es| - 1][i] == es[i];
      if Eligible(es[|es| - 1]) then prev + [|es| - 1] else prev
  }

  /** A message after one attempt: failed with one more retry and the error kept, or sent with the error cleared. */
  function Attempted(e: EmailQueue, outcome: Option<string>): (r: EmailQueue)
  {
    match outcome
    case Some(msg) => e.(status := ErrorStatus, retryCount := e.retryCount + 1, lastError := msg)
    case None => e.(status := Enviado, lastError := "")
  }

  /** The worker needs an emitter configuration with an SMTP host and user. */
  predicate CanSend(config: Option<EmisorConfig>)
  {
    config.Some? && config.value.smtpHost != "" && config.value.smtpUser != ""
  }

  /** Every eligible message attempted once through `send`, the others as they were. */
  function AttemptAll(es: seq<EmailQueue>, config: EmisorConfig, send: Sender): (r: seq<EmailQueue>)
    ensures |r| == |es|
    ensures forall i :: 0 <= i < |es| ==>
      r[i] == if Eligible(es[i]) then Attempted(es[i], send(config, es[i])) else es[i]
  {
    seq(|es|, i requires 0 <= i < |es| => if Eligible(es[i]) then Attempted(es[i], send(config, es[i])) else es[i])
  }

  /** One pass of the worker over the table. */
  function QueuePass(es: seq<EmailQueue>, config: Option<EmisorConfig>, send: Sender): seq<EmailQueue>
  {
    if EligibleIndices(es) == [] || !CanSend(config) then es
    else AttemptAll(es, config.value, send)
  }

  /** The table after the messages at `idxs` of the snapshot `before` have been tried, one after the other. */
  function AttemptedAt(before: seq<EmailQueue>, idxs: seq<nat>, config: EmisorConfig, send: Sender): (r: seq<EmailQueue>)
    requires forall k :: 0 <= k < |idxs| ==> idxs[k] < |before|
    ensures |r| == |before|
  {
    if idxs == [] then before
    else
      var x := idxs[|idxs| - 1];
      AttemptedAt(before, idxs[..|idxs| - 1], config, send)[x := Attempted(before[x], send(config, before[x]))]
  }

  /** Each message is tried at most once, from its state in the snapshot, whatever the order of the positions. */
  lemma {:induction false} AttemptedAtPointwise(before: seq<EmailQueue>, idxs: seq<nat>, config: EmisorConfig, send: Sender)
    requires forall k :: 0 <= k < |idxs| ==> idxs[k] < |before|
    ensures forall i :: 0 <= i < |before| ==>
      AttemptedAt(before, idxs, config, send)[i] == if i in idxs then Attempted(before[i], send(config, before[i])) else before[i]
  {
    if idxs != [] {
      var init := idxs[..|idxs| - 1];
      AttemptedAtPointwise(before, init, config, send);
      assert forall i :: i in idxs <==> i in init || i == idxs[|idxs| - 1];
    }
  }

  /** `processQueue` against `QueuePass`: each eligible message of the snapshot is tried and saved once. */
  method ProcessQueue(store: Store, send: Sender)
    modifies store`emails
    ensures store.emails == QueuePass(old(store.emails), store.config, send)
  {
    var pending := EligibleIndices(store.emails);
    if |pending| == 0 {
      return;
    }
    if store.config.None? {
      return;
    }
    var config := store.config.value;
    if config.smtpHost == "" || config.smtpUser == "" {
      return;
    }
    var before := store.emails;
    SendEach(store, before, pending, config, send);
    AttemptedEligible(before, config, send);
  }

  /** The loop of `processQueue`: each position of the snapshot tried once, and its row saved. */
  method SendEach(store: Store, before: seq<EmailQueue>, pending: seq<nat>, config: EmisorConfig, send: Sender)
    requires store.emails == before
    requires forall k :: 0 <= k < |pending| ==> pending[k] < |before|
    modifies store`emails
    ensures store.emails == AttemptedAt(before, pending, config, send)
  {
    for k := 0 to |pending|
      invariant store.emails == AttemptedAt(before, pending[..k], config, send)
    {
      var idx := pending[k];
      var item := before[idx];
      var err := send(config, item);
      if err.Some? {
        item := item.(status := ErrorStatus, retryCount := item.retryCount + 1, lastError := err.value);
      } else {
        item := item.(status := Enviado, lastError := "");
      }
      assert item == Attempted(before[idx], send(config, before[idx]));
      assert pending[..k + 1][..k] == pending[..k];
      store.emails := store.emails[idx := item];
    }
    assert pending[..|pending|] == pending;
  }

  /** Trying the eligible positions of a snapshot, one after the other, is attempting all of it at once. */
  lemma AttemptedEligible(before: seq<EmailQueue>, config: EmisorConfig, send: Sender)
    ensures AttemptedAt(before, EligibleIndices(before), config, send) == AttemptAll(before, config, send)
  {
    var pending := EligibleIndices(before);
    AttemptedAtPointwise(before, pending, config, send);
    var r := AttemptedAt(before, pending, config, send);
    var a := AttemptAll(before, config, send);
    forall i | 0 <= i < |before|
      ensures r[i] == a[i]
    {
    }
  }

  /**
   * A pass never lowers a retry count, keeps the table's size, and leaves every
   * message that was not eligible exactly as it was; an eligible one is sent
   * with its error cleared, or failed with one more retry and the error's text.
   */
  lemma QueuePassOutcome(es: seq<EmailQueue>, config: Option<EmisorConfig>, send: Sender)
    ensures var r := QueuePass(es, config, send);
      && |r| == |es|
      && (forall i :: 0 <= i < |es| ==> r[i].retryCount >= es[i].retryCount)
      && (forall i :: 0 <= i < |es| && !Eligible(es[i]) ==> r[i] == es[i])
      && (!CanSend(config) ==> r == es)
      && (CanSend(config) ==> forall i :: 0 <= i < |es| && Eligible(es[i]) ==>
            (r[i].status == Enviado && r[i].lastError == "" && r[i].retryCount == es[i].retryCount)
            || (r[i].status == ErrorStatus && r[i].retryCount == es[i].retryCount + 1))
  {
  }

  /**
   * Attempting never rewrites a message's contents, and a message is sent
   * afterwards exactly when it already was, or was eligible and the transport
   * accepted it.
   */
  lemma AttemptAllKeepsContents(es: seq<EmailQueue>, config: EmisorConfig, send: Sender)
    ensures var r := AttemptAll(es, config, send);
      forall i :: 0 <= i < |es| ==>
        && r[i].to == es[i].to && r[i].subject == es[i].subject && r[i].body == es[i].body
        && r[i].attachment == es[i].attachment && r[i].attachName == es[i].attachName
        && (r[i].status == Enviado <==> es[i].status == Enviado || (Eligible(es[i]) && send(config, es[i]).None?))
  {
  }

  /**
   * A freshly queued message is picked up by the next pass of a configured
   * worker: it comes out sent with no retries, or failed with one retry and the
   * transport's error, its contents untouched.
   */
  lemma QueuedIsTried(es: seq<EmailQueue>, to: string, subject: string, body: string, attachment: Bytes, attachName: string,
                      config: Option<EmisorConfig>, send: Sender)
    requires CanSend(config)
    ensures var e := Queued(to, subject, body, attachment, attachName);
      var r := QueuePass(es + [e], config, send);
      var outcome := send(config.value, e);
      && |r| == |es| + 1
      && r[|es|].to == to && r[|es|].subject == subject && r[|es|].body == body
      && r[|es|].attachment == attachment && r[|es|].attachName == attachName
      && (outcome.None? ==> r[|es|].status == Enviado && r[|es|].retryCount == 0)
      && (outcome.Some? ==> r[|es|].status == ErrorStatus && r[|es|].retryCount == 1 && r[|es|].lastError == outcome.value)
  {
    var e := Queued(to, subject, body, attachment, attachName);
    assert (es + [e])[|es|] == e;
    assert |es| in EligibleIndices(es + [e]);
  }

  // ---------------------------------------------------------------- the retry ceiling

  /** A message through one pass, given what sending it would return in that pass. */
  function Step(e: EmailQueue, outcome: Option<string>): EmailQueue
  {
    if Eligible(e) then Attempted(e, outcome) else e
  }

  /** How many times a message is handed to the transport over a run of passes. */
  function AttemptsIn(e: EmailQueue, outcomes: seq<Option<string>>): nat
    decreases |outcomes|
  {
    if outcomes == [] then 0
    else (if Eligible(e) then 1 else 0) + AttemptsIn(Step(e, outcomes[0]), outcomes[1..])
  }

  /** The attempts a message has left. */
  function Budget(e: EmailQueue): nat
  {
    if e.status == Pendiente then 1 + (if e.retryCount < 2 then 2 - e.retryCount else 0)
    else if e.status == ErrorStatus && e.retryCount < MaxRetries then MaxRetries - e.retryCount
    else 0
  }

  lemma {:induction false} AttemptsWithinBudget(e: EmailQueue, outcomes: seq<Option<string>>)
    ensures AttemptsIn(e, outcomes) <= Budget(e)
    decreases |outcomes|
  {
    if outcomes != [] {
      AttemptsWithinBudget(Step(e, outcomes[0]), outcomes[1..]);
    }
  }

  /**
   * Whatever the transport answers, a queued message is handed to it at most
   * three times: the first try and two retries; the third failure leaves it at
   * three retries, which the worker's query no longer selects.
   */
  lemma AtMostThreeAttempts(to: string, subject: string, body: string, attachment: Bytes, attachName: string, outcomes: seq<Option<string>>)
    ensures AttemptsIn(Queued(to, subject, body, attachment, attachName), outcomes) <= 3
  {
    AttemptsWithinBudget(Queued(to, subject, body, attachment, attachName), outcomes);
  }

  /** A sent message, or one failed three times, is never selected again. */
  lemma SettledNeverRetried(e: EmailQueue, outcomes: seq<Option<string>>)
    requires e.status == Enviado || (e.status == ErrorStatus && e.retryCount >= MaxRetries)
    ensures AttemptsIn(e, outcomes) == 0
  {
    AttemptsWithinBudget(e, outcomes);
  }

  // ---------------------------------------------------------------- the SMTP host

  /** The host name for the TLS handshake and the authentication: `SMTPHost` up to its first ':'. */
  function AuthHost(smtpHost: string): (host: string)
    ensures host == smtpHost[..FirstIndexOfChar(smtpHost, ':')]
  {
    Split(smtpHost, ':')[0]
  }

  /** The host has no ':', and a host given without a port is used as it is. */
  lemma AuthHostShape(smtpHost: string)
    ensures forall i :: 0 <= i < |AuthHost(smtpHost)| ==> AuthHost(smtpHost)[i] != ':'
    ensures (forall i :: 0 <= i < |smtpHost| ==> smtpHost[i] != ':') ==> AuthHost(smtpHost) == smtpHost
  {
  }
}
