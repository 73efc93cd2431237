/** The notification service (src/app/services/notifier.ts). Its effects on the
    queue, the event broker, the mailer and the HTTP response are recorded, in
    order, in the service's `log`. The mailer's outcome is passed in as
    `failure`: the error a send of that mail throws, or None when it goes out. */
module NotifierService {
  import opened Common
  import Env
  import Notifier

  /** An object of string values, as `data` arrives from JSON. */
  type Data = map<string, string>

  /** `Payload`; absent fields are None. */
  datatype Payload = Payload(priority: Option<int>, notifiers: Option<seq<string>>, event: Option<string>, data: Option<Data>)

  /** What `mailer.send` is given: the recipients and the send option. */
  datatype Mail = Mail(recipients: seq<Option<string>>, subject: Option<string>, template: Option<string>, payload: Data)

  datatype Backoff = Backoff(kind: string, delay: int)

  /** A job of the notification queue. */
  datatype Job = Job(id: nat, data: Option<Payload>)

  datatype Effect =
    | Send(mailer: Notifier.NotifierKind, mail: Mail)
    | AddJob(payload: Option<Payload>, priority: Option<int>, backoff: Backoff)
    | SubscribeTopic(topic: string)
    | RemoveJob(id: nat)
    | RegisterProcessor
    | JobDone(id: nat)
    | Fetch(url: Option<string>)
    | Reply(status: int, message: Option<string>)
    | AddRoute(path: string)
    | CloseQueue

  /** The fixed retry delay of every enqueued job, in milliseconds. */
  const RETRY_BACKOFF := Backoff("fixed", 1000)
  const NOTIFICATION_TOPIC := "notification"
  const DEFAULT_DRIVER := "ses"
  const SUBSCRIPTION_CONFIRMATION := "SubscriptionConfirmation"
  /** What destructuring `payload!` throws when the payload is undefined. */
  const NO_PAYLOAD := "Cannot destructure property 'notifiers' of 'payload' as it is undefined."
  /** What `JSON.parse(undefined)` throws. */
  const NO_MESSAGE := "\"undefined\" is not valid JSON"

  /** The mail `sendEmail(data)` sends: to `[recipient]`, with `subject` and
      `template`, and every other field of `data` as the template payload. */
  function MailOf(data: Data): (m: Mail)
    ensures m.recipients == [Lookup(data, "recipient")]
    ensures m.subject == Lookup(data, "subject") && m.template == Lookup(data, "template")
    ensures m.payload.Keys == data.Keys - {"recipient", "subject", "template"}
    ensures forall k :: k in m.payload ==> m.payload[k] == data[k]
  {
    Mail([Lookup(data, "recipient")], Lookup(data, "subject"), Lookup(data, "template"),
         map k | k in data && k !in {"recipient", "subject", "template"} :: data[k])
  }

  /** What `notify` does with a payload's notifiers and data: the mails it tries,
      in order, and the error of the first failing one, after which it stops. */
  datatype Run = Run(tried: seq<Mail>, error: Option<string>)

  function Notification(notifiers: seq<string>, data: Option<Data>, failure: Mail -> Option<string>): Run
  {
    if notifiers == [] then Run([], None)
    else
      var rest := Notification(notifiers[1..], data, failure);
      if notifiers[0] == "email" && data.Some? then
        var m := MailOf(data.value);
        if failure(m).Some? then Run([m], failure(m)) else Run([m] + rest.tried, rest.error)
      else rest
  }

  lemma NotificationUnfold(ns: seq<string>, data: Option<Data>, failure: Mail -> Option<string>)
    requires ns != []
    ensures var rest := Notification(ns[1..], data, failure);
      Notification(ns, data, failure) ==
        if ns[0] == "email" && data.Some? then
          (if failure(MailOf(data.value)).Some? then Run([MailOf(data.value)], failure(MailOf(data.value)))
           else Run([MailOf(data.value)] + rest.tried, rest.error))
        else rest
  {
  }

  /** The number of `'email'` entries. */
  function EmailCount(notifiers: seq<string>): nat {
    if notifiers == [] then 0
    else (if notifiers[0] == "email" then 1 else 0) + EmailCount(notifiers[1..])
  }

  function Sends(mailer: Notifier.NotifierKind, mails: seq<Mail>): (effects: seq<Effect>)
    ensures |effects| == |mails|
    ensures forall k :: 0 <= k < |mails| ==> effects[k] == Send(mailer, mails[k])
  {
    seq(|mails|, k requires 0 <= k < |mails| => Send(mailer, mails[k]))
  }

  lemma SendsCons(mailer: Notifier.NotifierKind, m: Mail, mails: seq<Mail>)
    ensures Sends(mailer, [m] + mails) == [Send(mailer, m)] + Sends(mailer, mails)
  {
  }

  /** When every send goes out, one mail of `data` goes out per `'email'` entry,
      and no error is raised. */
  lemma {:induction false} NotificationAllSent(notifiers: seq<string>, data: Data, failure: Mail -> Option<string>)
    requires failure(MailOf(data)).None?
    ensures Notification(notifiers, Some(data), failure).error.None?
    ensures |Notification(notifiers, Some(data), failure).tried| == EmailCount(notifiers)
    ensures forall k :: 0 <= k < |Notification(notifiers, Some(data), failure).tried| ==>
      Notification(notifiers, Some(data), failure).tried[k] == MailOf(data)
  {
    if notifiers != [] {
      NotificationAllSent(notifiers[1..], data, failure);
    }
  }

  /** Without data, or without any `'email'` entry, nothing is sent. */
  lemma {:induction false} NotificationWithoutEmail(notifiers: seq<string>, data: Option<Data>, failure: Mail -> Option<string>)
    requires data.None? || "email" !in notifiers
    ensures Notification(notifiers, data, failure) == Run([], None)
  {
    if notifiers != [] {
      assert "email" !in notifiers ==> "email" !in notifiers[1..];
      NotificationWithoutEmail(notifiers[1..], data, failure);
    }
  }

  /** A name other than `'email'` is ignored, wherever it stands. */
  lemma {:induction false} NotificationIgnoresOtherNames(xs: seq<string>, name: string, ys: seq<string>,
                                                         data: Option<Data>, failure: Mail -> Option<string>)
    requires name != "email"
    ensures Notification(xs + [name] + ys, data, failure) == Notification(xs + ys, data, failure)
  {
    if xs == [] {
      assert xs + [name] + ys == [name] + ys;
      assert ([name] + ys)[1..] == ys;
      assert xs + ys == ys;
    } else {
      NotificationIgnoresOtherNames(xs[1..], name, ys, data, failure);
      assert (xs + [name] + ys)[1..] == xs[1..] + [name] + ys;
      assert (xs + ys)[1..] == xs[1..] + ys;
    }
  }

  /** A raised error is the first failing mail's, which is the last one tried;
      every mail before it went out. */
  lemma {:induction false} NotificationStopsAtFailure(notifiers: seq<string>, data: Option<Data>, failure: Mail -> Option<string>)
    ensures var run := Notification(notifiers, data, failure);
      run.error.Some? ==> |run.tried| >= 1 && failure(run.tried[|run.tried| - 1]) == run.error
    ensures var run := Notification(notifiers, data, failure);
      run.error.None? ==> forall k :: 0 <= k < |run.tried| ==> failure(run.tried[k]).None?
    ensures var run := Notification(notifiers, data, failure);
      forall k :: 0 <= k < |run.tried| - 1 ==> failure(run.tried[k]).None?
  {
    if notifiers != [] {
      NotificationStopsAtFailure(notifiers[1..], data, failure);
    }
  }

  /** The driver the service is configured with: `NOTIFIER_DRIVER`, else `ses`. */
  function Driver(environment: map<string, string>): (d: string)
    ensures "NOTIFIER_DRIVER" in environment && environment["NOTIFIER_DRIVER"] != "" ==> d == environment["NOTIFIER_DRIVER"]
    ensures ("NOTIFIER_DRIVER" !in environment || environment["NOTIFIER_DRIVER"] == "") ==> d == DEFAULT_DRIVER
  {
    Env.GetString(environment, "NOTIFIER_DRIVER", Some(DEFAULT_DRIVER))
  }

  /** The fields of an SNS notice the webhook reads. */
  datatype Notice = Notice(kind: Option<string>, subscribeUrl: Option<string>, message: Option<string>)

  function PriorityOf(payload: Option<Payload>): Option<int> {
    if payload.Some? then payload.value.priority else None
  }

  /** The outcome of `notify(payload)`. */
  function NotifyResult(payload: Option<Payload>, failure: Mail -> Option<string>): Result<()> {
    if payload.None? then Err(NO_PAYLOAD)
    else if payload.value.notifiers.None? then Ok(())
    else
      var run := Notification(payload.value.notifiers.value, payload.value.data, failure);
      if run.error.Some? then Err(run.error.value) else Ok(())
  }

  /** The effects of `notify(payload)`. */
  function NotifyEffects(mailer: Notifier.NotifierKind, payload: Option<Payload>, failure: Mail -> Option<string>): seq<Effect> {
    if payload.None? || payload.value.notifiers.None? then []
    else Sends(mailer, Notification(payload.value.notifiers.value, payload.value.data, failure).tried)
  }

  /** What recovering the failed jobs does: for each job in order, its
      notification's sends and then its removal, stopping at the first job whose
      notification fails, before that job is removed. */
  datatype Recovered = Recovered(effects: seq<Effect>, result: Result<()>)

  function Recovery(mailer: Notifier.NotifierKind, failed: seq<Job>, failure: Mail -> Option<string>): Recovered
  {
    if failed == [] then Recovered([], Ok(()))
    else
      var job := failed[0];
      var sent := NotifyEffects(mailer, job.data, failure);
      if NotifyResult(job.data, failure).Err? then Recovered(sent, NotifyResult(job.data, failure))
      else
        var rest := Recovery(mailer, failed[1..], failure);
        Recovered(sent + [RemoveJob(job.id)] + rest.effects, rest.result)
  }

  lemma RecoveryUnfold(mailer: Notifier.NotifierKind, failed: seq<Job>, failure: Mail -> Option<string>)
    requires failed != []
    ensures var n := NotifyResult(failed[0].data, failure);
      var sent := NotifyEffects(mailer, failed[0].data, failure);
      var rest := Recovery(mailer, failed[1..], failure);
      Recovery(mailer, failed, failure)
        == if n.Err? then Recovered(sent, n) else Recovered(sent + [RemoveJob(failed[0].id)] + rest.effects, rest.result)
  {
  }

  /** Recovery succeeds exactly when every failed job's notification does. */
  lemma {:induction false} RecoverySucceedsIffAll(mailer: Notifier.NotifierKind, failed: seq<Job>, failure: Mail -> Option<string>)
    ensures Recovery(mailer, failed, failure).result.Ok? <==>
      forall k :: 0 <= k < |failed| ==> NotifyResult(failed[k].data, failure).Ok?
  {
    if failed != [] {
      RecoverySucceedsIffAll(mailer, failed[1..], failure);
      assert forall k :: 1 <= k < |failed| ==> failed[k] == failed[1..][k - 1];
    }
  }

  /** A failing recovery raises the error of the first job whose notification
      fails; its effects are those of recovering the jobs before it, which are
      all removed, followed by the failing job's sends: that job is not removed
      and the later jobs are not touched. */
  lemma RecoveryStopsAtFirstFailure(mailer: Notifier.NotifierKind, failed: seq<Job>, failure: Mail -> Option<string>, k: nat)
    requires k < |failed| && NotifyResult(failed[k].data, failure).Err?
    requires forall j :: 0 <= j < k ==> NotifyResult(failed[j].data, failure).Ok?
    ensures Recovery(mailer, failed, failure).result == NotifyResult(failed[k].data, failure)
    ensures Recovery(mailer, failed, failure).effects
      == Recovery(mailer, failed[..k], failure).effects + NotifyEffects(mailer, failed[k].data, failure)
    ensures forall j :: 0 <= j < k ==> RemoveJob(failed[j].id) in Recovery(mailer, failed, failure).effects
  {
    RecoveryPrefix(mailer, failed, failure, k);
    var before := failed[..k];
    RecoveryRemovesAll(mailer, before, failure);
    forall j | 0 <= j < k
      ensures RemoveJob(failed[j].id) in Recovery(mailer, failed, failure).effects
    {
      assert before[j] == failed[j];
    }
  }

  lemma RecoveryPrefix(mailer: Notifier.NotifierKind, failed: seq<Job>, failure: Mail -> Option<string>, k: nat)
    requires k < |failed| && NotifyResult(failed[k].data, failure).Err?
    requires forall j :: 0 <= j < k ==> NotifyResult(failed[j].data, failure).Ok?
    ensures Recovery(mailer, failed, failure).result == NotifyResult(failed[k].data, failure)
    ensures Recovery(mailer, failed, failure).effects
      == Recovery(mailer, failed[..k], failure).effects + NotifyEffects(mailer, failed[k].data, failure)
  {
    var pre, post := failed[..k], failed[k..];
    assert failed == pre + post;
    assert forall j :: 0 <= j < |pre| ==> pre[j] == failed[j];
    RecoveryAppend(mailer, pre, post, failure);
    assert post[0] == failed[k];
    RecoveryUnfold(mailer, post, failure);
  }

  /** Recovering jobs that all notify successfully, then more jobs, is recovering
      the first jobs and then the others. */
  lemma {:induction false} RecoveryAppend(mailer: Notifier.NotifierKind, pre: seq<Job>, post: seq<Job>, failure: Mail -> Option<string>)
    requires forall j :: 0 <= j < |pre| ==> NotifyResult(pre[j].data, failure).Ok?
    ensures Recovery(mailer, pre + post, failure)
      == Recovered(Recovery(mailer, pre, failure).effects + Recovery(mailer, post, failure).effects,
                   Recovery(mailer, post, failure).result)
  {
    if pre == [] {
      assert pre + post == post;
    } else {
      var tail := pre[1..];
      var head := NotifyEffects(mailer, pre[0].data, failure) + [RemoveJob(pre[0].id)];
      assert (pre + post)[0] == pre[0] && (pre + post)[1..] == tail + post;
      assert forall j :: 0 <= j < |tail| ==> tail[j] == pre[j + 1];
      assert NotifyResult(pre[0].data, failure).Ok?;
      RecoveryAppend(mailer, tail, post, failure);
      RecoveryUnfold(mailer, pre + post, failure);
      RecoveryUnfold(mailer, pre, failure);
      AppendAssoc(head, Recovery(mailer, tail, failure).effects, Recovery(mailer, post, failure).effects);
    }
  }

  /** When every job notifies successfully, every one of them is removed. */
  lemma {:induction false} RecoveryRemovesAll(mailer: Notifier.NotifierKind, jobs: seq<Job>, failure: Mail -> Option<string>)
    requires forall j :: 0 <= j < |jobs| ==> NotifyResult(jobs[j].data, failure).Ok?
    ensures forall j :: 0 <= j < |jobs| ==> RemoveJob(jobs[j].id) in Recovery(mailer, jobs, failure).effects
  {
    if jobs != [] {
      var tail := jobs[1..];
      assert forall j :: 0 <= j < |tail| ==> tail[j] == jobs[j + 1];
      RecoveryRemovesAll(mailer, tail, failure);
      RecoveryUnfold(mailer, jobs, failure);
      forall j | 0 < j < |jobs|
        ensures RemoveJob(jobs[j].id) in Recovery(mailer, jobs, failure).effects
      {
        assert tail[j - 1] == jobs[j];
      }
    }
  }

  class NotifierService {
    const mailer: Notifier.NotifierKind
    var log: seq<Effect>

    constructor(mailer: Notifier.NotifierKind)
      ensures this.mailer == mailer && log == []
    {
      this.mailer := mailer;
      log := [];
    }

    /** `enqueue(payload)`: one job carrying the payload, at its priority, with
        the fixed backoff. */
    method Enqueue(payload: Option<Payload>)
      modifies this
      ensures log == old(log) + [AddJob(payload, PriorityOf(payload), RETRY_BACKOFF)]
    {
      var priority := if payload.Some? then payload.value.priority else None;
      log := log + [AddJob(payload, priority, RETRY_BACKOFF)];
    }

    /** `notify(payload)`: the sends of Notification, one after another. */
    method Notify(payload: Option<Payload>, failure: Mail -> Option<string>) returns (r: Result<()>)
      modifies this
      ensures r == NotifyResult(payload, failure)
      ensures log == old(log) + NotifyEffects(mailer, payload, failure)
    {
      if payload.None? {
        return Err(NO_PAYLOAD);
      }
      var notifiers := payload.value.notifiers;
      if notifiers.None? {
        return Ok(());
      }
      r := NotifyEach(notifiers.value, payload.value.data, failure);
    }

    /** The loop of `notify` over the notifier names. */
    method NotifyEach(ns: seq<string>, data: Option<Data>, failure: Mail -> Option<string>) returns (r: Result<()>)
      modifies this
      ensures var run := Notification(ns, data, failure);
        r == (if run.error.Some? then Err(run.error.value) else Ok(()))
        && log == old(log) + Sends(mailer, run.tried)
    {
      var todo := ns;
      while todo != []
        invariant old(log) + Sends(mailer, Notification(ns, data, failure).tried)
          == log + Sends(mailer, Notification(todo, data, failure).tried)
        invariant Notification(ns, data, failure).error == Notification(todo, data, failure).error
        decreases |todo|
      {
        NotificationUnfold(todo, data, failure);
        ghost var before := log;
        ghost var rest := Notification(todo[1..], data, failure);
        if todo[0] == "email" && data.Some? {
          ghost var m := MailOf(data.value);
          SendsCons(mailer, m, rest.tried);
          var sent := SendEmail(data.value, failure);
          if sent.Err? {
            assert Sends(mailer, [m]) == [Send(mailer, m)];
            return sent;
          }
          AppendAssoc(before, [Send(mailer, m)], Sends(mailer, rest.tried));
        }
        todo := todo[1..];
      }
      assert log + [] == log;
      r := Ok(());
    }

    /** `sendEmail(data)`: one mail to the recipient, with the rest of the data as
        the template's payload. */
    method SendEmail(data: Data, failure: Mail -> Option<string>) returns (r: Result<()>)
      modifies this
      ensures r == (if failure(MailOf(data)).Some? then Err(failure(MailOf(data)).value) else Ok(()))
      ensures log == old(log) + [Send(mailer, MailOf(data))]
    {
      var m := MailOf(data);
      log := log + [Send(mailer, m)];
      r := if failure(m).Some? then Err(failure(m).value) else Ok(());
    }

    /** `init()`: subscribes `enqueue` to the notification topic, then notifies and
        removes each failed job in order, then registers the processor. A failing
        notification rejects `init` before that job is removed. */
    method Init(failed: seq<Job>, failure: Mail -> Option<string>) returns (r: Result<()>)
      modifies this
      ensures var recovered := Recovery(mailer, failed, failure);
        r == recovered.result
        && log == old(log) + [SubscribeTopic(NOTIFICATION_TOPIC)] + recovered.effects
                  + (if r.Ok? then [RegisterProcessor] else [])
    {
      log := log + [SubscribeTopic(NOTIFICATION_TOPIC)];
      r := Recover(failed, failure);
      if r.Ok? {
        log := log + [RegisterProcessor];
      }
    }

    /** The loop of `init` over the failed jobs. */
    method Recover(failed: seq<Job>, failure: Mail -> Option<string>) returns (r: Result<()>)
      modifies this
      ensures r == Recovery(mailer, failed, failure).result
      ensures log == old(log) + Recovery(mailer, failed, failure).effects
    {
      var todo := failed;
      while todo != []
        invariant old(log) + Recovery(mailer, failed, failure).effects == log + Recovery(mailer, todo, failure).effects
        invariant Recovery(mailer, failed, failure).result == Recovery(mailer, todo, failure).result
        decreases |todo|
      {
        var job := todo[0];
        RecoveryUnfold(mailer, todo, failure);
        ghost var before := log;
        ghost var step := NotifyEffects(mailer, job.data, failure) + [RemoveJob(job.id)];
        var n := Retry(job, failure);
        if n.Err? {
          return n;
        }
        AppendAssoc(before, step, Recovery(mailer, todo[1..], failure).effects);
        todo := todo[1..];
      }
      assert log + Recovery(mailer, todo, failure).effects == log;
      r := Ok(());
    }

    /** One failed job of `init`: notify, then remove the job; a failing
        notification leaves it in place. */
    method Retry(job: Job, failure: Mail -> Option<string>) returns (r: Result<()>)
      modifies this
      ensures r == NotifyResult(job.data, failure)
      ensures r.Ok? ==> log == old(log) + (NotifyEffects(mailer, job.data, failure) + [RemoveJob(job.id)])
      ensures r.Err? ==> log == old(log) + NotifyEffects(mailer, job.data, failure)
    {
      r := Notify(job.data, failure);
      if r.Ok? {
        log := log + [RemoveJob(job.id)];
      }
    }

    /** The processor registered by `init`: notify, remove the job, call `done`;
        a failing notification leaves the job in the queue. */
    method Process(job: Job, failure: Mail -> Option<string>) returns (r: Result<()>)
      modifies this
      ensures r == NotifyResult(job.data, failure)
      ensures r.Ok? ==> log == old(log) + NotifyEffects(mailer, job.data, failure) + [RemoveJob(job.id), JobDone(job.id)]
      ensures r.Err? ==> log == old(log) + NotifyEffects(mailer, job.data, failure)
    {
      r := Notify(job.data, failure);
      if r.Ok? {
        log := log + [RemoveJob(job.id), JobDone(job.id)];
      }
    }

    /** The `/subscribe` webhook on an already parsed body. A subscription
        confirmation fetches `SubscribeURL` and answers 200 without enqueuing;
        any other notice has its `Message` parsed and enqueued, then answered Ok. */
    method Subscribe(body: Notice, parse: string -> Result<Option<Payload>>, fetch: Option<string> -> Option<string>)
      returns (r: Result<()>)
      modifies this
      ensures body.kind == Some(SUBSCRIPTION_CONFIRMATION) ==>
        (if fetch(body.subscribeUrl).None? then r == Ok(()) && log == old(log) + [Fetch(body.subscribeUrl), Reply(200, None)]
         else r == Err(fetch(body.subscribeUrl).value) && log == old(log) + [Fetch(body.subscribeUrl)])
      ensures body.kind != Some(SUBSCRIPTION_CONFIRMATION) && body.message.Some? && parse(body.message.value).Ok? ==>
        r == Ok(()) && log == old(log) + [AddJob(parse(body.message.value).value, PriorityOf(parse(body.message.value).value), RETRY_BACKOFF), Reply(200, Some("Ok"))]
      ensures body.kind != Some(SUBSCRIPTION_CONFIRMATION) && body.message.None? ==> r == Err(NO_MESSAGE) && log == old(log)
      ensures body.kind != Some(SUBSCRIPTION_CONFIRMATION) && body.message.Some? && parse(body.message.value).Err? ==>
        r == Err(parse(body.message.value).message) && log == old(log)
    {
      if body.kind == Some(SUBSCRIPTION_CONFIRMATION) {
        log := log + [Fetch(body.subscribeUrl)];
        var failed := fetch(body.subscribeUrl);
        if failed.Some? {
          return Err(failed.value);
        }
        log := log + [Reply(200, None)];
        return Ok(());
      }
      if body.message.None? {
        return Err(NO_MESSAGE);
      }
      var payload := parse(body.message.value);
      if payload.Err? {
        return Err(payload.message);
      }
      Enqueue(payload.value);
      log := log + [Reply(200, Some("Ok"))];
      r := Ok(());
    }

    /** `createRoutes()`: mounts the webhook. */
    method CreateRoutes()
      modifies this
      ensures log == old(log) + [AddRoute("/api/v1/subscribe")]
    {
      log := log + [AddRoute("/api/v1/subscribe")];
    }

    /** `close()`: closes the queue. */
    method Close()
      modifies this
      ensures log == old(log) + [CloseQueue]
    {
      log := log + [CloseQueue];
    }
  }


  /** Building the service: its mailer is the notifier the driver names; an
      unknown driver throws and no service exists. */
  method NewService(environment: map<string, string>) returns (r: Result<NotifierService>)
    ensures Notifier.Create(Driver(environment)).Err? ==> r == Err(Notifier.Create(Driver(environment)).message)
    ensures Notifier.Create(Driver(environment)).Ok? ==>
      r.Ok? && fresh(r.value) && r.value.mailer == Notifier.Create(Driver(environment)).value && r.value.log == []
  {
    var mailer := Notifier.Create(Driver(environment));
    if mailer.Err? {
      return Err(mailer.message);
    }
    var service := new NotifierService(mailer.value);
    r := Ok(service);
  }

  /** Without `NOTIFIER_DRIVER` the service mails through SES. */
  lemma DefaultMailerIsSes(environment: map<string, string>)
    requires "NOTIFIER_DRIVER" !in environment
    ensures Notifier.Create(Driver(environment)) == Ok(Notifier.SesNotifierKind)
  {
  }
}
