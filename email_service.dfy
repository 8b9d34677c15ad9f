/**
 * The email service's `EmailService`: every email becomes one 'send-email'
 * job on the queue and one QUEUED row in the email log. Bulk sends fan out
 * to one job and one row per recipient, staggered 100 ms apart; the
 * back-in-stock handler sends one email per subscriber. Status updates from
 * the worker stamp `sentAt` and `deliveredAt`. The queue hands out job ids
 * 1, 2, 3, ...; the log's rows are kept in insertion order.
 */
module Emails {
  import opened Wrappers
  import opened JsText

  /** Template variables; values are kept as text. */
  type Variables = map<string, string>

  /** `SendEmailDto`; `attachments` is the number of attachments when the array is present. */
  datatype SendEmailDto = SendEmailDto(
    to: string,
    subject: Option<string>,
    template: string,
    variables: Variables,
    priority: Option<int>,
    attachments: Option<nat>)

  /** The options passed to `queue.add`; `delay` is in milliseconds. */
  datatype JobOptions = JobOptions(priority: int, delay: int)

  datatype Job = Job(id: nat, name: string, data: SendEmailDto, opts: JobOptions)

  datatype EmailStatus = Queued | Sent | Failed | Bounced | Delivered

  /** The `metadata` column: what a single send, a bulk send or a provider reply stores there. */
  datatype Metadata =
    | SingleMeta(variables: Variables, attachments: nat)
    | BulkMeta(variables: Variables, bulkId: string)
    | ProviderMeta(providerResponse: string)

  /** An `EmailLog` row; times are milliseconds. */
  datatype EmailLog = EmailLog(
    recipient: string,
    subject: Option<string>,
    template: string,
    status: EmailStatus,
    provider: string,
    jobId: string,
    metadata: Metadata,
    error: Option<string>,
    sentAt: Option<int>,
    deliveredAt: Option<int>)

  /** `priority || fallback`: a missing or zero priority takes the fallback. */
  function PriorityOr(priority: Option<int>, fallback: int): (r: int)
    ensures priority.Some? && priority.value != 0 ==> r == priority.value
    ensures priority.None? || priority.value == 0 ==> r == fallback
  {
    if priority.Some? && priority.value != 0 then priority.value else fallback
  }

  /** The delay of the k-th job of a fan-out: `k * stagger` milliseconds. */
  function Stagger(k: nat, stagger: int): (r: int) {
    k * stagger
  }

  /**
   * The first `n` jobs queued for `emails`, the first with id `firstId`:
   * the k-th has priority `emails[k].priority || fallback` and delay
   * `k * stagger`.
   */
  function QueuedJobs(firstId: nat, emails: seq<SendEmailDto>, fallback: int, stagger: int, n: nat): (r: seq<Job>)
    requires n <= |emails|
  {
    if n == 0 then []
    else
      var job := Job(firstId + n - 1, "send-email", emails[n - 1],
                     JobOptions(PriorityOr(emails[n - 1].priority, fallback), Stagger(n - 1, stagger)));
      QueuedJobs(firstId, emails, fallback, stagger, n - 1) + [job]
  }

  /** Job k of a fan-out has id `firstId + k`, carries email k, and waits `k * stagger`. */
  lemma {:induction false} QueuedJobsAt(firstId: nat, emails: seq<SendEmailDto>, fallback: int, stagger: int, n: nat)
    requires n <= |emails|
    ensures var jobs := QueuedJobs(firstId, emails, fallback, stagger, n);
      && |jobs| == n
      && forall k | 0 <= k < n ::
           && jobs[k].id == firstId + k && jobs[k].name == "send-email" && jobs[k].data == emails[k]
           && jobs[k].opts == JobOptions(PriorityOr(emails[k].priority, fallback), k * stagger)
  {
    if n > 0 {
      QueuedJobsAt(firstId, emails, fallback, stagger, n - 1);
    }
  }

  /** `jobs.map(job => job.id)`. */
  function IdsOf(jobs: seq<Job>): (r: seq<nat>)
    ensures |r| == |jobs| && forall k | 0 <= k < |jobs| :: r[k] == jobs[k].id
  {
    seq(|jobs|, k requires 0 <= k < |jobs| => jobs[k].id)
  }

  /** The ids `firstId`, `firstId + 1`, ..., `n` of them. */
  function Consecutive(firstId: nat, n: nat): (r: seq<nat>)
    ensures |r| == n && forall k | 0 <= k < n :: r[k] == firstId + k
  {
    seq(n, k requires 0 <= k < n => firstId + k)
  }

  /** A fan-out's jobs carry consecutive ids. */
  lemma QueuedIds(firstId: nat, emails: seq<SendEmailDto>, fallback: int, stagger: int, n: nat)
    requires n <= |emails|
    ensures IdsOf(QueuedJobs(firstId, emails, fallback, stagger, n)) == Consecutive(firstId, n)
  {
    QueuedJobsAt(firstId, emails, fallback, stagger, n);
  }

  /** The row `sendEmail` and `sendBulkEmail` save for an email queued as job `jobId`. */
  function QueuedLog(email: SendEmailDto, jobId: nat, metadata: Metadata): (r: EmailLog) {
    EmailLog(email.to, email.subject, email.template, Queued, "default", IntToString(jobId), metadata, None, None, None)
  }

  /** The metadata of a single send: its variables and `attachments?.length || 0`. */
  function SingleMetaOf(email: SendEmailDto): (r: Metadata) {
    SingleMeta(email.variables, email.attachments.GetOr(0))
  }

  /** The first `n` rows logged for `emails`, queued from job id `firstId`, with their metadata. */
  function QueuedLogs(firstId: nat, emails: seq<SendEmailDto>, metadata: seq<Metadata>, n: nat): (r: seq<EmailLog>)
    requires n <= |emails| && n <= |metadata|
  {
    if n == 0 then []
    else QueuedLogs(firstId, emails, metadata, n - 1) + [QueuedLog(emails[n - 1], firstId + n - 1, metadata[n - 1])]
  }

  /**
   * Row k of a fan-out is QUEUED with the default provider, carries email k's
   * recipient, subject and template, and points at job `firstId + k`.
   */
  lemma QueuedLogsAt(firstId: nat, emails: seq<SendEmailDto>, metadata: seq<Metadata>, n: nat)
    requires n <= |emails| && n <= |metadata|
    ensures var logs := QueuedLogs(firstId, emails, metadata, n);
      && |logs| == n
      && forall k | 0 <= k < n ::
           && logs[k].recipient == emails[k].to && logs[k].subject == emails[k].subject
           && logs[k].template == emails[k].template && logs[k].status == Queued && logs[k].provider == "default"
           && logs[k].jobId == IntToString(firstId + k) && logs[k].metadata == metadata[k]
           && logs[k].sentAt.None? && logs[k].deliveredAt.None?
  {
    QueuedLogsIndex(firstId, emails, metadata, n);
  }

  /** Row k of a fan-out is the row `sendEmail` saves for email k as job `firstId + k`. */
  lemma {:induction false} QueuedLogsIndex(firstId: nat, emails: seq<SendEmailDto>, metadata: seq<Metadata>, n: nat)
    requires n <= |emails| && n <= |metadata|
    ensures var logs := QueuedLogs(firstId, emails, metadata, n);
      && |logs| == n
      && forall k | 0 <= k < n :: logs[k] == QueuedLog(emails[k], firstId + k, metadata[k])
  {
    if n > 0 {
      QueuedLogsIndex(firstId, emails, metadata, n - 1);
    }
  }

  /** One more `sendEmail` of the next email extends a run of single sends by its job and its row. */
  lemma SingleSendStep(firstId: nat, emails: seq<SendEmailDto>, i: nat)
    requires i < |emails|
    ensures QueuedJobs(firstId, emails, 10, 0, i + 1)
      == QueuedJobs(firstId, emails, 10, 0, i) + QueuedJobs(firstId + i, [emails[i]], 10, 0, 1)
    ensures QueuedLogs(firstId, emails, SingleMetadata(emails), i + 1)
      == QueuedLogs(firstId, emails, SingleMetadata(emails), i) + QueuedLogs(firstId + i, [emails[i]], [SingleMetaOf(emails[i])], 1)
  {
    assert Stagger(i, 0) == 0 == Stagger(0, 0);
  }

  // ----- Bulk sends -----

  datatype Recipient = Recipient(email: string, variables: Variables)

  /** `SendBulkEmailDto`. */
  datatype SendBulkEmailDto = SendBulkEmailDto(
    recipients: seq<Recipient>,
    subject: Option<string>,
    template: string,
    variables: Variables,
    priority: Option<int>)

  /** The email built for one recipient: shared variables overlaid with the recipient's own. */
  function BulkEmail(bulk: SendBulkEmailDto, recipient: Recipient): (r: SendEmailDto) {
    SendEmailDto(recipient.email, bulk.subject, bulk.template, bulk.variables + recipient.variables, bulk.priority, None)
  }

  function BulkEmails(bulk: SendBulkEmailDto): (r: seq<SendEmailDto>)
    ensures |r| == |bulk.recipients|
  {
    seq(|bulk.recipients|, k requires 0 <= k < |bulk.recipients| => BulkEmail(bulk, bulk.recipients[k]))
  }

  /** Each bulk row's metadata, with `bulk-<now>` read from the clock at that recipient's turn. */
  function BulkMetadata(bulk: SendBulkEmailDto, clock: seq<int>): (r: seq<Metadata>)
    requires |clock| == |bulk.recipients|
    ensures |r| == |bulk.recipients|
  {
    seq(|bulk.recipients|, k requires 0 <= k < |bulk.recipients| =>
      BulkMeta(bulk.variables + bulk.recipients[k].variables, "bulk-" + IntToString(clock[k])))
  }

  /**
   * Each recipient is addressed with the shared subject and template, and
   * their variables win over the shared ones on a clash.
   */
  lemma BulkEmailsPersonalised(bulk: SendBulkEmailDto)
    ensures forall k | 0 <= k < |bulk.recipients| ::
      var e := BulkEmails(bulk)[k];
      && e.to == bulk.recipients[k].email && e.subject == bulk.subject && e.template == bulk.template
      && e.variables.Keys == bulk.variables.Keys + bulk.recipients[k].variables.Keys
      && (forall key | key in bulk.recipients[k].variables :: e.variables[key] == bulk.recipients[k].variables[key])
      && (forall key | key in bulk.variables && key !in bulk.recipients[k].variables ::
            e.variables[key] == bulk.variables[key])
  {
  }

  // ----- Back in stock -----

  datatype Subscriber = Subscriber(email: string, name: string)

  /** The payload of a `product.back_in_stock` event; `subscribers` may be missing. */
  datatype BackInStockPayload = BackInStockPayload(
    productName: string,
    productUrl: string,
    productImage: string,
    originalPrice: string,
    currentPrice: string,
    subscribers: Option<seq<Subscriber>>)

  /** `event.payload.subscribers || []`. */
  function SubscribersOf(p: BackInStockPayload): (r: seq<Subscriber>) {
    p.subscribers.GetOr([])
  }

  /** The email one subscriber receives. */
  function BackInStockEmail(p: BackInStockPayload, s: Subscriber): (r: SendEmailDto) {
    SendEmailDto(
      s.email, Some(p.productName + " est de retour en stock !"), "back-in-stock",
      map["customerName" := s.name, "productName" := p.productName, "productUrl" := p.productUrl,
          "productImage" := p.productImage, "originalPrice" := p.originalPrice, "currentPrice" := p.currentPrice],
      Some(8), None)
  }

  function BackInStockEmails(p: BackInStockPayload): (r: seq<SendEmailDto>)
    ensures |r| == |SubscribersOf(p)|
  {
    seq(|SubscribersOf(p)|, k requires 0 <= k < |SubscribersOf(p)| => BackInStockEmail(p, SubscribersOf(p)[k]))
  }

  function SingleMetadata(emails: seq<SendEmailDto>): (r: seq<Metadata>)
    ensures |r| == |emails|
  {
    seq(|emails|, k requires 0 <= k < |emails| => SingleMetaOf(emails[k]))
  }

  /**
   * Every subscriber gets one back-in-stock email at priority 8, named and
   * addressed, in subscriber order; a payload without subscribers sends none.
   */
  lemma BackInStockFanOut(p: BackInStockPayload)
    ensures p.subscribers.None? ==> BackInStockEmails(p) == []
    ensures forall k | 0 <= k < |SubscribersOf(p)| ::
      var e := BackInStockEmails(p)[k];
      && e.to == SubscribersOf(p)[k].email && e.template == "back-in-stock"
      && PriorityOr(e.priority, 10) == 8
      && e.variables["customerName"] == SubscribersOf(p)[k].name && e.variables["productName"] == p.productName
  {
  }

  // ----- Status updates -----

  /**
   * The row after `update({ jobId }, ...)` from the worker: TypeORM leaves a
   * column alone when its new value is `undefined`, so `error` and
   * `metadata` change only when given, `sentAt` only on SENT and
   * `deliveredAt` only on DELIVERED.
   */
  function WithStatus(log: EmailLog, status: EmailStatus, error: Option<string>, providerResponse: Option<string>, now: int): (r: EmailLog) {
    log.(status := status,
         error := if error.Some? then error else log.error,
         sentAt := if status == Sent then Some(now) else log.sentAt,
         deliveredAt := if status == Delivered then Some(now) else log.deliveredAt,
         metadata := if providerResponse.Some? && providerResponse.value != "" then ProviderMeta(providerResponse.value) else log.metadata)
  }

  /** Every row whose job id matches gets the update; the others are unchanged. */
  function UpdateMatching(logs: seq<EmailLog>, jobId: string, status: EmailStatus, error: Option<string>,
                          providerResponse: Option<string>, now: int): (r: seq<EmailLog>)
    ensures |r| == |logs|
  {
    seq(|logs|, k requires 0 <= k < |logs| =>
      if logs[k].jobId == jobId then WithStatus(logs[k], status, error, providerResponse, now) else logs[k])
  }

  /**
   * After a status update the matching rows carry the new status; `sentAt`
   * is stamped exactly on SENT and `deliveredAt` exactly on DELIVERED, a
   * given error replaces the old one, the metadata becomes the provider's
   * response only when that response is a non-empty string, and rows of
   * other jobs are untouched. The same update twice is the same as once.
   */
  lemma StatusUpdateStamps(logs: seq<EmailLog>, jobId: string, status: EmailStatus, error: Option<string>,
                           providerResponse: Option<string>, now: int)
    ensures var r := UpdateMatching(logs, jobId, status, error, providerResponse, now);
      && (forall k | 0 <= k < |logs| && logs[k].jobId != jobId :: r[k] == logs[k])
      && (forall k | 0 <= k < |logs| && logs[k].jobId == jobId ::
            && r[k].status == status && r[k].recipient == logs[k].recipient && r[k].jobId == jobId
            && (r[k].sentAt != logs[k].sentAt ==> status == Sent && r[k].sentAt == Some(now))
            && (r[k].deliveredAt != logs[k].deliveredAt ==> status == Delivered && r[k].deliveredAt == Some(now))
            && (status == Sent ==> r[k].sentAt == Some(now))
            && (status == Delivered ==> r[k].deliveredAt == Some(now))
            && (error.None? ==> r[k].error == logs[k].error)
            && (error.Some? ==> r[k].error == error)
            && (providerResponse.None? || providerResponse.value == "" ==> r[k].metadata == logs[k].metadata)
            && (providerResponse.Some? && providerResponse.value != "" ==>
                  r[k].metadata == ProviderMeta(providerResponse.value)))
      && UpdateMatching(r, jobId, status, error, providerResponse, now) == r
  {
  }

  // ----- Log listing -----

  /** `Math.ceil(total / limit)` as JavaScript computes it, including a zero or negative limit. */
  datatype PageCount = Pages(n: int) | Infinity | NotANumber

  function PagesOf(total: nat, limit: int): (r: PageCount)
    ensures limit >= 1 ==> r.Pages? && (r.n - 1) * limit < total <= r.n * limit
    ensures limit == 0 ==> (r.NotANumber? <==> total == 0) && (r.Infinity? <==> total > 0)
    ensures limit < 0 ==> r.Pages? && r.n <= 0 && r.n * limit <= total < (r.n - 1) * limit
  {
    if limit >= 1 then Pages(CeilDiv(total, limit))
    else if limit == 0 then (if total == 0 then NotANumber else Infinity)
    else NegativePages(total, limit)
  }

  /** `Math.ceil(total / limit)` for a negative limit: minus the floor of `total / -limit`. */
  function NegativePages(total: nat, limit: int): (r: PageCount)
    requires limit < 0
    ensures r.Pages? && r.n <= 0 && r.n * limit <= total < (r.n - 1) * limit
  {
    var q := total / (-limit);
    assert q * (-limit) <= total < (q + 1) * (-limit);
    assert (-q) * limit == q * (-limit) && (-q - 1) * limit == (q + 1) * (-limit);
    Pages(-q)
  }

  datatype LogsMeta = LogsMeta(total: nat, page: int, limit: int, pages: PageCount)

  /** The row offset `getEmailLogs` asks the database for. */
  function LogsOffset(page: int, limit: int): (r: int)
    ensures page >= 1 && limit >= 0 ==> r >= 0
    ensures page == 1 ==> r == 0
  {
    (page - 1) * limit
  }

  /** The `meta` of `getEmailLogs` for `total` matching rows. */
  function EmailLogsMeta(total: nat, page: int, limit: int): (m: LogsMeta)
    ensures m.total == total && m.page == page && m.limit == limit
    ensures m.pages == PagesOf(total, limit)
  {
    LogsMeta(total, page, limit, PagesOf(total, limit))
  }

  /**
   * With a positive limit the reported pages hold every row and no page
   * beyond them starts before the end: the last page's offset is below
   * `total`, and the next page's is not.
   */
  lemma {:induction false} PagesCoverRows(total: nat, limit: int)
    requires limit >= 1
    ensures var m := EmailLogsMeta(total, 1, limit);
      && m.pages.Pages?
      && (total > 0 ==> m.pages.n >= 1 && LogsOffset(m.pages.n, limit) < total)
      && LogsOffset(m.pages.n + 1, limit) >= total
  {
    var n := PagesOf(total, limit).n;
    assert LogsOffset(n, limit) == (n - 1) * limit;
    assert LogsOffset(n + 1, limit) == n * limit;
    if total > 0 {
      assert n >= 1 by {
        if n <= 0 {
          assert false;
        }
      }
    }
  }

  /** The service: the queue's jobs and the email log's rows, both in the order they were added. */
  class EmailService {
    var jobs: seq<Job>
    var logs: seq<EmailLog>

    /** The queue numbers its jobs 1, 2, 3, ... */
    ghost predicate Valid()
      reads this
    {
      forall k | 0 <= k < |jobs| :: jobs[k].id == k + 1
    }

    constructor()
      ensures Valid() && jobs == [] && logs == []
    {
      jobs := [];
      logs := [];
    }

    /** `emailQueue.add('send-email', data, opts)`: the job gets the next id. */
    method Enqueue(data: SendEmailDto, opts: JobOptions) returns (job: Job)
      requires Valid()
      modifies this
      ensures Valid()
      ensures job == Job(|old(jobs)| + 1, "send-email", data, opts)
      ensures jobs == old(jobs) + [job] && logs == old(logs)
    {
      job := Job(|jobs| + 1, "send-email", data, opts);
      jobs := jobs + [job];
    }

    /** `emailLogRepository.save(row)`: the row is appended to the log. */
    method SaveLog(row: EmailLog)
      modifies this
      ensures logs == old(logs) + [row] && jobs == old(jobs)
    {
      logs := logs + [row];
    }

    /** One `emailQueue.add` followed by the save of the QUEUED row pointing at the new job. */
    method QueueAndLog(email: SendEmailDto, opts: JobOptions, metadata: Metadata) returns (job: Job)
      requires Valid()
      modifies this
      ensures Valid()
      ensures job == Job(|old(jobs)| + 1, "send-email", email, opts)
      ensures jobs == old(jobs) + [job]
      ensures logs == old(logs) + [QueuedLog(email, job.id, metadata)]
    {
      job := Enqueue(email, opts);
      SaveLog(QueuedLog(email, job.id, metadata));
    }

    /** `sendEmail(dto)`: one job at priority `dto.priority || 10`, and one QUEUED row pointing at it. */
    method SendEmail(email: SendEmailDto) returns (jobId: nat, emailLogId: nat)
      requires Valid()
      modifies this
      ensures Valid()
      ensures jobId == |old(jobs)| + 1 && emailLogId == |old(logs)|
      ensures jobs == old(jobs) + QueuedJobs(jobId, [email], 10, 0, 1)
      ensures logs == old(logs) + QueuedLogs(jobId, [email], [SingleMetaOf(email)], 1)
    {
      var job := Enqueue(email, JobOptions(PriorityOr(email.priority, 10), 0));
      jobId := job.id;
      emailLogId := |logs|;
      logs := logs + [QueuedLog(email, job.id, SingleMetaOf(email))];
    }

    /**
     * The loop of `sendBulkEmail`: for each email in turn, one job at
     * priority `email.priority || fallback` delayed `stagger` ms more than
     * the previous one, and one QUEUED row with that email's metadata.
     */
    method FanOut(emails: seq<SendEmailDto>, metadata: seq<Metadata>, fallback: int, stagger: int) returns (jobIds: seq<nat>)
      requires Valid() && |metadata| == |emails|
      modifies this
      ensures Valid()
      ensures jobIds == Consecutive(|old(jobs)| + 1, |emails|)
      ensures jobs == old(jobs) + QueuedJobs(|old(jobs)| + 1, emails, fallback, stagger, |emails|)
      ensures logs == old(logs) + QueuedLogs(|old(jobs)| + 1, emails, metadata, |emails|)
    {
      var firstId := |jobs| + 1;
      ghost var jobs0, logs0 := jobs, logs;
      var i := 0;
      while i < |emails|
        invariant 0 <= i <= |emails|
        invariant Valid()
        invariant jobs == jobs0 + QueuedJobs(firstId, emails, fallback, stagger, i)
        invariant logs == logs0 + QueuedLogs(firstId, emails, metadata, i)
        invariant |jobs| == |jobs0| + i
      {
        // i is the number of jobs this loop has queued so far
        var job := QueueAndLog(emails[i], JobOptions(PriorityOr(emails[i].priority, fallback), Stagger(i, stagger)), metadata[i]);
        i := i + 1;
      }
      QueuedIds(firstId, emails, fallback, stagger, i);
      jobIds := IdsOf(QueuedJobs(firstId, emails, fallback, stagger, i));
    }

    /**
     * `sendBulkEmail(dto)`: one email per recipient, at priority
     * `dto.priority || 5` and staggered by 100 ms. `clock` holds the
     * `Date.now()` read at each recipient.
     */
    method SendBulkEmail(bulk: SendBulkEmailDto, clock: seq<int>) returns (totalEmails: nat, jobIds: seq<nat>)
      requires Valid() && |clock| == |bulk.recipients|
      modifies this
      ensures Valid()
      ensures totalEmails == |bulk.recipients|
      ensures jobIds == Consecutive(|old(jobs)| + 1, |bulk.recipients|)
      ensures jobs == old(jobs) + QueuedJobs(|old(jobs)| + 1, BulkEmails(bulk), 5, 100, |bulk.recipients|)
      ensures logs == old(logs) + QueuedLogs(|old(jobs)| + 1, BulkEmails(bulk), BulkMetadata(bulk, clock), |bulk.recipients|)
    {
      jobIds := FanOut(BulkEmails(bulk), BulkMetadata(bulk, clock), 5, 100);
      totalEmails := |jobIds|;
    }

    /** `updateEmailLogStatus(jobId, status, error, providerResponse)`, stamped at `now`. */
    method UpdateEmailLogStatus(jobId: string, status: EmailStatus, error: Option<string>, providerResponse: Option<string>, now: int)
      requires status != Queued
      modifies this
      ensures jobs == old(jobs)
      ensures logs == UpdateMatching(old(logs), jobId, status, error, providerResponse, now)
    {
      logs := UpdateMatching(logs, jobId, status, error, providerResponse, now);
    }

    /** The `product.back_in_stock` handler: one `sendEmail` per subscriber, in order. */
    method HandleProductBackInStock(payload: BackInStockPayload)
      requires Valid()
      modifies this
      ensures Valid()
      ensures jobs == old(jobs) + QueuedJobs(|old(jobs)| + 1, BackInStockEmails(payload), 10, 0, |SubscribersOf(payload)|)
      ensures logs == old(logs)
        + QueuedLogs(|old(jobs)| + 1, BackInStockEmails(payload), SingleMetadata(BackInStockEmails(payload)), |SubscribersOf(payload)|)
    {
      var subscribers := SubscribersOf(payload);
      var emails := BackInStockEmails(payload);
      var metadata := SingleMetadata(emails);
      var firstId := |jobs| + 1;
      ghost var jobs0, logs0 := jobs, logs;
      var i := 0;
      while i < |subscribers|
        invariant 0 <= i <= |subscribers|
        invariant Valid()
        invariant jobs == jobs0 + QueuedJobs(firstId, emails, 10, 0, i)
        invariant logs == logs0 + QueuedLogs(firstId, emails, metadata, i)
        invariant |jobs| == |jobs0| + i
      {
        var jobId, logId := SendEmail(BackInStockEmail(payload, subscribers[i]));
        SingleSendStep(firstId, emails, i);
        i := i + 1;
      }
    }
  }
}
