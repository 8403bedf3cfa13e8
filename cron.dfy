/**
 * The two scheduled-job endpoints, invoice generation and rent reminders.
 * Both run their job only behind the same bearer-secret gate; the jobs
 * themselves are not part of this model, only whether they ran and whether
 * they threw.
 */
module Cron {
  import opened Common

  /** What the job did when it ran: its result, or an exception. */
  datatype JobOutcome<R> = Finished(result: R) | Failed

  /** The route's answer: 401 text, 500 text, or `{ success: true, result }`. */
  datatype CronResponse<R> = Unauthorized | InternalError | Success(result: R)

  function Status<R>(r: CronResponse<R>): (code: int)
    ensures code == 200 <==> r.Success?
    ensures code == 401 <==> r.Unauthorized?
    ensures code == 500 <==> r.InternalError?
  {
    match r
    case Unauthorized => 401
    case InternalError => 500
    case Success(_) => 200
  }

  /** `!(cronSecret && authHeader !== \`Bearer ${cronSecret}\`)`. */
  predicate Authorized(secret: Option<string>, header: Option<string>) {
    !Truthy(secret) || header == Some("Bearer " + secret.value)
  }

  /**
   * `GET`: the response, and whether the job was started. `outcome` is what
   * the job would do if started.
   */
  function CronRoute<R>(secret: Option<string>, header: Option<string>, outcome: JobOutcome<R>)
    : (r: (CronResponse<R>, bool))
    ensures r.1 <==> Authorized(secret, header)
    ensures !r.1 ==> r.0 == Unauthorized
    ensures r.1 && outcome.Failed? ==> r.0 == InternalError
    ensures r.1 && outcome.Finished? ==> r.0 == Success(outcome.result)
  {
    if !Authorized(secret, header) then (Unauthorized, false)
    else match outcome
      case Failed => (InternalError, true)
      case Finished(result) => (Success(result), true)
  }

  /** With no secret configured, any request, with or without a header, runs the job. */
  lemma NoSecretOpen<R>(secret: Option<string>, header: Option<string>, outcome: JobOutcome<R>)
    requires !Truthy(secret)
    ensures CronRoute(secret, header, outcome).1
    ensures CronRoute(secret, header, outcome).0 != Unauthorized
  {
  }

  /** With a secret configured, the exact header `Bearer <secret>` is the only one admitted. */
  lemma OnlyExactBearer<R>(secret: string, header: Option<string>, outcome: JobOutcome<R>)
    requires secret != ""
    ensures CronRoute(Some(secret), header, outcome).1 <==> header == Some("Bearer " + secret)
    ensures header.None? ==> CronRoute(Some(secret), header, outcome).0 == Unauthorized
    ensures CronRoute(Some(secret), Some(secret), outcome).0 == Unauthorized
  {
    assert |"Bearer " + secret| != |secret|;
  }
}
