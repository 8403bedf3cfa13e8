/**
 * Which mail transport the application uses, chosen once from the
 * environment. A provider whose credentials are incomplete falls back to the
 * console provider, which only logs.
 */
module EmailConfig {
  import opened Common

  datatype Env = Env(
    emailProvider: Option<string>, resendApiKey: Option<string>, emailFrom: Option<string>,
    smtpHost: Option<string>, smtpUser: Option<string>, smtpPass: Option<string>)

  datatype Provider = Console | Resend(apiKey: string, from: Option<string>) | Smtp

  /** `process.env.EMAIL_PROVIDER || "console"`. */
  function ProviderType(env: Env): (r: string)
    ensures Truthy(env.emailProvider) ==> r == env.emailProvider.value
    ensures !Truthy(env.emailProvider) ==> r == "console"
  {
    if Truthy(env.emailProvider) then env.emailProvider.value else "console"
  }

  predicate SmtpConfigured(env: Env) {
    Truthy(env.smtpHost) && Truthy(env.smtpUser) && Truthy(env.smtpPass)
  }

  /** `getEmailProvider`. */
  function SelectProvider(env: Env): (p: Provider)
    ensures p.Resend? <==> ProviderType(env) == "resend" && Truthy(env.resendApiKey)
    ensures p.Resend? ==> p.apiKey == env.resendApiKey.value && p.from == env.emailFrom
    ensures p.Smtp? <==> ProviderType(env) == "smtp" && SmtpConfigured(env)
    ensures ProviderType(env) !in {"resend", "smtp"} ==> p == Console
  {
    match ProviderType(env)
    case "resend" => if Truthy(env.resendApiKey) then Resend(env.resendApiKey.value, env.emailFrom) else Console
    case "smtp" => if SmtpConfigured(env) then Smtp else Console
    case "custom" => Console
    case _ => Console
  }

  /** An unset or empty `EMAIL_PROVIDER` gives the console provider, whatever credentials are present. */
  lemma UnsetMeansConsole(env: Env)
    requires !Truthy(env.emailProvider)
    ensures SelectProvider(env) == Console
  {
  }
}
