/** api/webhook.js: the serverless deployment of the webhook.  Its
    `sendLicenseEmail` lets SendGrid errors propagate, and the handler catches
    them. */
module ServerlessWebhook {
  import opened Licensing

  /** This variant's HTML has no extra style rule and styles the footer link inline. */
  const ExtraStyle: string := ""
  const FooterLink: string := "<a href=\"https://claudesessions.com\" style=\"color: #d97706;\">claudesessions.com</a>"

  function LicenseEmail(config: Config, email: string, key: string): Email
  {
    LicenseMessage(config, email, key, ExtraStyle, FooterLink)
  }

  /** api/webhook.js:35-37: the message goes to the purchaser, from FROM_EMAIL when it
      is set and from the default sender otherwise. */
  lemma LicenseEmailAddressed(config: Config, email: string, key: string)
    ensures LicenseEmail(config, email, key).to == email
    ensures config.fromEmail == "" ==> LicenseEmail(config, email, key).from == DefaultSender
    ensures config.fromEmail != "" ==> LicenseEmail(config, email, key).from == config.fromEmail
  {
  }

  /** api/webhook.js:35-46, 80-84: both bodies carry the key and the activation command. */
  lemma LicenseEmailMentionsKey(config: Config, email: string, key: string)
    ensures MentionsKey(LicenseEmail(config, email, key), key)
  {
    BodiesMentionKey(LicenseEmail(config, email, key));
  }

  /** How an async call settles: with a value, or by throwing. */
  datatype Completion = Returned(value: bool) | Threw(error: string)

  datatype SendReport = SendReport(completion: Completion, effects: seq<Effect>)

  /** `sendLicenseEmail(email, licenseKey)`: with SENDGRID_API_KEY set, one send
      attempt, true when it resolves and the SendGrid error thrown on when it
      rejects; otherwise the log fallback and true.  It never returns false. */
  function SendLicenseEmail(config: Config, email: string, key: string, outcome: SendOutcome): (r: SendReport)
    ensures r.completion != Returned(false)
    ensures r.completion.Threw? <==> SendGridConfigured(config) && outcome.SendFailed?
    ensures r.completion.Threw? ==> r.completion.error == outcome.error
    ensures |r.effects| == 1
    ensures r.effects[0].FallbackLogged? <==> !SendGridConfigured(config)
    ensures r.effects[0].SendAttempted? <==> SendGridConfigured(config)
    ensures r.effects[0].FallbackLogged? ==> r.effects[0] == FallbackLogged(email, key)
    ensures r.effects[0].SendAttempted? ==>
      && r.effects[0].message == LicenseEmail(config, email, key)
      && r.effects[0].delivered == (outcome == Delivered)
  {
    if SendGridConfigured(config) then
      var message := LicenseEmail(config, email, key);
      match outcome
      case Delivered => SendReport(Returned(true), [SendAttempted(message, true)])
      case SendFailed(error) => SendReport(Threw(error), [SendAttempted(message, false)])
    else
      SendReport(Returned(true), [FallbackLogged(email, key)])
  }

  /** The exported handler: reject other methods with 405, verify the signature,
      act on `checkout.session.completed` only, pick the purchaser's e-mail, mint
      a key, send it (catching any error) and acknowledge with 200. */
  method Handle(config: Config, httpMethod: string, verification: Verification, draws: seq<int>, outcome: SendOutcome)
    returns (response: Response, trace: seq<Effect>)
    requires |draws| >= SuffixLength
    ensures httpMethod != "POST" ==>
      response == Response(405, ErrorJson("Method not allowed")) && trace == []
    ensures httpMethod == "POST" && verification.SignatureInvalid? ==>
      response == Response(400, ErrorJson("Webhook Error: " + verification.message)) && trace == []
    ensures httpMethod == "POST" && verification.Verified? && verification.event.kind != CheckoutCompleted ==>
      response == Response(200, Acknowledged) && trace == []
    ensures httpMethod == "POST" && verification.Verified? && verification.event.kind == CheckoutCompleted
            && PurchaserEmail(verification.event.session) == "" ==>
      response == Response(400, ErrorJson("No email found")) && trace == []
    ensures httpMethod == "POST" && Accepted(verification) ==>
      var key := KeyFromDraws(draws);
      var email := PurchaserEmail(verification.event.session);
      && response == Response(200, Acknowledged)
      && trace == [KeyGenerated(key)] + SendLicenseEmail(config, email, key, outcome).effects
    ensures CountKeys(trace) == (if httpMethod == "POST" && Accepted(verification) then 1 else 0)
    ensures CountSendAttempts(trace) <= 1
    ensures httpMethod == "POST" && Accepted(verification) ==> response == Response(200, Acknowledged)
    ensures httpMethod == "POST" && Accepted(verification) && ValidDraws(draws) ==> WellFormedKey(trace[0].key)
  {
    if httpMethod != "POST" {
      return Response(405, ErrorJson("Method not allowed")), [];
    }
    if verification.SignatureInvalid? {
      return Response(400, ErrorJson("Webhook Error: " + verification.message)), [];
    }
    var event := verification.event;
    trace := [];
    if event.kind == CheckoutCompleted {
      var email := PurchaserEmail(event.session);
      if email == "" {
        return Response(400, ErrorJson("No email found")), [];
      }
      var key := GenerateLicenseKey(draws);
      var report := SendLicenseEmail(config, email, key, outcome);
      // The try/catch around the send: a thrown error is logged and dropped.
      trace := [KeyGenerated(key)] + report.effects;
      CountsOfConcat([KeyGenerated(key)], report.effects);
      CountsOfConcat([], [KeyGenerated(key)]);
      CountsOfConcat([], report.effects);
    }
    response := Response(200, Acknowledged);
  }

  /** The same POSTed checkout event delivered twice, each delivery with its own
      send outcome: each mints its own key whether or not the first email went
      out, and the keys differ whenever the random draws do. */
  method Redeliver(config: Config, verification: Verification, draws1: seq<int>, draws2: seq<int>,
                   outcome1: SendOutcome, outcome2: SendOutcome)
    returns (first: seq<Effect>, second: seq<Effect>)
    requires ValidDraws(draws1) && ValidDraws(draws2)
    ensures Accepted(verification) ==> CountKeys(first) == 1 && CountKeys(second) == 1
    ensures Accepted(verification) && draws1[..SuffixLength] != draws2[..SuffixLength] ==>
      first[0].KeyGenerated? && second[0].KeyGenerated? && first[0].key != second[0].key
  {
    var r1, r2;
    r1, first := Handle(config, "POST", verification, draws1, outcome1);
    r2, second := Handle(config, "POST", verification, draws2, outcome2);
    if Accepted(verification) && KeyFromDraws(draws1) == KeyFromDraws(draws2) {
      KeyDeterminesDraws(draws1, draws2);
    }
  }
}
