/** api/server.js: the long-running Express deployment of the webhook.  Its
    `sendLicenseEmail` swallows SendGrid errors and reports them as `false`. */
module ServerWebhook {
  import opened Licensing

  /** The style rule and footer link this variant's HTML body has. */
  const ExtraStyle: string := "        a { color: #d97706; }\n"
  const FooterLink: string := "<a href=\"https://claudesessions.com\">claudesessions.com</a>"

  function LicenseEmail(config: Config, email: string, key: string): Email
  {
    LicenseMessage(config, email, key, ExtraStyle, FooterLink)
  }

  /** api/server.js:41-43: the message goes to the purchaser, from FROM_EMAIL when it
      is set and from the default sender otherwise. */
  lemma LicenseEmailAddressed(config: Config, email: string, key: string)
    ensures LicenseEmail(config, email, key).to == email
    ensures config.fromEmail == "" ==> LicenseEmail(config, email, key).from == DefaultSender
    ensures config.fromEmail != "" ==> LicenseEmail(config, email, key).from == config.fromEmail
  {
  }

  /** api/server.js:41-52, 87-91: both bodies carry the key and the activation command. */
  lemma LicenseEmailMentionsKey(config: Config, email: string, key: string)
    ensures MentionsKey(LicenseEmail(config, email, key), key)
  {
    BodiesMentionKey(LicenseEmail(config, email, key));
  }

  /** What `sendLicenseEmail` resolves to, and what it did on the way. */
  datatype SendReport = SendReport(returned: bool, effects: seq<Effect>)

  /** `sendLicenseEmail(email, licenseKey)`: with SENDGRID_API_KEY set, one send
      attempt whose failure is caught and reported as `false`; otherwise the
      log fallback, reported as `true`.  It never throws. */
  function SendLicenseEmail(config: Config, email: string, key: string, outcome: SendOutcome): (r: SendReport)
    ensures r.returned <==> !SendGridConfigured(config) || outcome == Delivered
    ensures |r.effects| == 1
    ensures r.effects[0].FallbackLogged? <==> !SendGridConfigured(config)
    ensures r.effects[0].SendAttempted? <==> SendGridConfigured(config)
    ensures r.effects[0].FallbackLogged? ==> r.effects[0] == FallbackLogged(email, key)
    ensures r.effects[0].SendAttempted? ==>
      && r.effects[0].message == LicenseEmail(config, email, key)
      && r.effects[0].delivered == (outcome == Delivered)
  {
    if SendGridConfigured(config) then
      var message := LicenseEmail(config, email, key);
      SendReport(outcome == Delivered, [SendAttempted(message, outcome == Delivered)])
    else
      SendReport(true, [FallbackLogged(email, key)])
  }

  /** The `POST /webhook` route: verify the signature, act on
      `checkout.session.completed` only, pick the purchaser's e-mail, mint a key,
      send it, and acknowledge.  `draws` is what Math.random supplies. */
  method HandleWebhook(config: Config, verification: Verification, draws: seq<int>, outcome: SendOutcome)
    returns (response: Response, trace: seq<Effect>)
    requires |draws| >= SuffixLength
    ensures verification.SignatureInvalid? ==>
      response == Response(400, PlainText("Webhook Error: " + verification.message)) && trace == []
    ensures verification.Verified? && verification.event.kind != CheckoutCompleted ==>
      response == Response(200, Acknowledged) && trace == []
    ensures verification.Verified? && verification.event.kind == CheckoutCompleted
            && PurchaserEmail(verification.event.session) == "" ==>
      response == Response(400, ErrorJson("No email found")) && trace == []
    ensures Accepted(verification) ==>
      var key := KeyFromDraws(draws);
      var email := PurchaserEmail(verification.event.session);
      && response == Response(200, Acknowledged)
      && trace == [KeyGenerated(key)] + SendLicenseEmail(config, email, key, outcome).effects
    ensures CountKeys(trace) == (if Accepted(verification) then 1 else 0)
    ensures CountSendAttempts(trace) <= 1
    ensures response.status == 200 <==> verification.Verified? && !(verification.event.kind == CheckoutCompleted && PurchaserEmail(verification.event.session) == "")
    ensures Accepted(verification) && ValidDraws(draws) ==> WellFormedKey(trace[0].key)
  {
    if verification.SignatureInvalid? {
      return Response(400, PlainText("Webhook Error: " + verification.message)), [];
    }
    var event := verification.event;
    trace := [];
    if event.kind == CheckoutCompleted {
      var email := PurchaserEmail(event.session);
      if email == "" {
        return Response(400, ErrorJson("No email found")), [];
      }
      var key := GenerateLicenseKey(draws);
      var report := SendLicenseEmail(config, email, key, outcome);
      trace := [KeyGenerated(key)] + report.effects;
      CountsOfConcat([KeyGenerated(key)], report.effects);
      CountsOfConcat([], [KeyGenerated(key)]);
      CountsOfConcat([], report.effects);
    }
    response := Response(200, Acknowledged);
  }

  /** The same checkout event delivered twice, each delivery with its own send
      outcome: nothing remembers the first delivery, so each mints its own key
      whether or not the first email went out, and the two keys differ
      whenever the random draws do. */
  method Redeliver(config: Config, verification: Verification, draws1: seq<int>, draws2: seq<int>,
                   outcome1: SendOutcome, outcome2: SendOutcome)
    returns (first: seq<Effect>, second: seq<Effect>)
    requires ValidDraws(draws1) && ValidDraws(draws2)
    ensures Accepted(verification) ==> CountKeys(first) == 1 && CountKeys(second) == 1
    ensures Accepted(verification) && draws1[..SuffixLength] != draws2[..SuffixLength] ==>
      first[0].KeyGenerated? && second[0].KeyGenerated? && first[0].key != second[0].key
  {
    var r1, r2;
    r1, first := HandleWebhook(config, verification, draws1, outcome1);
    r2, second := HandleWebhook(config, verification, draws2, outcome2);
    if Accepted(verification) && KeyFromDraws(draws1) == KeyFromDraws(draws2) {
      KeyDeterminesDraws(draws1, draws2);
    }
  }
}
