/** The pieces of the purchase-to-licence webhook that the long-running server
    (api/server.js) and the serverless handler (api/webhook.js) share word for
    word: the licence-key generator, the e-mail text, the purchaser-email choice
    and the values a request and its response are made of. The collaborators
    (Stripe's signature check, SendGrid, Math.random) are abstract outcomes. */
module Licensing {
  import opened Strings

  // ---------------------------------------------------------------------------
  // Licence keys
  // ---------------------------------------------------------------------------

  const Uppercase: string := "ABCDEFGHIJKLMNOPQRSTUVWXYZ"
  const Lowercase: string := "abcdefghijklmnopqrstuvwxyz"
  const Digits: string := "0123456789"
  /** The generator's `chars`, written as its three runs. */
  const Alphabet: string := Uppercase + Lowercase + Digits
  const KeyPrefix: string := "cs_"
  /** Iterations of the generator loop: characters drawn after the prefix. */
  const SuffixLength: nat := 24

  /** JavaScript's `String.prototype.charAt`: the character at `i` as a
      one-character string, or the empty string when `i` is out of range. */
  function CharAt(s: string, i: int): string
  {
    if 0 <= i < |s| then [s[i]] else ""
  }

  /** The characters the draws select, in draw order.  A draw stands for
      `Math.floor(Math.random() * chars.length)`. */
  function KeySuffix(draws: seq<int>): string
  {
    if draws == [] then ""
    else KeySuffix(draws[..|draws| - 1]) + CharAt(Alphabet, draws[|draws| - 1])
  }

  /** The key the generator returns when the random source yields `draws`. */
  function KeyFromDraws(draws: seq<int>): string
    requires |draws| >= SuffixLength
  {
    KeyPrefix + KeySuffix(draws[..SuffixLength])
  }

  predicate ValidDraw(d: int)
  {
    0 <= d < |Alphabet|
  }

  /** What `Math.floor(Math.random() * 62)` guarantees for the first 24 draws. */
  predicate ValidDraws(draws: seq<int>)
  {
    |draws| >= SuffixLength && forall i :: 0 <= i < SuffixLength ==> ValidDraw(draws[i])
  }

  predicate IsAlphanumeric(c: char)
  {
    'A' <= c <= 'Z' || 'a' <= c <= 'z' || '0' <= c <= '9'
  }

  /** The lexical shape of a licence key: `cs_` followed by 24 characters of `[A-Za-z0-9]`. */
  predicate WellFormedKey(k: string)
  {
    |k| == |KeyPrefix| + SuffixLength && IsPrefix(KeyPrefix, k)
    && forall i :: |KeyPrefix| <= i < |k| ==> IsAlphanumeric(k[i])
  }

  /** Position of an alphanumeric character in `Alphabet`; -1 for any other character. */
  function AlphabetIndex(c: char): int
  {
    if 'A' <= c <= 'Z' then c as int - 'A' as int
    else if 'a' <= c <= 'z' then 26 + c as int - 'a' as int
    else if '0' <= c <= '9' then 52 + c as int - '0' as int
    else -1
  }

  lemma UppercaseLayout(i: int)
    requires 0 <= i < |Uppercase|
    ensures IsAlphanumeric(Uppercase[i]) && AlphabetIndex(Uppercase[i]) == i
  {
  }

  lemma LowercaseLayout(i: int)
    requires 0 <= i < |Lowercase|
    ensures IsAlphanumeric(Lowercase[i]) && AlphabetIndex(Lowercase[i]) == 26 + i
  {
  }

  lemma DigitsLayout(i: int)
    requires 0 <= i < |Digits|
    ensures IsAlphanumeric(Digits[i]) && AlphabetIndex(Digits[i]) == 52 + i
  {
  }

  lemma AlphabetLayout(i: int)
    requires 0 <= i < |Alphabet|
    ensures IsAlphanumeric(Alphabet[i]) && AlphabetIndex(Alphabet[i]) == i
  {
    if i < |Uppercase| {
      assert Alphabet[i] == Uppercase[i];
      UppercaseLayout(i);
    } else if i < |Uppercase| + |Lowercase| {
      assert Alphabet[i] == Lowercase[i - 26];
      LowercaseLayout(i - 26);
    } else {
      assert Alphabet[i] == Digits[i - 52];
      DigitsLayout(i - 52);
    }
  }

  /** With valid draws every drawn character is the alphabet entry the draw names. */
  lemma {:induction false} KeySuffixSelects(draws: seq<int>)
    requires forall i :: 0 <= i < |draws| ==> 0 <= draws[i] < |Alphabet|
    ensures |KeySuffix(draws)| == |draws|
    ensures forall i :: 0 <= i < |draws| ==> KeySuffix(draws)[i] == Alphabet[draws[i]]
  {
    if draws != [] {
      KeySuffixSelects(draws[..|draws| - 1]);
    }
  }

  /** api/server.js:24-31: valid draws always give a well-formed key. */
  lemma KeyFromValidDrawsIsWellFormed(draws: seq<int>)
    requires ValidDraws(draws)
    ensures WellFormedKey(KeyFromDraws(draws))
    ensures forall i :: 0 <= i < SuffixLength ==> KeyFromDraws(draws)[|KeyPrefix| + i] == Alphabet[draws[i]]
  {
    var d := draws[..SuffixLength];
    KeySuffixSelects(d);
    var k := KeyFromDraws(draws);
    assert k[..|KeyPrefix|] == KeyPrefix;
    forall i | |KeyPrefix| <= i < |k|
      ensures IsAlphanumeric(k[i])
    {
      AlphabetLayout(d[i - |KeyPrefix|]);
    }
  }

  /** The key encodes its draws: two valid draw sequences that give the same key
      agree on every draw the generator consumed.  This is a statement about the
      encoding only, not about how likely two draws are to coincide. */
  lemma KeyDeterminesDraws(d1: seq<int>, d2: seq<int>)
    requires ValidDraws(d1) && ValidDraws(d2)
    requires KeyFromDraws(d1) == KeyFromDraws(d2)
    ensures d1[..SuffixLength] == d2[..SuffixLength]
  {
    KeyFromValidDrawsIsWellFormed(d1);
    KeyFromValidDrawsIsWellFormed(d2);
    forall i | 0 <= i < SuffixLength
      ensures d1[i] == d2[i]
    {
      AlphabetLayout(d1[i]);
      AlphabetLayout(d2[i]);
      assert KeyFromDraws(d1)[|KeyPrefix| + i] == KeyFromDraws(d2)[|KeyPrefix| + i];
    }
  }

  /** `generateLicenseKey` (identical in api/server.js and api/webhook.js): start
      from the prefix and append one alphabet character per draw, 24 times. */
  method GenerateLicenseKey(draws: seq<int>) returns (key: string)
    requires |draws| >= SuffixLength
    ensures key == KeyFromDraws(draws)
    ensures ValidDraws(draws) ==> WellFormedKey(key)
    ensures ValidDraws(draws) ==> forall i :: 0 <= i < SuffixLength ==> key[|KeyPrefix| + i] == Alphabet[draws[i]]
  {
    key := KeyPrefix;
    for i := 0 to SuffixLength
      invariant key == KeyPrefix + KeySuffix(draws[..i])
    {
      assert draws[..i + 1][..i] == draws[..i];
      key := key + CharAt(Alphabet, draws[i]);
    }
    if ValidDraws(draws) {
      KeyFromValidDrawsIsWellFormed(draws);
    }
  }

  // ---------------------------------------------------------------------------
  // The licence e-mail
  // ---------------------------------------------------------------------------

  /** The SendGrid message.  Its two bodies are fixed templates around the key,
      so the message records the key and the deployment's two HTML variations,
      and `Text` and `Html` render the bodies from them. */
  datatype Email = Email(to: string, from: string, subject: string, key: string, extraStyle: string, footerLink: string)

  const DefaultSender: string := "hello@claudesessions.com"
  const Subject: string := "Your Claude Sessions License Key"

  /** The activation instruction both bodies carry. */
  function ActivationCommand(key: string): string
  {
    "sessions activate " + key
  }

  const TextBeforeKey: string :=
    "Thank you for purchasing Claude Sessions credits!\n\nYour License Key: "

  const TextBeforeCommand: string :=
    "\n\nTo activate, run this command in your terminal:\n\n    "

  const TextAfterCommand: string :=
    "\n\nYou now have 20 session restores. Use them anytime with:\n\n"
    + "    sessions continue <session-name>\n\n"
    + "Questions? Reply to this email.\n\n"
    + "- Claude Sessions\n"
    + "https://claudesessions.com"

  /** The plain-text body after `.trim()`. */
  function TextBody(key: string): string
  {
    TextBeforeKey + key + TextBeforeCommand + ActivationCommand(key) + TextAfterCommand
  }

  /** The fixed pieces of the HTML body: the style rules both variants share,
      and the markup around the key, the command and the footer link. */
  const HtmlStyleRules: string :=
    "        body { font-family: -apple-system, BlinkMacSystemFont, 'Segoe UI', Roboto, sans-serif; background: #0a0a0f; color: #ffffff; padding: 40px; }\n"
    + "        .container { max-width: 500px; margin: 0 auto; }\n"
    + "        .logo { font-size: 24px; font-weight: bold; margin-bottom: 30px; }\n"
    + "        .logo span { color: #d97706; }\n"
    + "        .key-box { background: #1a1a24; border: 1px solid #2a2a3a; border-radius: 8px; padding: 20px; margin: 20px 0; }\n"
    + "        .key { font-family: monospace; font-size: 18px; color: #d97706; word-break: break-all; }\n"
    + "        .command { background: #12121a; padding: 15px; border-radius: 6px; font-family: monospace; color: #22c55e; margin: 15px 0; }\n"
    + "        .footer { margin-top: 30px; color: #a0a0b0; font-size: 14px; }\n"

  const HtmlBeforeKey: string :=
    "    </style>\n"
    + "</head>\n"
    + "<body>\n"
    + "    <div class=\"container\">\n"
    + "        <div class=\"logo\">claude<span>sessions</span></div>\n"
    + "\n"
    + "        <p>Thank you for purchasing Claude Sessions credits!</p>\n"
    + "\n"
    + "        <div class=\"key-box\">\n"
    + "            <p style=\"margin: 0 0 10px 0; color: #a0a0b0; font-size: 14px;\">Your License Key:</p>\n"
    + "            <div class=\"key\">"

  const HtmlBeforeCommand: string :=
    "</div>\n"
    + "        </div>\n"
    + "\n"
    + "        <p>To activate, run this command in your terminal:</p>\n"
    + "        <div class=\"command\">"

  const HtmlBeforeLink: string :=
    "</div>\n"
    + "\n"
    + "        <p>You now have <strong>20 session restores</strong>. Use them anytime with:</p>\n"
    + "        <div class=\"command\">sessions continue &lt;session-name&gt;</div>\n"
    + "\n"
    + "        <div class=\"footer\">\n"
    + "            <p>Questions? Reply to this email.</p>\n"
    + "            <p>- Claude Sessions<br>"

  const HtmlClose: string :=
    "</p>\n"
    + "        </div>\n"
    + "    </div>\n"
    + "</body>\n"
    + "</html>"

  /** The HTML up to the key; the variants differ in one extra style rule. */
  function HtmlHead(extraStyle: string): string
  {
    "<!DOCTYPE html>\n<html>\n<head>\n    <style>\n" + HtmlStyleRules + extraStyle + HtmlBeforeKey
  }

  /** The HTML after the activation command; the variants differ in the footer link. */
  function HtmlTail(footerLink: string): string
  {
    HtmlBeforeLink + footerLink + HtmlClose
  }

  /** The HTML body after `.trim()`. */
  function HtmlBody(key: string, extraStyle: string, footerLink: string): string
  {
    HtmlHead(extraStyle) + key + HtmlBeforeCommand + ActivationCommand(key) + HtmlTail(footerLink)
  }

  /** The message's `text` field. */
  function Text(message: Email): string
  {
    TextBody(message.key)
  }

  /** The message's `html` field. */
  function Html(message: Email): string
  {
    HtmlBody(message.key, message.extraStyle, message.footerLink)
  }

  /** Both bodies carry the key itself and the activation command for it. */
  predicate MentionsKey(message: Email, key: string)
  {
    && Contains(Text(message), key) && Contains(Text(message), ActivationCommand(key))
    && Contains(Html(message), key) && Contains(Html(message), ActivationCommand(key))
  }

  /** Anything spliced in twice between fixed pieces occurs in the result. */
  lemma SplicedTwice(a: string, x: string, b: string, y: string, c: string)
    ensures Contains(a + x + b + y + c, x) && Contains(a + x + b + y + c, y)
  {
    assert a + x + b + y + c == a + x + (b + y + c);
    ContainsSplice(a, x, b + y + c);
    assert a + x + b + y + c == (a + x + b) + y + c;
    ContainsSplice(a + x + b, y, c);
  }

  /** api/server.js:48-52, 87-91: text and HTML are made from the message's
      key, whatever the deployment's HTML variations, and each carries the key
      and the activation command for it. */
  lemma BodiesMentionKey(message: Email)
    ensures MentionsKey(message, message.key)
  {
    TextMentionsKey(message);
    HtmlMentionsKey(message);
  }

  lemma TextMentionsKey(message: Email)
    ensures Contains(Text(message), message.key) && Contains(Text(message), ActivationCommand(message.key))
  {
    var key := message.key;
    SplicedTwice(TextBeforeKey, key, TextBeforeCommand, ActivationCommand(key), TextAfterCommand);
  }

  lemma HtmlMentionsKey(message: Email)
    ensures Contains(Html(message), message.key) && Contains(Html(message), ActivationCommand(message.key))
  {
    var key := message.key;
    SplicedTwice(HtmlHead(message.extraStyle), key, HtmlBeforeCommand, ActivationCommand(key), HtmlTail(message.footerLink));
  }

  /** The licence message both deployments build; they differ only in the
      HTML's extra style rule and footer link. */
  function LicenseMessage(config: Config, email: string, key: string, extraStyle: string, footerLink: string): Email
  {
    Email(email, Sender(config), Subject, key, extraStyle, footerLink)
  }

  // ---------------------------------------------------------------------------
  // Configuration, events, responses and the effect trace
  // ---------------------------------------------------------------------------

  /** The environment variables the pipeline reads; "" stands for an unset
      variable, since JavaScript treats both as false. */
  datatype Config = Config(sendgridApiKey: string, fromEmail: string)

  predicate SendGridConfigured(config: Config)
  {
    config.sendgridApiKey != ""
  }

  /** `process.env.FROM_EMAIL || 'hello@claudesessions.com'`. */
  function Sender(config: Config): string
  {
    if config.fromEmail != "" then config.fromEmail else DefaultSender
  }

  /** `event.data.object` of a checkout event; "" stands for a missing, null or
      empty e-mail field (a missing `customer_details` included). */
  datatype CheckoutSession = CheckoutSession(id: string, detailsEmail: string, customerEmail: string)

  datatype Event = Event(kind: string, session: CheckoutSession)

  const CheckoutCompleted: string := "checkout.session.completed"

  /** What `stripe.webhooks.constructEvent` does with the raw body and signature:
      returns the event or throws with a message. */
  datatype Verification = Verified(event: Event) | SignatureInvalid(message: string)

  /** What `sgMail.send` does: resolves, or rejects with an error. */
  datatype SendOutcome = Delivered | SendFailed(error: string)

  /** `session.customer_details?.email || session.customer_email`. */
  function PurchaserEmail(session: CheckoutSession): (email: string)
    ensures session.detailsEmail != "" ==> email == session.detailsEmail
    ensures session.detailsEmail == "" ==> email == session.customerEmail
    ensures email == "" <==> session.detailsEmail == "" && session.customerEmail == ""
  {
    if session.detailsEmail != "" then session.detailsEmail else session.customerEmail
  }

  /** Side effects the pipeline has on the world, in order. */
  datatype Effect =
    | KeyGenerated(key: string)
    | SendAttempted(message: Email, delivered: bool)
    | FallbackLogged(email: string, key: string)

  datatype Body = Acknowledged | ErrorJson(error: string) | PlainText(text: string)

  datatype Response = Response(status: int, body: Body)

  /** A verified checkout event that names a purchaser: the only kind of request
      for which either variant mints a key. */
  predicate Accepted(verification: Verification)
  {
    && verification.Verified?
    && verification.event.kind == CheckoutCompleted
    && PurchaserEmail(verification.event.session) != ""
  }

  function CountKeys(trace: seq<Effect>): nat
  {
    if trace == [] then 0
    else CountKeys(trace[..|trace| - 1]) + (if trace[|trace| - 1].KeyGenerated? then 1 else 0)
  }

  function CountSendAttempts(trace: seq<Effect>): nat
  {
    if trace == [] then 0
    else CountSendAttempts(trace[..|trace| - 1]) + (if trace[|trace| - 1].SendAttempted? then 1 else 0)
  }

  lemma {:induction false} CountsOfConcat(a: seq<Effect>, b: seq<Effect>)
    ensures CountKeys(a + b) == CountKeys(a) + CountKeys(b)
    ensures CountSendAttempts(a + b) == CountSendAttempts(a) + CountSendAttempts(b)
  {
    if b != [] {
      assert (a + b)[..|a + b| - 1] == a + b[..|b| - 1];
      CountsOfConcat(a, b[..|b| - 1]);
    } else {
      assert a + b == a;
    }
  }
}
