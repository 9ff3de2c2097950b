/**
 * The notifier examples: the e-mail and SMS notifiers with their address and
 * phone derivation, the decorators that rewrite the message before delegating,
 * the manual decorations they replace, and the two ways of choosing a
 * notifier from a type name (the `NotifierFactory` and the inline if/else chain).
 */
module Notifiers {
  import opened Common
  import opened JavaText
  import opened JavaInt

  const EMAIL_DOMAIN := "@example.com"
  const PRIORITY_MARK := "[HIGH PRIORITY] "
  const SIGNATURE := "\n---\nSent by NotificationSystem Inc."

  /** Where one `send` of a base notifier goes. */
  datatype Channel = EmailTo(address: string) | SmsTo(phone: string)

  /** What one `send` of a base notifier delivers. */
  datatype Delivery = Delivery(userId: string, channel: Channel, body: string)

  /**
   * An `INotifier`: one of the two base notifiers, or a decorator around another
   * notifier. The abstract `NotifierDecorator` has no case of its own: each
   * concrete decorator overrides its `send`.
   */
  datatype Notifier =
    | EmailNotifier(smtpServer: string, port: int)
    | SmsNotifier(accountSid: string, authToken: string)
    | PriorityDecorator(wrapped: Notifier)
    | SignatureDecorator(wrapped: Notifier)
    | PrefixDecorator(wrapped: Notifier, prefix: string)

  /** The address `EmailNotifier.send` writes to. */
  function EmailAddress(userId: string): (r: string)
    ensures |r| == |userId| + |EMAIL_DOMAIN|
    ensures r[..|userId|] == userId && r[|userId|..] == EMAIL_DOMAIN
  {
    userId + EMAIL_DOMAIN
  }

  /** The user an address of the `example.com` domain belongs to. */
  function UserOfEmail(address: string): (r: Option<string>)
    ensures r.Some? ==> |r.value| < |address|
  {
    if |address| >= |EMAIL_DOMAIN| && address[|address| - |EMAIL_DOMAIN|..] == EMAIL_DOMAIN
    then Some(address[..|address| - |EMAIL_DOMAIN|])
    else None
  }

  /** Different users get different addresses: the user is recovered from the address. */
  lemma EmailAddressRoundTrip(userId: string)
    ensures UserOfEmail(EmailAddress(userId)) == Some(userId)
  {
    var a := EmailAddress(userId);
    assert a[|a| - |EMAIL_DOMAIN|..] == EMAIL_DOMAIN;
    assert a[..|a| - |EMAIL_DOMAIN|] == userId;
  }

  /** `SmsNotifier`'s phone: "+1" then `%010d` of `Math.abs(userId.hashCode()) % 10000000000L`. */
  function Phone(userId: string): (r: string)
    ensures |r| >= 12 && r[..2] == "+1"
  {
    "+1" + Format010(Rem(Abs32(HashCode(userId)), 10_000_000_000))
  }

  lemma Pow10Ten()
    ensures Pow10(10) == 10_000_000_000
  {
  }

  /** Unless the hash is `Integer.MIN_VALUE`, the phone is "+1" and ten digits spelling `|hashCode|`. */
  lemma {:induction false} PhoneDigits(userId: string)
    requires HashCode(userId) != MIN_INT
    ensures |Phone(userId)| == 12 && Phone(userId)[..2] == "+1"
    ensures AllDigits(Phone(userId)[2..])
    ensures Value(Phone(userId)[2..]) == Abs32(HashCode(userId))
  {
    var h := Abs32(HashCode(userId));
    assert Rem(h, 10_000_000_000) == h;
    Pow10Ten();
    DigitsLength(h, 10);
    DigitsValue(h);
    ZeroPadDigits(Digits(h), 10);
    assert Phone(userId)[2..] == ZeroPad(Digits(h), 10);
  }

  lemma DigitsOfMinMagnitude()
    ensures Digits(2147483648) == "2147483648"
  {
    assert Digits(2) == "2";
    assert Digits(21) == "21";
    assert Digits(214) == "214";
    assert Digits(2147) == "2147";
    assert Digits(21474) == "21474";
    assert Digits(214748) == "214748";
    assert Digits(2147483) == "2147483";
    assert Digits(21474836) == "21474836";
    assert Digits(214748364) == "214748364";
  }

  /** `Math.abs(Integer.MIN_VALUE)` stays negative, so that hash gives an eleven-character number. */
  lemma PhoneOfMinHash(userId: string)
    requires HashCode(userId) == MIN_INT
    ensures Phone(userId) == "+1-2147483648"
  {
    assert Rem(Abs32(MIN_INT), 10_000_000_000) == -2147483648;
    DigitsOfMinMagnitude();
    assert Format010(-2147483648) == "-2147483648";
  }

  /** One step of the hash loop. */
  lemma HashStep(s: string, c: char, h: int)
    requires HashCode(s) == h
    ensures HashCode(s + [c]) == Wrap32(31 * h + c as int)
  {
    assert (s + [c])[..|s|] == s;
  }

  lemma WitnessHash6()
    ensures HashCode("polyge") == -982654550
  {
    var p := "p";
    assert HashCode(p) == 112 by { HashStep("", 'p', 0); assert "" + ['p'] == p; }
    HashStep(p, 'o', 112); p := p + ['o'];
    HashStep(p, 'l', 3583); p := p + ['l'];
    HashStep(p, 'y', 111181); p := p + ['y'];
    HashStep(p, 'g', 3446732); p := p + ['g'];
    HashStep(p, 'e', 106848795); p := p + ['e'];
    assert p == "polyge";
  }

  lemma WitnessHash12()
    ensures HashCode("polygenelubr") == 2082189306
  {
    var p := "polyge";
    WitnessHash6();
    HashStep(p, 'n', -982654550); p := p + ['n'];
    HashStep(p, 'e', -397519868); p := p + ['e'];
    HashStep(p, 'l', 561786081); p := p + ['l'];
    HashStep(p, 'u', 235499435); p := p + ['u'];
    HashStep(p, 'b', -1289451990); p := p + ['b'];
    HashStep(p, 'r', -1318305928); p := p + ['r'];
    assert p == "polygenelubr";
  }

  lemma WitnessHash()
    ensures HashCode("polygenelubricants") == MIN_INT
  {
    var p := "polygenelubr";
    WitnessHash12();
    HashStep(p, 'i', 2082189306); p := p + ['i'];
    HashStep(p, 'c', 123359151); p := p + ['c'];
    HashStep(p, 'a', -470833516); p := p + ['a'];
    HashStep(p, 'n', -1710937011); p := p + ['n'];
    HashStep(p, 't', -1499439679); p := p + ['t'];
    HashStep(p, 's', 762010323); p := p + ['s'];
    assert p == "polygenelubricants";
  }

  /** The MIN_VALUE branch is reachable: a real user id hashes to `Integer.MIN_VALUE`. */
  lemma MinHashWitness()
    ensures HashCode("polygenelubricants") == MIN_INT
    ensures Phone("polygenelubricants") == "+1-2147483648"
  {
    WitnessHash();
    PhoneOfMinHash("polygenelubricants");
  }

  /** `send`: each decorator rewrites the message and delegates once; a base notifier delivers. */
  function Send(n: Notifier, userId: string, message: string): (r: Delivery)
    ensures r.userId == userId
    ensures |r.body| >= |message|
    ensures Core(n).EmailNotifier? ==> r.channel == EmailTo(EmailAddress(userId))
    ensures Core(n).SmsNotifier? ==> r.channel == SmsTo(Phone(userId))
  {
    match n
    case EmailNotifier(_, _) => Delivery(userId, EmailTo(EmailAddress(userId)), message)
    case SmsNotifier(_, _) => Delivery(userId, SmsTo(Phone(userId)), message)
    case PriorityDecorator(w) => Send(w, userId, PRIORITY_MARK + message)
    case SignatureDecorator(w) => Send(w, userId, message + SIGNATURE)
    case PrefixDecorator(w, p) => Send(w, userId, p + message)
  }

  /** The base notifier at the centre of the decorator layers. */
  function Core(n: Notifier): (b: Notifier)
    ensures b.EmailNotifier? || b.SmsNotifier?
  {
    match n
    case EmailNotifier(_, _) => n
    case SmsNotifier(_, _) => n
    case PriorityDecorator(w) => Core(w)
    case SignatureDecorator(w) => Core(w)
    case PrefixDecorator(w, _) => Core(w)
  }

  /** The text the layers put before the message: innermost layer first. */
  function Lead(n: Notifier): string
  {
    match n
    case EmailNotifier(_, _) => ""
    case SmsNotifier(_, _) => ""
    case PriorityDecorator(w) => Lead(w) + PRIORITY_MARK
    case SignatureDecorator(w) => Lead(w)
    case PrefixDecorator(w, p) => Lead(w) + p
  }

  /** The text the layers put after the message: outermost layer first. */
  function Trail(n: Notifier): string
  {
    match n
    case EmailNotifier(_, _) => ""
    case SmsNotifier(_, _) => ""
    case PriorityDecorator(w) => Trail(w)
    case SignatureDecorator(w) => SIGNATURE + Trail(w)
    case PrefixDecorator(w, _) => Trail(w)
  }

  /** The channel a base notifier sends on. */
  function ChannelOf(base: Notifier, userId: string): Channel
  {
    if base.EmailNotifier? then EmailTo(EmailAddress(userId)) else SmsTo(Phone(userId))
  }

  /** Every layer passes the user on unchanged, down to the core notifier's channel. */
  lemma {:induction false} SendReachesCore(n: Notifier, userId: string, message: string)
    ensures Send(n, userId, message).userId == userId
    ensures Send(n, userId, message).channel == ChannelOf(Core(n), userId)
  {
    match n
    case EmailNotifier(_, _) =>
    case SmsNotifier(_, _) =>
    case PriorityDecorator(w) =>
      SendReachesCore(w, userId, PRIORITY_MARK + message);
    case SignatureDecorator(w) =>
      SendReachesCore(w, userId, message + SIGNATURE);
    case PrefixDecorator(w, p) =>
      SendReachesCore(w, userId, p + message);
  }

  /** Every layer frames the message with its own text. */
  lemma {:induction false} SendFrames(n: Notifier, userId: string, message: string)
    ensures Send(n, userId, message).body == Lead(n) + message + Trail(n)
  {
    match n
    case EmailNotifier(_, _) =>
      EmptyUnit(message);
    case SmsNotifier(_, _) =>
      EmptyUnit(message);
    case PriorityDecorator(w) =>
      SendFrames(w, userId, PRIORITY_MARK + message);
      Reassociate(Lead(w), PRIORITY_MARK, message, Trail(w));
    case SignatureDecorator(w) =>
      SendFrames(w, userId, message + SIGNATURE);
      Reassociate2(Lead(w), message, SIGNATURE, Trail(w));
    case PrefixDecorator(w, p) =>
      SendFrames(w, userId, p + message);
      Reassociate(Lead(w), p, message, Trail(w));
  }

  /**
   * Whatever the stack of decorators, one delivery reaches the core notifier, for
   * the same user, with the message framed by the layers' texts.
   */
  lemma SendShape(n: Notifier, userId: string, message: string)
    ensures Send(n, userId, message).userId == userId
    ensures Send(n, userId, message).channel == ChannelOf(Core(n), userId)
    ensures Send(n, userId, message).body == Lead(n) + message + Trail(n)
  {
    SendReachesCore(n, userId, message);
    SendFrames(n, userId, message);
  }

  lemma EmptyUnit(s: string)
    ensures "" + s == s && s + "" == s
  {
  }

  lemma Reassociate2(a: string, b: string, c: string, d: string)
    ensures a + (b + c) + d == a + b + (c + d)
  {
  }

  lemma Reassociate(a: string, b: string, c: string, d: string)
    ensures a + (b + c) + d == (a + b) + c + d
  {
  }

  /** Stacked prefixes: the innermost prefix ends up leftmost. */
  lemma StackedPrefixes(base: Notifier, inner: string, outer: string, userId: string, message: string)
    requires base.EmailNotifier? || base.SmsNotifier?
    ensures Send(PrefixDecorator(PrefixDecorator(base, inner), outer), userId, message).body
         == inner + outer + message
  {
    var n := PrefixDecorator(PrefixDecorator(base, inner), outer);
    SendShape(n, userId, message);
    assert Lead(base) == "" && Trail(base) == "";
    assert Lead(n) == inner + outer;
  }

  /** Priority and Signature commute: either nesting delivers the same thing. */
  lemma PrioritySignatureCommute(n: Notifier, userId: string, message: string)
    ensures Send(SignatureDecorator(PriorityDecorator(n)), userId, message)
         == Send(PriorityDecorator(SignatureDecorator(n)), userId, message)
  {
    assert PRIORITY_MARK + message + SIGNATURE == PRIORITY_MARK + (message + SIGNATURE);
  }

  /** The client-side decoration of the e-mail in `PreDecoratorMain`. */
  function ManualEmailDecoration(message: string): (r: string)
    ensures |r| == |PRIORITY_MARK| + |message| + |SIGNATURE|
    ensures r[..|PRIORITY_MARK|] == PRIORITY_MARK && r[|r| - |SIGNATURE|..] == SIGNATURE
    ensures r[|PRIORITY_MARK|..|r| - |SIGNATURE|] == message
  {
    PRIORITY_MARK + message + SIGNATURE
  }

  /** The client-side decoration of the SMS in `PreDecoratorMain`. */
  function ManualSmsDecoration(message: string): (r: string)
    ensures |r| == 8 + |message| && r[..8] == "URGENT: " && r[8..] == message
  {
    "URGENT: " + message
  }

  /** The decorators send what the manual version builds by hand, to the same address or phone. */
  lemma DecoratorsMatchManual(smtp: string, port: int, sid: string, token: string, userId: string, message: string)
    ensures Send(SignatureDecorator(PriorityDecorator(EmailNotifier(smtp, port))), userId, message)
         == Send(EmailNotifier(smtp, port), userId, ManualEmailDecoration(message))
    ensures Send(PrefixDecorator(SmsNotifier(sid, token), "URGENT: "), userId, message)
         == Send(SmsNotifier(sid, token), userId, ManualSmsDecoration(message))
  {
    assert PRIORITY_MARK + (message + SIGNATURE) == ManualEmailDecoration(message);
  }

  /** The first two compositions of `PostDecoratorMain.main`: one layer each. */
  lemma SingleLayerDemo(userId: string, report: string, alert: string)
    ensures Send(PriorityDecorator(EmailNotifier("smtp.example.com", 587)), userId, report)
         == Delivery(userId, EmailTo(EmailAddress(userId)), PRIORITY_MARK + report)
    ensures Send(PrefixDecorator(SmsNotifier("AC123", "XYZ"), "URGENT: "), userId, alert)
         == Delivery(userId, SmsTo(Phone(userId)), "URGENT: " + alert)
  {
  }

  /** The last two compositions of `PostDecoratorMain.main`: a signature around one more layer. */
  lemma TwoLayerDemo(userId: string, report: string, alert: string)
    ensures Send(SignatureDecorator(PriorityDecorator(EmailNotifier("smtp.example.com", 587))), userId, report)
         == Delivery(userId, EmailTo(EmailAddress(userId)), PRIORITY_MARK + report + SIGNATURE)
    ensures Send(SignatureDecorator(PrefixDecorator(SmsNotifier("AC123", "XYZ"), "URGENT: ")), userId, alert)
         == Delivery(userId, SmsTo(Phone(userId)), "URGENT: " + alert + SIGNATURE)
  {
    var email := SignatureDecorator(PriorityDecorator(EmailNotifier("smtp.example.com", 587)));
    var sms := SignatureDecorator(PrefixDecorator(SmsNotifier("AC123", "XYZ"), "URGENT: "));
    SendShape(email, userId, report);
    SendShape(sms, userId, alert);
    EmptyUnit(PRIORITY_MARK);
    EmptyUnit(SIGNATURE);
    EmptyUnit("URGENT: ");
  }

  /**
   * The configuration both factories read: the `smtp.server` and `smtp.port`
   * system properties (the port already parsed) and the `SMS_ACCOUNT_SID` and
   * `SMS_AUTH_TOKEN` environment variables; None where one is not set.
   */
  datatype Config = Config(smtpServer: Option<string>, smtpPort: Option<int>,
                           smsAccountSid: Option<string>, smsAuthToken: Option<string>)

  function OrDefault<T>(o: Option<T>, default: T): T
  {
    if o.Some? then o.value else default
  }

  /** The e-mail notifier built from the configuration, with its defaults. */
  function ConfiguredEmail(c: Config): (n: Notifier)
    ensures n.EmailNotifier?
    ensures c.smtpServer.None? ==> n.smtpServer == "smtp.example.com"
    ensures c.smtpPort.None? ==> n.port == 587
  {
    EmailNotifier(OrDefault(c.smtpServer, "smtp.example.com"), OrDefault(c.smtpPort, 587))
  }

  /** The SMS notifier built from the configuration, with its defaults. */
  function ConfiguredSms(c: Config): (n: Notifier)
    ensures n.SmsNotifier?
    ensures c.smsAccountSid.None? ==> n.accountSid == "ACxxxxxxxx_DEFAULT_SID"
    ensures c.smsAuthToken.None? ==> n.authToken == "yyyyyyyyy_DEFAULT_TOKEN"
  {
    SmsNotifier(OrDefault(c.smsAccountSid, "ACxxxxxxxx_DEFAULT_SID"),
                OrDefault(c.smsAuthToken, "yyyyyyyyy_DEFAULT_TOKEN"))
  }

  /** `NotifierFactory.createNotifier`: null for a null or empty type, otherwise a case-insensitive switch. */
  function CreateNotifier(notificationType: Option<string>, c: Config): (r: Option<Notifier>)
    ensures r.Some? <==> notificationType.Some? && Upper(notificationType.value) in {"EMAIL", "SMS"}
    ensures r.Some? ==> r.value == if Upper(notificationType.value) == "EMAIL" then ConfiguredEmail(c) else ConfiguredSms(c)
  {
    if notificationType.None? || notificationType.value == "" then None
    else
      var t := Upper(notificationType.value);
      if t == "EMAIL" then Some(ConfiguredEmail(c))
      else if t == "SMS" then Some(ConfiguredSms(c))
      else None
  }

  /** The factory ignores letter case: two names that upper-case alike select the same notifier. */
  lemma CreateNotifierIgnoresCase(a: string, b: string, c: Config)
    requires Upper(a) == Upper(b)
    ensures CreateNotifier(Some(a), c) == CreateNotifier(Some(b), c)
  {
  }

  /** The selection in `NotificationService.sendNotification`: `Objects.equals` against each name. */
  function SelectNotifier(notificationType: Option<string>, c: Config): (r: Option<Notifier>)
    ensures r.Some? <==> notificationType == Some("EMAIL") || notificationType == Some("SMS")
  {
    if notificationType == Some("EMAIL") then Some(ConfiguredEmail(c))
    else if notificationType == Some("SMS") then Some(ConfiguredSms(c))
    else None
  }

  /** Whatever the inline chain selects, the factory selects too, built the same way. */
  lemma SelectionRefinedByFactory(notificationType: Option<string>, c: Config)
    requires SelectNotifier(notificationType, c).Some?
    ensures CreateNotifier(notificationType, c) == SelectNotifier(notificationType, c)
  {
    assert Upper("EMAIL") == "EMAIL";
    assert Upper("SMS") == "SMS";
  }

  /** The two differ on other casings: "email" is unsupported inline but an e-mail notifier from the factory. */
  lemma SelectionCaseDivergence(c: Config)
    ensures SelectNotifier(Some("email"), c) == None
    ensures CreateNotifier(Some("email"), c) == Some(ConfiguredEmail(c))
  {
    assert Upper("email") == "EMAIL";
  }

  /** `NotificationServiceRefactored.sendNotification`: one delivery when the factory returns a notifier, none otherwise. */
  function SendNotification(notificationType: Option<string>, userId: string, message: string, c: Config): (r: Option<Delivery>)
    ensures r.Some? <==> CreateNotifier(notificationType, c).Some?
    ensures r.Some? ==> r.value.userId == userId && r.value.body == message
    ensures r.Some? ==> (r.value.channel.EmailTo? <==> Upper(notificationType.value) == "EMAIL")
  {
    var n := CreateNotifier(notificationType, c);
    if n.Some? then Some(Send(n.value, userId, message)) else None
  }

  /** `NotificationService.sendNotification`: the same, with the case-sensitive selection. */
  function PreSendNotification(notificationType: Option<string>, userId: string, message: string, c: Config): (r: Option<Delivery>)
    ensures r.Some? <==> notificationType == Some("EMAIL") || notificationType == Some("SMS")
    ensures r.Some? ==> r.value.userId == userId && r.value.body == message
    ensures r.Some? ==> (r.value.channel.EmailTo? <==> notificationType == Some("EMAIL"))
  {
    var n := SelectNotifier(notificationType, c);
    if n.Some? then Some(Send(n.value, userId, message)) else None
  }

  /** Where the old service sends anything, the refactored one sends the same. */
  lemma SendNotificationRefines(notificationType: Option<string>, userId: string, message: string, c: Config)
    requires PreSendNotification(notificationType, userId, message, c).Some?
    ensures SendNotification(notificationType, userId, message, c)
         == PreSendNotification(notificationType, userId, message, c)
  {
    SelectionRefinedByFactory(notificationType, c);
  }
}
