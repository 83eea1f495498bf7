/** The inquiry page: pre-selecting a service from the `service` query
    parameter, the four field validators and the submit handler, the
    WhatsApp message composition, the message templates offered per service,
    and the character counter under the message field. */
module Inquiry {
  import opened TextUtil

  // ---------------------------------------------------------------------
  // Indian mobile numbers: /^(\+91[\-\s]?)?[0]?(91)?[789]\d{9}$/

  /** The ten-digit subscriber number: a 7, 8 or 9, then nine digits. */
  predicate MobileDigits(d: string) {
    |d| == 10 && (d[0] == '7' || d[0] == '8' || d[0] == '9') &&
    forall i :: 1 <= i < 10 ==> IsDigit(d[i])
  }

  /** What may sit between the country code and the subscriber number:
      an optional trunk `0`, then an optional `91`. */
  predicate IsTrunk(t: string) {
    t == "" || t == "0" || t == "91" || t == "091"
  }

  predicate IsSeparator(c: char) {
    c == '-' || IsWs(c)
  }

  /** Everything before the last ten characters. */
  predicate ValidPrefix(p: string) {
    IsTrunk(p) ||
    (|p| >= 3 && p[..3] == "+91" &&
     (IsTrunk(p[3..]) || (|p| >= 4 && IsSeparator(p[3]) && IsTrunk(p[4..]))))
  }

  /** The phone recogniser: the last ten characters are the subscriber
      number, and what precedes them is an optional country code with an
      optional separator, then an optional trunk part. */
  predicate IsIndianMobile(s: string) {
    |s| >= 10 && MobileDigits(s[|s| - 10..]) && ValidPrefix(s[..|s| - 10])
  }

  /** The pattern read group by group. */
  predicate CountryCode(a: string) {
    a == "" || a == "+91" || (|a| == 4 && a[..3] == "+91" && IsSeparator(a[3]))
  }

  predicate SplitMatches(s: string, i: int, j: int, k: int) {
    0 <= i <= j <= k <= |s| && CountryCode(s[..i]) && (s[i..j] == "" || s[i..j] == "0") &&
    (s[j..k] == "" || s[j..k] == "91") && MobileDigits(s[k..])
  }

  /** The pattern matches when the input splits into its four groups. */
  ghost predicate MatchesPattern(s: string) {
    exists i, j, k :: SplitMatches(s, i, j, k)
  }

  /** The recogniser accepts exactly the strings the pattern matches. */
  lemma IndianMobileIffPattern(s: string)
    ensures IsIndianMobile(s) <==> MatchesPattern(s)
  {
    if MatchesPattern(s) {
      var i, j, k :| SplitMatches(s, i, j, k);
      PatternImpliesRecogniser(s, i, j, k);
    }
    if IsIndianMobile(s) {
      var i, j, k := RecogniserSplit(s);
    }
  }

  lemma PatternImpliesRecogniser(s: string, i: int, j: int, k: int)
    requires SplitMatches(s, i, j, k)
    ensures IsIndianMobile(s)
  {
    assert k == |s| - 10;
    var c, t := s[..i], s[i..j] + s[j..k];
    assert s[..k] == c + t;
    TrunkConcat(s[i..j], s[j..k]);
    CountryTrunkPrefix(c, t);
  }

  /** The optional `0` and the optional `91` together form a trunk part. */
  lemma TrunkConcat(a: string, b: string)
    requires (a == "" || a == "0") && (b == "" || b == "91")
    ensures IsTrunk(a + b)
  {
    if a == "" {
      assert a + b == b;
    } else if b == "" {
      assert a + b == a;
    } else {
      assert a + b == "091";
    }
  }

  /** A country-code group followed by a trunk part is a valid prefix. */
  lemma CountryTrunkPrefix(c: string, t: string)
    requires CountryCode(c) && IsTrunk(t)
    ensures ValidPrefix(c + t)
  {
    var p := c + t;
    if c == "" {
      assert p == t;
    } else {
      assert p[..3] == c[..3] == "+91";
      if c == "+91" {
        assert p[3..] == t;
      } else {
        assert p[3] == c[3];
        assert p[4..] == t;
      }
    }
  }

  lemma RecogniserSplit(s: string) returns (i: int, j: int, k: int)
    requires IsIndianMobile(s)
    ensures SplitMatches(s, i, j, k)
  {
    k := |s| - 10;
    var p := s[..k];
    var t: string;
    if IsTrunk(p) {
      i, t := 0, p;
    } else if IsTrunk(p[3..]) {
      i, t := 3, p[3..];
      assert s[..i] == p[..3];
    } else {
      i, t := 4, p[4..];
      assert s[..i] == p[..4] && p[..4][..3] == p[..3];
    }
    assert s[i..k] == t;
    j := if t == "0" || t == "091" then i + 1 else i;
    assert s[i..j] == s[i..k][..j - i] == t[..j - i];
    assert s[j..k] == s[i..k][j - i..] == t[j - i..];
  }

  /** No character the pattern spells out is whitespace. */
  lemma WsIsNoPatternChar(c: char)
    requires IsWs(c)
    ensures !IsDigit(c) && c != '+'
  {
  }

  /** A value starting with whitespace is never a valid number. */
  lemma WsFirstRejected(s: string)
    requires s != [] && IsWs(s[0])
    ensures !IsIndianMobile(s)
  {
    WsIsNoPatternChar(s[0]);
    if |s| >= 10 {
      var p, d := s[..|s| - 10], s[|s| - 10..];
      if p == [] {
        assert d[0] == s[0];
      } else {
        assert p[0] == s[0];
        assert !IsTrunk(p);
        if |p| >= 3 {
          assert p[..3][0] == p[0];
        }
      }
    }
  }

  /** A value ending in whitespace is never a valid number. */
  lemma WsLastRejected(s: string)
    requires s != [] && IsWs(s[|s| - 1])
    ensures !IsIndianMobile(s)
  {
    if |s| >= 10 {
      assert s[|s| - 10..][9] == s[|s| - 1];
    }
  }

  /** A valid number starts and ends with a non-whitespace character. */
  lemma ValidMobileEnds(s: string)
    requires IsIndianMobile(s)
    ensures !IsWs(s[0]) && !IsWs(s[|s| - 1])
  {
    if IsWs(s[0]) {
      WsFirstRejected(s);
    }
    if IsWs(s[|s| - 1]) {
      WsLastRejected(s);
    }
  }

  // ---------------------------------------------------------------------
  // Validators

  predicate ValidName(v: string) { |Trim(v)| >= 2 }
  predicate ValidPhone(v: string) { IsIndianMobile(v) }
  predicate ValidService(v: string) { v != "" }
  predicate ValidMessage(v: string) { |Trim(v)| >= 10 }

  /** Name and message are checked after trimming, so padding never changes
      their verdict; the phone is checked as typed, so padding a valid
      number makes it fail there while `submitToWhatsApp`, which trims,
      accepts it. */
  lemma PaddingAndValidation(a: string, v: string, b: string)
    requires AllWs(a) && AllWs(b)
    ensures ValidName(a + v + b) == ValidName(v)
    ensures ValidMessage(a + v + b) == ValidMessage(v)
    ensures a != [] && IsIndianMobile(v) ==> !ValidPhone(a + v + b) && IsIndianMobile(Trim(a + v + b))
  {
    TrimIgnoresPadding(a, v, b);
    if a != [] && IsIndianMobile(v) {
      var s := a + v + b;
      assert s[0] == a[0];
      WsFirstRejected(s);
      ValidMobileEnds(v);
      TrimOfNonBlankEnds(v);
    }
  }

  // ---------------------------------------------------------------------
  // Service pre-selection

  /** The `service` query values the page understands, and the option each
      one selects. */
  const SERVICE_MAP: map<string, string> := map[
    "passport-services" := "Passport Services",
    "voter-id" := "Voter ID Services",
    "pan-card" := "PAN Card Services",
    "aadhaar-services" := "Aadhaar Services",
    "birth-certificate" := "Birth Certificate",
    "death-certificate" := "Death Certificate",
    "income-certificate" := "Income Certificate",
    "community-certificate" := "Community Certificate",
    "driving-license" := "Driving License",
    "marriage-certificate" := "Marriage Certificate",
    "nativity-certificate" := "Nativity Certificate",
    "fssai-registration" := "FSSAI Registration",
    "air-ticket" := "Air Ticket Booking",
    "bus-ticket" := "Bus Ticket Booking",
    "train-ticket" := "Train Ticket Booking",
    "income-tax" := "Income Tax Filing",
    "eb-bill" := "EB Bill Payment",
    "hajj-umrah" := "Hajj and Umrah",
    "printing-services" := "Printing Services"
  ]

  /** The option value `getServiceFromUrl` looks for: none without a
      non-empty parameter or for an unknown slug. */
  function MappedService(param: Option<string>): (v: Option<string>)
    ensures v.Some? <==> param.Some? && param.value in SERVICE_MAP
    ensures v.Some? ==> v.value == SERVICE_MAP[param.value] && v.value != ""
  {
    if param.Some? && param.value != "" && param.value in SERVICE_MAP then Some(SERVICE_MAP[param.value]) else None
  }

  /** The index of the first option equal to `v`, or -1. */
  function FirstIndex(options: seq<string>, v: string): (k: int)
    ensures -1 <= k < |options|
    ensures k >= 0 ==> options[k] == v && forall j :: 0 <= j < k ==> options[j] != v
    ensures k == -1 <==> v !in options
  {
    if options == [] then -1
    else if options[0] == v then 0
    else
      var k := FirstIndex(options[1..], v);
      assert forall j :: 1 <= j < |options| ==> options[j] == options[1..][j - 1];
      if k == -1 then -1 else k + 1
  }

  /** The option the keyword search picks: the first whose lower-cased
      value includes the lower-cased keyword, or -1. */
  function FirstIncluding(options: seq<string>, keyword: string): (k: int)
    ensures -1 <= k < |options|
    ensures k >= 0 ==> Contains(ToLower(options[k]), ToLower(keyword))
    ensures forall j :: 0 <= j < |options| && (k == -1 || j < k) ==> !Contains(ToLower(options[j]), ToLower(keyword))
  {
    if options == [] then -1
    else if Contains(ToLower(options[0]), ToLower(keyword)) then 0
    else
      var k := FirstIncluding(options[1..], keyword);
      assert forall j :: 1 <= j < |options| ==> options[j] == options[1..][j - 1];
      if k == -1 then -1 else k + 1
  }

  // ---------------------------------------------------------------------
  // WhatsApp messages

  /** `submitToWhatsApp`'s message: the four fields in the order name,
      phone, service, message. */
  function CustomerMessage(name: string, phone: string, service: string, message: string): string {
    "*Customer Details:*\n• Name: " + name + "\n• Phone: " + phone +
    "\n• Service Required: " + service + "\n\n*Inquiry Details:*\n" + message
  }

  /** Each field sits at a fixed offset after the fields before it, so the
      message lists name, phone, service and message in that order, and
      each can be read back out of it. */
  lemma CustomerMessageFields(name: string, phone: string, service: string, message: string)
    ensures var m := CustomerMessage(name, phone, service, message);
      var i1 := 28;
      var i2 := i1 + |name| + 10;
      var i3 := i2 + |phone| + 21;
      var i4 := i3 + |service| + 21;
      |m| == i4 + |message| &&
      m[i1..i1 + |name|] == name && m[i2..i2 + |phone|] == phone &&
      m[i3..i3 + |service|] == service && m[i4..] == message
  {
    var p1, p2, p3, p4 := "*Customer Details:*\n• Name: ", "\n• Phone: ", "\n• Service Required: ", "\n\n*Inquiry Details:*\n";
    assert |p1| == 28 && |p2| == 10 && |p3| == 21 && |p4| == 21;
    var m := CustomerMessage(name, phone, service, message);
    var a := p1 + name;
    var b := a + p2 + phone;
    var c := b + p3 + service;
    assert m == c + p4 + message;
    assert m[..|c|] == c;
    assert c[..|b|] == b;
    assert b[..|a|] == a;
    assert m[28..28 + |name|] == a[28..];
  }

  datatype WhatsAppResult = MissingFields | InvalidPhone | Opened(url: string)

  /** `submitToWhatsApp()`: name, phone and message are trimmed (the service
      is not); any empty field stops it before the phone check. */
  function SubmitToWhatsApp(name: string, phone: string, service: string, message: string,
                            encode: string -> string): (r: WhatsAppResult)
    ensures r == MissingFields <==> Trim(name) == "" || Trim(phone) == "" || service == "" || Trim(message) == ""
    ensures r == InvalidPhone <==> r != MissingFields && !IsIndianMobile(Trim(phone))
    ensures r.Opened? ==>
      r.url == "https://wa.me/919994120140?text=" + encode(CustomerMessage(Trim(name), Trim(phone), service, Trim(message)))
  {
    var n, p, m := Trim(name), Trim(phone), Trim(message);
    if n == "" || p == "" || service == "" || m == "" then MissingFields
    else if !IsIndianMobile(p) then InvalidPhone
    else Opened("https://wa.me/919994120140?text=" + encode(CustomerMessage(n, p, service, m)))
  }

  const HANDLER_HEAD := "*New Inquiry from Website*\n\n*Name:* "
  const HANDLER_TAIL := "\n\nPlease provide more details about this service."

  /** The body of the submit handler's message before `trim()`. */
  function HandlerBody(name: string, phone: string, service: string, message: string): string {
    HANDLER_HEAD + HandlerFields(name, phone, service, message) + HANDLER_TAIL
  }

  function HandlerFields(name: string, phone: string, service: string, message: string): string {
    name + "\n*Phone:* " + phone + "\n*Service Required:* " + service + "\n*Message:* " + message
  }

  /** The template literal as written: a leading newline and a trailing
      newline plus the indentation of the closing line. */
  function HandlerMessage(name: string, phone: string, service: string, message: string): string {
    Trim("\n" + HandlerBody(name, phone, service, message) + "\n                ")
  }

  /** The `trim()` only removes the literal's own padding: the fields, even
      with surrounding blanks, reach the message unchanged. */
  lemma HandlerMessageIsBody(name: string, phone: string, service: string, message: string)
    ensures HandlerMessage(name, phone, service, message) == HandlerBody(name, phone, service, message)
  {
    var b := HandlerBody(name, phone, service, message);
    ConcatEnds(HANDLER_HEAD, HandlerFields(name, phone, service, message), HANDLER_TAIL);
    assert !IsWs(HANDLER_HEAD[0]) && !IsWs(HANDLER_TAIL[|HANDLER_TAIL| - 1]);
    assert AllWs("\n") && AllWs("\n                ");
    TrimIgnoresPadding("\n", b, "\n                ");
    TrimOfNonBlankEnds(b);
  }

  /** The link the submit handler opens: the encoded message goes to the
      9994120140 chat, and it carries the fields untouched by the
      `trim()`. */
  function HandlerUrl(name: string, phone: string, service: string, message: string,
                      encode: string -> string): (url: string)
    ensures url == "https://wa.me/9994120140?text=" + encode(HandlerBody(name, phone, service, message))
  {
    HandlerMessageIsBody(name, phone, service, message);
    "https://wa.me/9994120140?text=" + encode(HandlerMessage(name, phone, service, message))
  }

  /** The first character of `a + m + z` is `a`'s, the last is `z`'s. */
  lemma ConcatEnds(a: string, m: string, z: string)
    requires a != [] && z != []
    ensures var s := a + m + z; s != [] && s[0] == a[0] && s[|s| - 1] == z[|z| - 1]
  {
  }

  // ---------------------------------------------------------------------
  // Message templates

  /** The body of each template, by name; the texts themselves are not
      reproduced (see the README). */
  datatype TemplateBody =
    | NewPanCard | PanCorrection | NewPassport | PassportRenewal | NewAadhaar | AadhaarUpdate
    | DomesticFlight | InternationalFlight | GeneralBooking | TatkalBooking | StandardRequest | GeneralInquiry

  datatype Template = Template(title: string, body: TemplateBody)

  /** The services with templates of their own. */
  predicate HasTemplates(service: string) {
    service == "PAN Card Services" || service == "Passport Services" || service == "Aadhaar Services" ||
    service == "Air Ticket Booking" || service == "Train Ticket Booking" || service == "Income Certificate" ||
    service == "Other"
  }

  /** `messageTemplates[service]`. */
  function TemplatesFor(service: string): (ts: seq<Template>)
    requires HasTemplates(service)
    ensures |ts| == (if service == "Income Certificate" || service == "Other" then 1 else 2)
  {
    match service
    case "PAN Card Services" => [Template("New PAN Card", NewPanCard), Template("PAN Correction", PanCorrection)]
    case "Passport Services" => [Template("New Passport", NewPassport), Template("Passport Renewal", PassportRenewal)]
    case "Aadhaar Services" => [Template("New Aadhaar", NewAadhaar), Template("Aadhaar Update", AadhaarUpdate)]
    case "Air Ticket Booking" => [Template("Domestic Flight", DomesticFlight), Template("International Flight", InternationalFlight)]
    case "Train Ticket Booking" => [Template("General Booking", GeneralBooking), Template("Tatkal Booking", TatkalBooking)]
    case "Income Certificate" => [Template("Standard Request", StandardRequest)]
    case _ => [Template("General Inquiry", GeneralInquiry)]
  }


  const DEFAULT_PREFIX := "I need assistance with "
  const DEFAULT_SUFFIX := ". Please provide information about:\n- Required documents\n- Processing time\n- Service charges\n- Any additional requirements\n\nMy specific requirement: [Please describe in detail]"
  const DEFAULT_TEMPLATE := DEFAULT_PREFIX + "[Service]" + DEFAULT_SUFFIX

  /** `defaultTemplate.replace('[Service]', service)`. */
  function DefaultMessage(service: string): string {
    ReplaceFirst(DEFAULT_TEMPLATE, "[Service]", service)
  }

  /** Only the placeholder is replaced: the default message is the fixed
      opening, the service name, then the fixed rest, whatever the name. */
  lemma DefaultMessageShape(service: string)
    ensures DefaultMessage(service) == DEFAULT_PREFIX + service + DEFAULT_SUFFIX
  {
    forall j | 0 <= j < |DEFAULT_PREFIX| ensures !OccursAt(DEFAULT_TEMPLATE, "[Service]", j) {
      assert DEFAULT_TEMPLATE[j] == DEFAULT_PREFIX[j] != '[';
    }
    ReplaceAt(DEFAULT_PREFIX, "[Service]", DEFAULT_SUFFIX, service);
  }

  datatype Button = TemplateButton(template: Template) | BlankButton

  /** The buttons offered for a service with templates: one per template,
      then "Blank Template" when there is more than one. */
  function ButtonsFor(ts: seq<Template>): (bs: seq<Button>)
    ensures |bs| == |ts| + (if |ts| > 1 then 1 else 0)
    ensures forall k :: 0 <= k < |ts| ==> bs[k] == TemplateButton(ts[k])
    ensures BlankButton in bs <==> |ts| > 1
  {
    var tb := seq(|ts|, k requires 0 <= k < |ts| => TemplateButton(ts[k]));
    assert BlankButton !in tb;
    tb + (if |ts| > 1 then [BlankButton] else [])
  }

  /** `'Other'` has templates of its own, so the branch reserved for it is
      never taken. */
  lemma OtherBranchUnreachable()
    ensures HasTemplates("Other") && |TemplatesFor("Other")| == 1
  {
  }

  /** A "Blank Template" button is offered exactly for the services with two
      templates, that is all but "Income Certificate" and "Other". */
  lemma BlankOfferedIff(service: string)
    requires HasTemplates(service)
    ensures BlankButton in ButtonsFor(TemplatesFor(service)) <==>
      service != "Income Certificate" && service != "Other"
  {
  }

  // ---------------------------------------------------------------------
  // Character counter

  datatype Colour = DarkGray | Warning | Error

  /** The counter's text, `(n/500 characters)`. */
  function CharCountLabel(n: nat): string {
    "(" + NatToString(n) + "/500 characters)"
  }

  /** The label can be read back: between the opening parenthesis and the
      slash stand exactly the digits of the length. */
  lemma CharCountLabelReadsBack(n: nat)
    ensures var l := CharCountLabel(n); var d := |NatToString(n)|;
      l[0] == '(' && l[d + 1] == '/' && AllDigits(l[1..d + 1]) && DigitsValue(l[1..d + 1]) == n
  {
    var l := CharCountLabel(n);
    assert l[1..|NatToString(n)| + 1] == NatToString(n);
    NatToStringRoundTrip(n);
  }

  /** The colour chain as written: the `> 450` test comes first, so the
      `> 490` branch can never be reached. */
  function CharCountColourAsWritten(n: nat): (c: Colour)
    ensures c == Warning <==> n > 450
    ensures c == DarkGray <==> n <= 450
  {
    if n > 450 then Warning else if n > 490 then Error else DarkGray
  }

  /** The as-written chain never shows the error colour, even at 491. */
  lemma AsWrittenNeverError(n: nat)
    ensures CharCountColourAsWritten(n) != Error
    ensures CharCountColourAsWritten(491) == Warning
  {
  }

  /** The evidently intended chain: the stricter threshold tested first. */
  function CharCountColour(n: nat): (c: Colour)
    ensures c == Error <==> n > 490
    ensures c == Warning <==> 450 < n <= 490
    ensures c == DarkGray <==> n <= 450
  {
    if n > 490 then Error else if n > 450 then Warning else DarkGray
  }

  /** The two chains differ exactly above 490. */
  lemma ColourChainsAgreeUpTo490(n: nat)
    ensures CharCountColour(n) == CharCountColourAsWritten(n) <==> n <= 490
  {
  }

  // ---------------------------------------------------------------------
  // The page

  class InquiryPage {
    /** Values of the service `<select>`'s options, and its selected index. */
    var options: seq<string>
    var selectedIndex: int
    var name: string
    var phone: string
    var message: string
    /** Error marks set by the validators. */
    var nameError: bool
    var phoneError: bool
    var serviceError: bool
    var messageError: bool
    /** The template area: whether it is shown, and its buttons. */
    var buttonsShown: bool
    var buttons: seq<Button>
    var charLabel: string
    var charColour: Colour
    /** The submit button is disabled and shows "Processing..." while the
        one-second send timer is pending. */
    var sending: bool
    /** `#formSuccess` is displayed. */
    var successShown: bool

    /** `serviceSelect.value`: the selected option's value, or "" when no
        option is selected. */
    function ServiceValue(): string
      reads this
    {
      if 0 <= selectedIndex < |options| then options[selectedIndex] else ""
    }

    constructor (opts: seq<string>)
      ensures options == opts && selectedIndex == (if opts == [] then -1 else 0)
      ensures name == "" && phone == "" && message == ""
      ensures !nameError && !phoneError && !serviceError && !messageError
      ensures !buttonsShown && buttons == [] && !sending && !successShown
    {
      options := opts;
      selectedIndex := if opts == [] then -1 else 0;
      name, phone, message := "", "", "";
      nameError, phoneError, serviceError, messageError := false, false, false, false;
      buttonsShown, buttons := false, [];
      charLabel, charColour := CharCountLabel(0), DarkGray;
      sending, successShown := false, false;
    }

    /** `getServiceFromUrl()`: select the first option equal to the mapped
        name; without a known slug, or with no such option, nothing changes. */
    method GetServiceFromUrl(param: Option<string>)
      modifies this
      ensures options == old(options)
      ensures MappedService(param).Some? && MappedService(param).value in options ==>
        selectedIndex == FirstIndex(options, MappedService(param).value) &&
        ServiceValue() == MappedService(param).value
      ensures MappedService(param).None? || MappedService(param).value !in options ==>
        selectedIndex == old(selectedIndex)
      ensures name == old(name) && phone == old(phone) && message == old(message)
      ensures buttons == old(buttons) && buttonsShown == old(buttonsShown)
      ensures nameError == old(nameError) && phoneError == old(phoneError)
      ensures serviceError == old(serviceError) && messageError == old(messageError)
      ensures charLabel == old(charLabel) && charColour == old(charColour)
      ensures sending == old(sending) && successShown == old(successShown)
    {
      if param.None? || param.value == "" {
        return;
      }
      var mapped := MappedService(param);
      if mapped.Some? {
        var v := mapped.value;
        var i := 0;
        while i < |options|
          invariant 0 <= i <= |options|
          invariant forall j :: 0 <= j < i ==> options[j] != v
          invariant selectedIndex == old(selectedIndex)
        {
          if options[i] == v {
            selectedIndex := i;
            return;
          }
          i := i + 1;
        }
      }
    }

    /** The second load handler: select the first option whose value,
        lower-cased, includes the lower-cased parameter, and refresh the
        templates for it. */
    method SelectByKeyword(param: Option<string>)
      modifies this
      ensures options == old(options)
      ensures var k := if param.Some? && param.value != "" then FirstIncluding(options, param.value) else -1;
        (k == -1 ==> selectedIndex == old(selectedIndex) && message == old(message) &&
                     buttons == old(buttons) && buttonsShown == old(buttonsShown) &&
                     charLabel == old(charLabel) && charColour == old(charColour)) &&
        (k >= 0 ==> selectedIndex == k && Templated(options[k])) &&
        (k >= 0 && HasTemplates(options[k]) ==>
          message == old(message) && charLabel == old(charLabel) && charColour == old(charColour))
      ensures name == old(name) && phone == old(phone)
      ensures nameError == old(nameError) && phoneError == old(phoneError)
      ensures serviceError == old(serviceError) && messageError == old(messageError)
      ensures sending == old(sending) && successShown == old(successShown)
    {
      if param.None? || param.value == "" {
        return;
      }
      var i := 0;
      while i < |options|
        invariant 0 <= i <= |options|
        invariant forall j :: 0 <= j < i ==> !Contains(ToLower(options[j]), ToLower(param.value))
        invariant selectedIndex == old(selectedIndex)
      {
        if Contains(ToLower(options[i]), ToLower(param.value)) {
          selectedIndex := i;
          UpdateMessageTemplate();
          return;
        }
        i := i + 1;
      }
    }

    /** The template area and message after `updateMessageTemplate` for the
        service `s`, whatever the message was before. */
    ghost predicate Templated(s: string)
      reads this
    {
      (s == "" ==> !buttonsShown && buttons == []) &&
      (s != "" && HasTemplates(s) ==> buttonsShown && buttons == ButtonsFor(TemplatesFor(s))) &&
      (s != "" && !HasTemplates(s) ==>
        !buttonsShown && buttons == [] && message == DefaultMessage(s) &&
        charLabel == CharCountLabel(|message|) && charColour == CharCountColourAsWritten(|message|))
    }

    /** `updateMessageTemplate()`. */
    method UpdateMessageTemplate()
      modifies this
      ensures Templated(ServiceValue())
      ensures options == old(options) && selectedIndex == old(selectedIndex)
      ensures ServiceValue() == "" || HasTemplates(ServiceValue()) ==>
        message == old(message) && charLabel == old(charLabel) && charColour == old(charColour)
      ensures name == old(name) && phone == old(phone)
      ensures nameError == old(nameError) && phoneError == old(phoneError)
      ensures serviceError == old(serviceError) && messageError == old(messageError)
      ensures sending == old(sending) && successShown == old(successShown)
    {
      var s := ServiceValue();
      buttons := [];
      if s == "" {
        buttonsShown := false;
        return;
      }
      if HasTemplates(s) {
        buttonsShown := true;
        buttons := ButtonsFor(TemplatesFor(s));
      } else if s == "Other" {
        assert false;
      } else {
        buttonsShown := false;
        message := DefaultMessage(s);
        UpdateCharCount();
      }
    }

    /** A template button writes its template's text into the message
        field; the blank button empties it. Either way the counter is
        refreshed. */
    method ClickButton(b: Button, text: TemplateBody -> string)
      modifies this
      ensures message == (if b.BlankButton? then "" else text(b.template.body))
      ensures charLabel == CharCountLabel(|message|) && charColour == CharCountColourAsWritten(|message|)
      ensures options == old(options) && selectedIndex == old(selectedIndex)
      ensures buttons == old(buttons) && buttonsShown == old(buttonsShown)
      ensures name == old(name) && phone == old(phone)
      ensures nameError == old(nameError) && phoneError == old(phoneError)
      ensures serviceError == old(serviceError) && messageError == old(messageError)
      ensures sending == old(sending) && successShown == old(successShown)
    {
      message := if b.BlankButton? then "" else text(b.template.body);
      UpdateCharCount();
    }

    /** `updateCharCount()` as written: over 450 characters always gets
        the warning colour. */
    method UpdateCharCount()
      modifies this
      ensures charLabel == CharCountLabel(|message|) && charColour == CharCountColourAsWritten(|message|)
      ensures message == old(message) && options == old(options) && selectedIndex == old(selectedIndex)
      ensures buttons == old(buttons) && buttonsShown == old(buttonsShown)
      ensures name == old(name) && phone == old(phone)
      ensures nameError == old(nameError) && phoneError == old(phoneError)
      ensures serviceError == old(serviceError) && messageError == old(messageError)
      ensures sending == old(sending) && successShown == old(successShown)
    {
      var n := |message|;
      charLabel := "(" + NatToString(n) + "/500 characters)";
      var c: Colour;
      if n > 450 {
        c := Warning;
      } else if n > 490 {
        c := Error;
      } else {
        c := DarkGray;
      }
      charColour := c;
    }

    /** The counter with the colour chain in its intended order: the error
        colour above 490 characters. */
    method UpdateCharCountIntended()
      modifies this
      ensures charLabel == CharCountLabel(|message|) && charColour == CharCountColour(|message|)
      ensures charColour == Error <==> |message| > 490
      ensures message == old(message) && options == old(options) && selectedIndex == old(selectedIndex)
      ensures buttons == old(buttons) && buttonsShown == old(buttonsShown)
      ensures name == old(name) && phone == old(phone)
      ensures nameError == old(nameError) && phoneError == old(phoneError)
      ensures serviceError == old(serviceError) && messageError == old(messageError)
      ensures sending == old(sending) && successShown == old(successShown)
    {
      var n := |message|;
      charLabel := "(" + NatToString(n) + "/500 characters)";
      if n > 490 {
        charColour := Error;
      } else if n > 450 {
        charColour := Warning;
      } else {
        charColour := DarkGray;
      }
    }

    /** The page's load handlers in registration order: the slug lookup,
        then the keyword search, then the counter. A keyword match wins and
        shows its templates; without one the slug's selection stands and the
        message and buttons are untouched. */
    method OnLoad(param: Option<string>)
      modifies this
      ensures options == old(options)
      ensures charLabel == CharCountLabel(|message|) && charColour == CharCountColourAsWritten(|message|)
      ensures var k := if param.Some? && param.value != "" then FirstIncluding(options, param.value) else -1;
        (k >= 0 ==> selectedIndex == k && Templated(options[k])) &&
        (k >= 0 && HasTemplates(options[k]) ==> message == old(message)) &&
        (k == -1 ==>
          selectedIndex == (if MappedService(param).Some? && MappedService(param).value in options
                            then FirstIndex(options, MappedService(param).value) else old(selectedIndex)) &&
          message == old(message) && buttons == old(buttons) && buttonsShown == old(buttonsShown))
      ensures name == old(name) && phone == old(phone)
      ensures nameError == old(nameError) && phoneError == old(phoneError)
      ensures serviceError == old(serviceError) && messageError == old(messageError)
      ensures sending == old(sending) && successShown == old(successShown)
    {
      GetServiceFromUrl(param);
      SelectByKeyword(param);
      UpdateCharCount();
    }

    method ValidateName() returns (ok: bool)
      modifies this
      ensures ok == ValidName(name) && nameError == !ok
      ensures name == old(name) && phone == old(phone) && message == old(message)
      ensures options == old(options) && selectedIndex == old(selectedIndex)
      ensures phoneError == old(phoneError) && serviceError == old(serviceError) && messageError == old(messageError)
      ensures sending == old(sending) && successShown == old(successShown)
      ensures buttons == old(buttons) && buttonsShown == old(buttonsShown)
      ensures charLabel == old(charLabel) && charColour == old(charColour)
    {
      ok := |Trim(name)| >= 2;
      nameError := !ok;
    }

    method ValidatePhone() returns (ok: bool)
      modifies this
      ensures ok == ValidPhone(phone) && phoneError == !ok
      ensures name == old(name) && phone == old(phone) && message == old(message)
      ensures options == old(options) && selectedIndex == old(selectedIndex)
      ensures nameError == old(nameError) && serviceError == old(serviceError) && messageError == old(messageError)
      ensures sending == old(sending) && successShown == old(successShown)
      ensures buttons == old(buttons) && buttonsShown == old(buttonsShown)
      ensures charLabel == old(charLabel) && charColour == old(charColour)
    {
      ok := IsIndianMobile(phone);
      phoneError := !ok;
    }

    method ValidateService() returns (ok: bool)
      modifies this
      ensures ok == ValidService(ServiceValue()) && serviceError == !ok
      ensures name == old(name) && phone == old(phone) && message == old(message)
      ensures options == old(options) && selectedIndex == old(selectedIndex)
      ensures nameError == old(nameError) && phoneError == old(phoneError) && messageError == old(messageError)
      ensures sending == old(sending) && successShown == old(successShown)
      ensures buttons == old(buttons) && buttonsShown == old(buttonsShown)
      ensures charLabel == old(charLabel) && charColour == old(charColour)
    {
      ok := ServiceValue() != "";
      serviceError := !ok;
    }

    method ValidateMessage() returns (ok: bool)
      modifies this
      ensures ok == ValidMessage(message) && messageError == !ok
      ensures name == old(name) && phone == old(phone) && message == old(message)
      ensures options == old(options) && selectedIndex == old(selectedIndex)
      ensures nameError == old(nameError) && phoneError == old(phoneError) && serviceError == old(serviceError)
      ensures sending == old(sending) && successShown == old(successShown)
      ensures buttons == old(buttons) && buttonsShown == old(buttonsShown)
      ensures charLabel == old(charLabel) && charColour == old(charColour)
    {
      ok := |Trim(message)| >= 10;
      messageError := !ok;
    }

    /** The submit handler: all four validators run, each marking its own
        field; only when all four pass is the button disabled and the send
        scheduled. */
    method Submit() returns (valid: bool)
      modifies this
      ensures nameError == !ValidName(name) && phoneError == !ValidPhone(phone)
      ensures serviceError == !ValidService(ServiceValue()) && messageError == !ValidMessage(message)
      ensures valid <==> !nameError && !phoneError && !serviceError && !messageError
      ensures sending == (valid || old(sending))
      ensures name == old(name) && phone == old(phone) && message == old(message)
      ensures options == old(options) && selectedIndex == old(selectedIndex)
      ensures successShown == old(successShown)
      ensures buttons == old(buttons) && buttonsShown == old(buttonsShown)
      ensures charLabel == old(charLabel) && charColour == old(charColour)
    {
      var okName := ValidateName();
      var okPhone := ValidatePhone();
      var okService := ValidateService();
      var okMessage := ValidateMessage();
      valid := okName && okPhone && okService && okMessage;
      if valid {
        sending := true;
      }
    }

    /** The send timer: the WhatsApp link is built from the fields as they
        are now, the form is reset to its defaults, the success notice is
        shown and the button is enabled again. */
    method SendTimerFires(encode: string -> string) returns (url: string)
      requires sending
      modifies this
      ensures url == "https://wa.me/9994120140?text=" +
        encode(HandlerBody(old(name), old(phone), old(ServiceValue()), old(message)))
      ensures name == "" && phone == "" && message == ""
      ensures options == old(options) && selectedIndex == (if options == [] then -1 else 0)
      ensures successShown && !sending
      ensures nameError == old(nameError) && phoneError == old(phoneError)
      ensures serviceError == old(serviceError) && messageError == old(messageError)
      ensures buttons == old(buttons) && buttonsShown == old(buttonsShown)
      ensures charLabel == old(charLabel) && charColour == old(charColour)
    {
      url := HandlerUrl(name, phone, ServiceValue(), message, encode);
      name, phone, message := "", "", "";
      selectedIndex := if options == [] then -1 else 0;
      successShown, sending := true, false;
    }

    /** Five seconds later the success notice is hidden. */
    method SuccessTimerFires()
      modifies this
      ensures !successShown
      ensures name == old(name) && phone == old(phone) && message == old(message)
      ensures options == old(options) && selectedIndex == old(selectedIndex) && sending == old(sending)
      ensures nameError == old(nameError) && phoneError == old(phoneError)
      ensures serviceError == old(serviceError) && messageError == old(messageError)
      ensures buttons == old(buttons) && buttonsShown == old(buttonsShown)
      ensures charLabel == old(charLabel) && charColour == old(charColour)
    {
      successShown := false;
    }
  }
}
