/** src/utils/whatsapp.ts: the messages the site pre-fills and the `wa.me` link
    that carries them. */
module WhatsApp {
  import opened Wrappers
  import opened UriEncoding

  const WhatsAppNumber: string := "5595991522205"
  const LinkPrefix: string := "https://wa.me/" + WhatsAppNumber + "?text="

  const Addressee: string := "Olá Cléia"
  const AnonymousGreeting: string := Addressee + "."
  const NamedGreetingStart: string := Addressee + ", meu nome é "
  const RequestText: string := " Gostaria de agendar o serviço "
  const Closing: string := "Poderia me informar os horários disponíveis?"

  predicate StartsWith(s: string, prefix: string) {
    |prefix| <= |s| && s[..|prefix|] == prefix
  }

  predicate EndsWith(s: string, suffix: string) {
    |suffix| <= |s| && s[|s| - |suffix|..] == suffix
  }

  lemma ConcatStartsAndEnds(a: string, b: string)
    ensures StartsWith(a + b, a) && EndsWith(a + b, b)
  {
  }

  lemma NestedConcat(a: string, b: string, c: string)
    ensures StartsWith(a + (b + c), a + b) && EndsWith(a + (b + c), c)
  {
  }

  lemma EndsWithShorter(s: string, x: string, c: string)
    requires EndsWith(s, x + c)
    ensures EndsWith(s, c)
  {
  }

  lemma CancelPrefix(a: string, b: string, c: string)
    requires a + b == a + c
    ensures b == c
  {
    assert b == (a + b)[|a|..];
    assert c == (a + c)[|a|..];
  }

  lemma CancelSuffix(a: string, b: string, c: string)
    requires a + c == b + c
    ensures a == b
  {
    assert a == (a + c)[..|a|];
    assert b == (b + c)[..|b|];
  }

  /** `createWhatsAppLink(message)`: the fixed prefix, then `encodeURIComponent`
      of the message, which decodes back exactly and holds nothing that could
      end the `text` parameter. */
  function CreateWhatsAppLink(message: string): (r: string)
    ensures r == LinkPrefix + EncodeURIComponent(message)
    ensures |r| >= |LinkPrefix| && r[..|LinkPrefix|] == LinkPrefix
    ensures DecodeURIComponent(r[|LinkPrefix|..]) == Some(message)
    ensures forall i :: |LinkPrefix| <= i < |r| ==> IsEncodedChar(r[i])
  {
    var encoded := EncodeURIComponent(message);
    DecodeEncode(message);
    assert (LinkPrefix + encoded)[|LinkPrefix|..] == encoded;
    LinkPrefix + encoded
  }

  /** Different messages give different links. */
  lemma LinkIsInjective(m1: string, m2: string)
    requires CreateWhatsAppLink(m1) == CreateWhatsAppLink(m2)
    ensures m1 == m2
  {
  }

  /** A message of unreserved characters only (ASCII letters and digits among
      them) appears in the link verbatim. */
  lemma LinkOfPlainMessage(message: string)
    requires forall i :: 0 <= i < |message| ==> IsUnreserved(message[i])
    ensures CreateWhatsAppLink(message) == LinkPrefix + message
  {
    EncodeIsIdentityIff(message);
  }

  /** `customerName ? ... : 'Olá Cléia.'`: an unset or empty name is falsy. */
  function Greeting(customerName: Option<string>): string {
    if customerName.Some? && customerName.value != ""
    then NamedGreetingStart + customerName.value + "."
    else AnonymousGreeting
  }

  /** `getAppointmentMessage(serviceName, customerName)`: the greeting, then the
      request naming the service between asterisks, ending with the question
      about available times. */
  function GetAppointmentMessage(serviceName: string, customerName: Option<string>): (r: string)
    ensures StartsWith(r, Greeting(customerName) + RequestText)
    ensures |r| == |Greeting(customerName)| + |RequestText| + |serviceName| + 4 + |Closing|
    ensures customerName.Some? && customerName.value != "" ==>
      StartsWith(r, NamedGreetingStart + customerName.value + ".")
    ensures customerName == None || customerName == Some("") ==>
      StartsWith(r, AnonymousGreeting + RequestText)
    ensures EndsWith(r, "*" + serviceName + "*. " + Closing)
    ensures EndsWith(r, Closing)
  {
    var g := Greeting(customerName);
    var request := "*" + serviceName + "*. " + Closing;
    ConcatStartsAndEnds(g, RequestText + request);
    NestedConcat(g, RequestText, request);
    EndsWithShorter(g + (RequestText + request), "*" + serviceName + "*. ", Closing);
    g + (RequestText + request)
  }

  /** The message names the service: for one customer, two services never give
      the same message. */
  lemma AppointmentMessageIdentifiesService(s1: string, s2: string, customerName: Option<string>)
    requires GetAppointmentMessage(s1, customerName) == GetAppointmentMessage(s2, customerName)
    ensures s1 == s2
  {
    var g := Greeting(customerName);
    CancelPrefix(g, RequestText + ("*" + s1 + "*. " + Closing), RequestText + ("*" + s2 + "*. " + Closing));
    CancelPrefix(RequestText, "*" + s1 + "*. " + Closing, "*" + s2 + "*. " + Closing);
    CancelSuffix("*" + s1 + "*. ", "*" + s2 + "*. ", Closing);
    CancelSuffix("*" + s1, "*" + s2, "*. ");
    CancelPrefix("*", s1, s2);
  }

  /** `getGeneralContactMessage()`: one fixed message, addressed like the
      appointment messages. */
  function GetGeneralContactMessage(): (r: string)
    ensures StartsWith(r, Addressee + ", ")
  {
    ConcatStartsAndEnds(Addressee + ", ", "gostaria de saber mais sobre seus serviços de Nail Design.");
    (Addressee + ", ") + "gostaria de saber mais sobre seus serviços de Nail Design."
  }
}
