// The decision logic of app/components/ServiceCard.tsx: which URL the card
// links to, what it shows as the service's picture, the health and
// public-URL status the card keeps between renders, and which indicator it
// draws from that status. Rendering itself is not modelled.
module ServiceCard {
  import opened Js
  import opened Models
  import Health

  // ---- isUrl ----

  predicate IsAlpha(c: char) {
    'a' <= c <= 'z' || 'A' <= c <= 'Z'
  }

  predicate IsSchemeChar(c: char) {
    IsAlpha(c) || IsDigit(c) || c == '+' || c == '-' || c == '.'
  }

  /** `s` opens with a URL scheme and its colon: a letter, then letters,
      digits, '+', '-' or '.', then ':'. */
  predicate HasScheme(s: string) {
    exists k | 1 <= k < |s| :: s[k] == ':' && IsAlpha(s[0]) && forall j | 1 <= j < k :: IsSchemeChar(s[j])
  }

  /** `isUrl(str)`: false for a falsy string, else whether `new URL(str)`
      accepts it, which here means whether it opens with a scheme. */
  function IsUrl(str: Option<string>): (r: bool)
    ensures r ==> Truthy(str)
  {
    Truthy(str) && HasScheme(str.value)
  }

  /** Every URL the model builds opens with "http:" or "https:", so the
      card takes it for a URL. */
  lemma HttpUrlIsUrl(s: string)
    requires "http://" <= s || "https://" <= s
    ensures IsUrl(Some(s))
  {
    var k := if "http://" <= s then 4 else 5;
    assert s[k] == ':' && IsAlpha(s[0]);
    assert forall j | 1 <= j < k :: IsSchemeChar(s[j]);
  }

  // ---- getDisplayContent ----

  /** The default picture, U+1F50C ELECTRIC PLUG. */
  const Plug: string := "\U{1F50C}"

  lemma PlugIsNotUrl()
    ensures !IsUrl(Some(Plug))
  {
  }

  datatype DisplayContent = Image(url: string) | Icon(text: string)

  /** `getDisplayContent()`: the image field, else the icon when it is a
      URL, shown as an image until it fails to load; otherwise the icon as
      text when it is not a URL, else the plug. */
  function GetDisplayContent(service: ServiceDefinition, imageError: bool): (c: DisplayContent)
    ensures c.Image? <==> !imageError && (Truthy(service.image) || IsUrl(service.icon))
    ensures c.Image? ==> c.url == (if Truthy(service.image) then service.image.value else service.icon.value)
    ensures c.Icon? && Truthy(service.icon) && !IsUrl(service.icon) ==> c.text == service.icon.value
    ensures c.Icon? && !(Truthy(service.icon) && !IsUrl(service.icon)) ==> c.text == Plug
  {
    var imageUrl := if Truthy(service.image) then service.image else if IsUrl(service.icon) then service.icon else None;
    var iconEmoji := if !IsUrl(service.icon) then service.icon else None;
    if Truthy(imageUrl) && !imageError then Image(imageUrl.value)
    else Icon(if Truthy(iconEmoji) then iconEmoji.value else Plug)
  }

  /** Text the card shows in place of a picture is never a URL, and is
      never empty. */
  lemma DisplayedTextIsNotUrl(service: ServiceDefinition, imageError: bool)
    ensures var c := GetDisplayContent(service, imageError);
      c.Icon? ==> !IsUrl(Some(c.text)) && c.text != ""
  {
    PlugIsNotUrl();
  }

  /** Once the image failed to load, the card shows text, and the same text
      it would show for a service without image or URL icon. */
  lemma ImageErrorFallsBack(service: ServiceDefinition)
    ensures GetDisplayContent(service, true).Icon?
    ensures GetDisplayContent(service, true) ==
      GetDisplayContent(service.(image := None, icon := if IsUrl(service.icon) then None else service.icon), false)
  {
  }

  // ---- serviceUrl and primaryUrl ----

  /** `${protocol}://${host}:${primaryPort}` with the protocol defaulting
      to http; with no port, `ports[0]` is undefined and prints so. */
  function ServiceUrl(service: ServiceDefinition, host: string): (url: string)
    ensures |service.ports| > 0 ==> url == GetUrl(NewService(service), host, service.ports[0])
    ensures |service.ports| == 0 ==> url == ProtocolName(service.protocol.GetOr(Http)) + "://" + host + ":undefined"
  {
    ProtocolName(service.protocol.GetOr(Http)) + "://" + host + ":"
      + (if |service.ports| > 0 then NatToString(service.ports[0]) else "undefined")
  }

  /** `service.publicUrl || serviceUrl`. */
  function PrimaryUrl(service: ServiceDefinition, host: string): (url: string)
    ensures Truthy(service.publicUrl) ==> url == service.publicUrl.value
    ensures !Truthy(service.publicUrl) ==> url == ServiceUrl(service, host)
  {
    NonEmpty(service.publicUrl).GetOr(ServiceUrl(service, host))
  }

  /** The link always leads somewhere: the public URL when set, otherwise a
      URL of the service's own scheme ending in its first port. */
  lemma PrimaryUrlFallsBack(service: ServiceDefinition, host: string)
    requires !Truthy(service.publicUrl) && |service.ports| > 0
    ensures var url := PrimaryUrl(service, host);
      && IsUrl(Some(url))
      && (service.protocol != Some(Https) <==> "http://" <= url)
      && ParseInt(url[|url| - |NatToString(service.ports[0])|..]) == Some(service.ports[0])
  {
    GetUrlShape(service, host, service.ports[0]);
    var url := PrimaryUrl(service, host);
    HttpUrlIsUrl(url);
  }

  // ---- the health check the card runs through the proxy ----

  /** The query `checkHealth` sends to /api/healthcheck: none without a
      health-check URL; `expectedStatus` only when that field is truthy. */
  function HealthQuery(service: ServiceDefinition): (q: Option<Health.Request>)
    ensures q.Some? <==> Truthy(service.healthcheckUrl)
    ensures q.Some? ==> q.value.Query? && q.value.url == service.healthcheckUrl
    ensures q.Some? ==> (q.value.expectedStatus.Some? <==> NonZero(service.healthcheckExpectedStatus).Some?)
  {
    if !Truthy(service.healthcheckUrl) then None
    else
      var expected := NonZero(service.healthcheckExpectedStatus);
      Some(Health.Query(service.healthcheckUrl,
        if expected.Some? then Some(IntToString(expected.value)) else None))
  }

  /** What the card's request to the proxy came to: the proxy's reply, or a
      failure of the request itself. */
  datatype ProxyAnswer = Answered(reply: Health.Reply) | RequestFailed

  /** `data.healthy` and `data.status` of the proxy's JSON, as the card
      stores them; a request failure stores unhealthy and no status. A reply
      without those fields (400 or 500) stores neither. */
  function HealthOf(a: ProxyAnswer): (r: (Option<bool>, Option<int>))
    ensures a.RequestFailed? ==> r == (Some(false), None)
    ensures a.Answered? && a.reply.body.Checked? ==> r == (Some(a.reply.body.healthy), Some(a.reply.body.status))
    ensures a.Answered? && a.reply.body.Unreachable? ==> r == (Some(false), None)
    ensures a.Answered? && a.reply.body.ErrorBody? ==> r == (None, None)
  {
    match a
    case RequestFailed => (Some(false), None)
    case Answered(reply) =>
      match reply.body
      case Checked(healthy, status, _, _) => (Some(healthy), Some(status))
      case Unreachable(_, _) => (Some(false), None)
      case ErrorBody(_) => (None, None)
  }

  /** End to end: a card with a health-check URL and expected status `n`
      records healthy exactly when the service answers `n`; without an
      expected status, exactly when it answers 200 to 399. A service that
      cannot be reached is recorded unhealthy. */
  lemma CardHealthVerdict(service: ServiceDefinition, fetch: Health.FetchOutcome)
    requires Truthy(service.healthcheckUrl)
    ensures var h := HealthOf(Answered(Health.HealthCheck(HealthQuery(service).value, fetch)));
      && (fetch.Responded? ==> h.1 == Some(fetch.status))
      && (fetch.Responded? && NonZero(service.healthcheckExpectedStatus).Some? ==>
            (h.0 == Some(true) <==> fetch.status == service.healthcheckExpectedStatus.value))
      && (fetch.Responded? && NonZero(service.healthcheckExpectedStatus).None? ==>
            (h.0 == Some(true) <==> 200 <= fetch.status < 400))
      && (fetch.Threw? ==> h == (Some(false), None))
  {
    var q := HealthQuery(service).value;
    if fetch.Responded? && NonZero(service.healthcheckExpectedStatus).Some? {
      Health.VerdictWithExpected(fetch.status, service.healthcheckExpectedStatus.value);
    }
  }

  /** What the card draws next to the service's name. */
  datatype Indicator = NoIndicator | Checking | Good | Bad

  /** `getHealthIndicator()`: only with checks enabled and a URL set;
      a running check shows over the last result. */
  function HealthIndicator(service: ServiceDefinition, healthy: Option<bool>, checking: bool): (i: Indicator)
    ensures i != NoIndicator ==> service.healthcheckEnabled == Some(true) && Truthy(service.healthcheckUrl)
    ensures service.healthcheckEnabled == Some(true) && Truthy(service.healthcheckUrl) ==>
      (checking ==> i == Checking) && (!checking ==> (i == Good <==> healthy == Some(true)) && (i == Bad <==> healthy == Some(false)))
  {
    if service.healthcheckEnabled != Some(true) || !Truthy(service.healthcheckUrl) then NoIndicator
    else if checking then Checking
    else if healthy == Some(true) then Good
    else if healthy == Some(false) then Bad
    else NoIndicator
  }

  /** `getPublicUrlIndicator()`: only with a public URL set. */
  function PublicUrlIndicator(service: ServiceDefinition, available: Option<bool>, checking: bool): (i: Indicator)
    ensures i != NoIndicator ==> Truthy(service.publicUrl)
    ensures Truthy(service.publicUrl) ==>
      (checking ==> i == Checking) && (!checking ==> (i == Good <==> available == Some(true)) && (i == Bad <==> available == Some(false)))
  {
    if !Truthy(service.publicUrl) then NoIndicator
    else if checking then Checking
    else if available == Some(true) then Good
    else if available == Some(false) then Bad
    else NoIndicator
  }

  /** The state one card keeps: `healthStatus`, `publicUrlStatus` and
      `imageError`. */
  class Card {
    const service: ServiceDefinition
    const host: string
    var healthy: Option<bool>
    var status: Option<int>
    var checking: bool
    var available: Option<bool>
    var checkingPublicUrl: bool
    var imageError: bool

    constructor (service: ServiceDefinition, host: string)
      ensures this.service == service && this.host == host
      ensures healthy.None? && status.None? && !checking
      ensures available.None? && !checkingPublicUrl && !imageError
    {
      this.service := service;
      this.host := host;
      healthy, status, checking := None, None, false;
      available, checkingPublicUrl, imageError := None, false, false;
    }

    function Display(): (c: DisplayContent)
      reads this
      ensures c == GetDisplayContent(service, imageError)
    {
      GetDisplayContent(service, imageError)
    }

    function Indicators(): (r: (Indicator, Indicator))
      reads this
      ensures r == (HealthIndicator(service, healthy, checking), PublicUrlIndicator(service, available, checkingPublicUrl))
    {
      (HealthIndicator(service, healthy, checking), PublicUrlIndicator(service, available, checkingPublicUrl))
    }

    /** The first half of `checkHealth`: nothing without a health-check
      URL; otherwise mark the check running and return the query to send. */
    method BeginHealthCheck() returns (q: Option<Health.Request>)
      modifies this
      ensures q == HealthQuery(service)
      ensures checking == (old(checking) || q.Some?)
      ensures healthy == old(healthy) && status == old(status)
      ensures available == old(available) && checkingPublicUrl == old(checkingPublicUrl) && imageError == old(imageError)
    {
      q := HealthQuery(service);
      if q.Some? {
        checking := true;
      }
    }

    /** The second half of `checkHealth`: store what the proxy said and end
      the check. */
    method EndHealthCheck(a: ProxyAnswer)
      modifies this
      ensures (healthy, status) == HealthOf(a) && !checking
      ensures available == old(available) && checkingPublicUrl == old(checkingPublicUrl) && imageError == old(imageError)
    {
      var (h, s) := HealthOf(a);
      healthy, status, checking := h, s, false;
    }

    /** The first half of `checkPublicUrl`: the public URL is sent with no
      expected status. */
    method BeginPublicUrlCheck() returns (q: Option<Health.Request>)
      modifies this
      ensures q.Some? <==> Truthy(service.publicUrl)
      ensures q.Some? ==> q.value == Health.Query(service.publicUrl, None)
      ensures checkingPublicUrl == (old(checkingPublicUrl) || q.Some?)
      ensures available == old(available)
      ensures healthy == old(healthy) && status == old(status) && checking == old(checking) && imageError == old(imageError)
    {
      if !Truthy(service.publicUrl) {
        return None;
      }
      checkingPublicUrl := true;
      q := Some(Health.Query(service.publicUrl, None));
    }

    /** The second half of `checkPublicUrl`: available is the proxy's
      verdict, false when the request itself failed. */
    method EndPublicUrlCheck(a: ProxyAnswer)
      modifies this
      ensures available == HealthOf(a).0 && !checkingPublicUrl
      ensures healthy == old(healthy) && status == old(status) && checking == old(checking) && imageError == old(imageError)
    {
      available := HealthOf(a).0;
      checkingPublicUrl := false;
    }

    /** The image's `onError` handler. */
    method ImageFailed()
      modifies this
      ensures imageError
      ensures healthy == old(healthy) && status == old(status) && checking == old(checking)
      ensures available == old(available) && checkingPublicUrl == old(checkingPublicUrl)
    {
      imageError := true;
    }
  }

  /** A full health check on a fresh card: the health indicator shows
      "checking" while the request is out, then the proxy's verdict. */
  method HealthCheckRound(service: ServiceDefinition, host: string, a: ProxyAnswer)
    returns (during: Indicator, after: Indicator)
    requires service.healthcheckEnabled == Some(true) && Truthy(service.healthcheckUrl)
    ensures during == Checking
    ensures after == Good <==> HealthOf(a).0 == Some(true)
    ensures after == Bad <==> HealthOf(a).0 == Some(false)
  {
    var card := new Card(service, host);
    var q := card.BeginHealthCheck();
    during := card.Indicators().0;
    card.EndHealthCheck(a);
    after := card.Indicators().0;
  }
}
