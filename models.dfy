// The domain records of lib/models: a service definition (a port or URL
// running on a host) and a server (a host machine with its services).
module Models {
  import opened Js

  datatype Protocol = Http | Https

  function ProtocolName(p: Protocol): (s: string)
    ensures s == "http" || s == "https"
  {
    match p
    case Http => "http"
    case Https => "https"
  }

  /** The plain record `ServiceDefinition`; every optional field is an Option. */
  datatype ServiceDefinition = ServiceDefinition(
    name: string,
    description: Option<string>,
    ports: seq<nat>,
    image: Option<string>,
    icon: Option<string>,
    color: Option<string>,
    tags: Option<seq<string>>,
    protocol: Option<Protocol>,
    healthcheckEnabled: Option<bool>,
    healthcheckUrl: Option<string>,
    healthcheckExpectedStatus: Option<int>,
    publicUrl: Option<string>)

  /** An instance of class `Service`: a definition whose protocol the
      constructor has filled in. */
  type Service = s: ServiceDefinition | s.protocol.Some?
    witness ServiceDefinition("", None, [], None, None, None, None, Some(Http), None, None, None, None)

  /** `new Service(def)`: copies every field, defaulting the protocol to http. */
  function NewService(d: ServiceDefinition): (s: Service)
    ensures s.protocol == Some(d.protocol.GetOr(Http))
    ensures d.protocol.Some? ==> s == d
    ensures s.(protocol := d.protocol) == d
  {
    d.(protocol := Some(d.protocol.GetOr(Http)))
  }

  /** `service.getUrl(host, port)`: `${protocol}://${host}:${port}`. */
  function GetUrl(s: Service, host: string, port: nat): (url: string)
    ensures ProtocolName(s.protocol.value) + "://" + host + ":" <= url
    ensures |url| > |NatToString(port)| && url[|url| - |NatToString(port)|..] == NatToString(port)
  {
    ProtocolName(s.protocol.value) + "://" + host + ":" + NatToString(port)
  }

  /** A constructed service's URL always names one of the two schemes, and
      ends with the decimal port, which `parseInt` reads back. */
  lemma GetUrlShape(d: ServiceDefinition, host: string, port: nat)
    ensures var url := GetUrl(NewService(d), host, port);
      ("http://" <= url || "https://" <= url)
      && (d.protocol != Some(Https) <==> "http://" <= url)
      && ParseInt(url[|url| - |NatToString(port)|..]) == Some(port)
  {
    var s := NewService(d);
    SchemeOf(s.protocol.value, host, NatToString(port));
    ParseIntOfIntToString(port);
  }

  /** The scheme a URL built by `getUrl` starts with. */
  lemma SchemeOf(protocol: Protocol, host: string, tail: string)
    ensures var url := ProtocolName(protocol) + "://" + host + ":" + tail;
      && (protocol == Http ==> "http://" <= url)
      && (protocol == Https ==> "https://" <= url && !("http://" <= url))
  {
    var url := ProtocolName(protocol) + "://" + host + ":" + tail;
    if protocol == Https {
      assert url[..8] == "https://";
      assert url[4] == 's';
    } else {
      assert url[..7] == "http://";
    }
  }

  /** The plain record `ServerDefinition`. */
  datatype ServerDefinition = ServerDefinition(
    id: string,
    name: string,
    host: string,
    description: Option<string>,
    services: seq<ServiceDefinition>)

  /** An instance of class `Server`. */
  datatype Server = Server(
    id: string,
    name: string,
    host: string,
    description: Option<string>,
    services: seq<Service>)

  /** `new Server(def)`: copies the scalar fields and wraps every service
      definition, in order, with `new Service`. */
  function NewServer(d: ServerDefinition): (s: Server)
    ensures s.id == d.id && s.name == d.name && s.host == d.host && s.description == d.description
    ensures |s.services| == |d.services|
    ensures forall i :: 0 <= i < |s.services| ==> s.services[i] == NewService(d.services[i])
  {
    Server(d.id, d.name, d.host, d.description,
      seq(|d.services|, i requires 0 <= i < |d.services| => NewService(d.services[i])))
  }

  /** Every service of a constructed server has a defined protocol and
      otherwise equals the definition it came from. */
  lemma NewServerServices(d: ServerDefinition, i: nat)
    requires i < |d.services|
    ensures NewServer(d).services[i].protocol.Some?
    ensures NewServer(d).services[i].(protocol := d.services[i].protocol) == d.services[i]
  {
  }

  /** `server.getServiceUrl(service, port)`: `${host}:${port}`; the service
      argument is not used. */
  function GetServiceUrl(server: Server, service: Service, port: nat): (url: string)
    ensures server.host + ":" <= url
    ensures url[|server.host| + 1..] == NatToString(port)
  {
    server.host + ":" + NatToString(port)
  }

  lemma GetServiceUrlIgnoresService(server: Server, a: Service, b: Service, port: nat)
    ensures GetServiceUrl(server, a, port) == GetServiceUrl(server, b, port)
  {
  }
}
