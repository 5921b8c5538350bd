/**
 * The remote SMTP server descriptor of the outbound client (`SMTPClient::Server`)
 * and its resolution into the ordered list of endpoints a delivery will try.
 */
module SmtpClient {
  import opened Wrappers

  /** A literal IP address, as the resolver returns it (IPv6 or IPv4). */
  type IpAddress = string

  /**
   * Transport-security policy of a server (`SSLModes`). `Auto` is the default;
   * any other mode is carried by its name.
   */
  datatype SslMode = Auto | Other(name: string)

  /**
   * The process-wide DNS resolver, reduced to its two forward lookups.
   * Each returns the addresses in the order the DNS answer listed them;
   * a failed lookup is an empty sequence.
   */
  datatype Resolver = Resolver(aaaa: string -> seq<IpAddress>, a: string -> seq<IpAddress>)

  /** An IPv6 literal is the only kind that contains a colon. */
  predicate IsIpv6(ip: IpAddress) {
    ':' in ip
  }

  /** One connection target: the server it belongs to (by reference) and one address. */
  datatype Endpoint = Endpoint(server: Server, address: IpAddress)

  class Server {
    const hostname: string
    const port: int
    var sslMode: SslMode
    var username: Option<string>
    var password: Option<string>

    /** Keyword arguments after the hostname are optional and default as in the source. */
    constructor (hostname: string, nameonly port: int := 25, nameonly sslMode: SslMode := Auto,
                 nameonly username: Option<string> := None, nameonly password: Option<string> := None)
      ensures this.hostname == hostname && this.port == port && this.sslMode == sslMode
      ensures this.username == username && this.password == password
    {
      this.hostname := hostname;
      this.port := port;
      this.sslMode := sslMode;
      this.username := username;
      this.password := password;
    }

    /**
     * All endpoints of this server: one per AAAA answer, then one per A answer,
     * each in resolver order, nothing dropped, sorted or merged.
     */
    method Endpoints(resolver: Resolver) returns (ips: seq<Endpoint>)
      ensures ips == ExpectedEndpoints(this, resolver)
      ensures Addresses(ips) == resolver.aaaa(hostname) + resolver.a(hostname)
      ensures forall i :: 0 <= i < |ips| ==> ips[i].server == this
    {
      ips := [];
      var v6 := resolver.aaaa(hostname);
      for i := 0 to |v6|
        invariant |ips| == i
        invariant forall k :: 0 <= k < i ==> ips[k] == Endpoint(this, v6[k])
      {
        ips := ips + [Endpoint(this, v6[i])];
      }
      var v4 := resolver.a(hostname);
      for j := 0 to |v4|
        invariant |ips| == |v6| + j
        invariant forall k :: 0 <= k < |v6| ==> ips[k] == Endpoint(this, v6[k])
        invariant forall k :: 0 <= k < j ==> ips[|v6| + k] == Endpoint(this, v4[k])
      {
        ips := ips + [Endpoint(this, v4[j])];
      }
    }
  }

  /** Wraps every address, in order, as an endpoint of `server`. */
  function EndpointsFor(server: Server, addrs: seq<IpAddress>): (r: seq<Endpoint>)
    ensures |r| == |addrs|
    ensures forall i :: 0 <= i < |r| ==> r[i] == Endpoint(server, addrs[i])
  {
    if addrs == [] then [] else [Endpoint(server, addrs[0])] + EndpointsFor(server, addrs[1..])
  }

  /** What `Server#endpoints` returns: the AAAA endpoints followed by the A endpoints. */
  function ExpectedEndpoints(server: Server, resolver: Resolver): seq<Endpoint> {
    EndpointsFor(server, resolver.aaaa(server.hostname)) + EndpointsFor(server, resolver.a(server.hostname))
  }

  /** The address of each endpoint, in order. */
  function Addresses(eps: seq<Endpoint>): (r: seq<IpAddress>)
    ensures |r| == |eps|
    ensures forall i :: 0 <= i < |r| ==> r[i] == eps[i].address
  {
    if eps == [] then [] else [eps[0].address] + Addresses(eps[1..])
  }

  /** Resolver order is kept within each family, AAAA answers first: no sort, no de-duplication. */
  lemma AddressesOfExpected(server: Server, resolver: Resolver)
    ensures Addresses(ExpectedEndpoints(server, resolver))
         == resolver.aaaa(server.hostname) + resolver.a(server.hostname)
  {
  }

  /** Nothing is dropped or de-duplicated: one endpoint per resolver answer. */
  lemma ExpectedEndpointsLength(server: Server, resolver: Resolver)
    ensures |ExpectedEndpoints(server, resolver)|
         == |resolver.aaaa(server.hostname)| + |resolver.a(server.hostname)|
  {
  }

  /**
   * Every endpoint built from an AAAA answer comes before every endpoint built from
   * an A answer; position i < |aaaa| holds the i-th AAAA answer, the rest the A answers.
   */
  lemma AaaaEndpointsFirst(server: Server, resolver: Resolver)
    ensures var eps, v6, v4 := ExpectedEndpoints(server, resolver), resolver.aaaa(server.hostname), resolver.a(server.hostname);
      && (forall i :: 0 <= i < |v6| ==> eps[i] == Endpoint(server, v6[i]))
      && (forall j :: 0 <= j < |v4| ==> eps[|v6| + j] == Endpoint(server, v4[j]))
  {
  }

  /**
   * When AAAA answers are IPv6 literals and A answers are not, every IPv6 endpoint
   * precedes every IPv4 endpoint.
   */
  lemma Ipv6BeforeIpv4(server: Server, resolver: Resolver)
    requires forall x :: x in resolver.aaaa(server.hostname) ==> IsIpv6(x)
    requires forall x :: x in resolver.a(server.hostname) ==> !IsIpv6(x)
    ensures var eps := ExpectedEndpoints(server, resolver);
      forall i, j :: 0 <= i < j < |eps| && IsIpv6(eps[j].address) ==> IsIpv6(eps[i].address)
  {
  }

  /** Every endpoint refers to this very server, so port, TLS mode and credentials carry through. */
  lemma EndpointsShareServer(server: Server, resolver: Resolver)
    ensures forall e :: e in ExpectedEndpoints(server, resolver) ==> e.server == server
  {
  }

  /** An unresolvable host yields no endpoints, which is not an error. */
  lemma NoAnswersNoEndpoints(server: Server, resolver: Resolver)
    ensures ExpectedEndpoints(server, resolver) == []
        <==> resolver.aaaa(server.hostname) == [] && resolver.a(server.hostname) == []
  {
  }

  /** A server built from a hostname alone: port 25, AUTO TLS, no credentials. */
  method NewFromHostname(hostname: string) returns (server: Server)
    ensures fresh(server)
    ensures server.hostname == hostname && server.port == 25 && server.sslMode == Auto
    ensures server.username == None && server.password == None
  {
    server := new Server(hostname);
  }
}
