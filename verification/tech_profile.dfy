/**
 * `generateTechnicalDetails` of `src/lib/scanner.ts`: a technology list, a
 * mock HTTP header block, a port list and a DNS block, all derived from the
 * seed by modular arithmetic. The two text blocks are kept as the structured
 * facts they render.
 */
module TechProfile {
  import opened Wrappers
  import opened Text

  /** The 28 technology names, in declaration order. */
  const TechPool: seq<string> := [
    "Apache", "Nginx", "IIS", "Node.js", "Express", "React", "Angular",
    "Vue.js", "jQuery", "Bootstrap", "WordPress", "PHP", "MySQL", "PostgreSQL",
    "MongoDB", "Redis", "Cloudflare", "AWS", "Azure", "GCP", "Kubernetes",
    "Docker", "Varnish", "Memcached", "Tomcat", "Java", "Python", "Ruby on Rails"]

  /**
   * The technologies loop: `3 + seed % 5` picks, pick `i` taken at index
   * `(seed * (i + 1)) % 28` (the source's `Math.abs` is the identity on a
   * non-negative seed). Repeated picks are kept.
   */
  function Technologies(seed: nat): (ts: seq<string>)
    ensures |ts| == 3 + seed % 5
    ensures 3 <= |ts| <= 7
    ensures forall i :: 0 <= i < |ts| ==> ts[i] == TechPool[(seed * (i + 1)) % |TechPool|]
  {
    seq(3 + seed % 5, i requires 0 <= i < 3 + seed % 5 => TechPool[(seed * (i + 1)) % |TechPool|])
  }

  /** The server named in the `Server:` header: Nginx if picked, else Apache if picked, else IIS. */
  function ServerType(ts: seq<string>): (s: string)
    ensures s == "Nginx" <==> "Nginx" in ts
    ensures s == "Apache" <==> "Nginx" !in ts && "Apache" in ts
    ensures s == "Microsoft-IIS" <==> "Nginx" !in ts && "Apache" !in ts
  {
    if "Nginx" in ts then "Nginx"
    else if "Apache" in ts then "Apache"
    else "Microsoft-IIS"
  }

  /** `${1 + seed % 10}.${seed % 10}` as its two numbers. */
  datatype Version = Version(major: nat, minor: nat)

  function ServerVersion(seed: nat): (v: Version)
    ensures v.major == v.minor + 1
    ensures 1 <= v.major <= 10
    ensures v.minor == seed % 10
  {
    Version(1 + seed % 10, seed % 10)
  }

  const CspLine: string :=
    "Content-Security-Policy: default-src 'self'; script-src 'self' 'unsafe-inline' https://cdn.example.com;"

  /**
   * The header block: the fixed status, cache and security lines are
   * constant; what varies is the `Date:` text, the server, and whether the
   * Content-Security-Policy line is present.
   */
  datatype Headers = Headers(date: string, server: string, version: Version, csp: Option<string>)

  function MakeHeaders(seed: nat, ts: seq<string>, date: string): (h: Headers)
    ensures h.csp.Some? <==> seed % 5 == 0
    ensures h.csp.Some? ==> h.csp.value == CspLine
    ensures h.date == date
    ensures h.server == ServerType(ts) && h.version == ServerVersion(seed)
  {
    Headers(date, ServerType(ts), ServerVersion(seed), if seed % 5 == 0 then Some(CspLine) else None)
  }

  datatype Port = Port(number: nat, service: string)

  /** The ten common ports; the first two are HTTP and HTTPS. */
  const CommonPorts: seq<Port> := [
    Port(80, "HTTP"), Port(443, "HTTPS"), Port(22, "SSH"), Port(21, "FTP"), Port(25, "SMTP"),
    Port(3306, "MySQL"), Port(5432, "PostgreSQL"), Port(27017, "MongoDB"), Port(6379, "Redis"),
    Port(8080, "HTTP-Alt")]

  /**
   * The ports: HTTP and HTTPS, then for `i` from 2 below `2 + seed % 4` the
   * entry at `2 + (seed * (i + 1)) % 8` (as for the technologies, the
   * source's `Math.abs` is the identity on a non-negative seed).
   */
  function Ports(seed: nat): (ps: seq<Port>)
    ensures |ps| == 2 + seed % 4
    ensures 2 <= |ps| <= 5
    ensures ps[0] == Port(80, "HTTP") && ps[1] == Port(443, "HTTPS")
    ensures forall i :: 2 <= i < |ps| ==> ps[i] == CommonPorts[2 + (seed * (i + 1)) % (|CommonPorts| - 2)]
    ensures forall i :: 2 <= i < |ps| ==> ps[i].number != 80 && ps[i].number != 443
  {
    CommonPorts[..2] +
    seq(seed % 4, k requires 0 <= k < seed % 4 => CommonPorts[2 + (seed * (k + 3)) % (|CommonPorts| - 2)])
  }

  /** The four octets of the fabricated IPv4 address. */
  function IpOctets(seed: nat): (o: seq<nat>)
    ensures |o| == 4
    ensures 192 <= o[0] <= 223 && 168 <= o[1] <= 199 && o[2] <= 255 && 1 <= o[3] <= 254
    ensures o[0] - 192 == o[1] - 168 == seed % 32
    ensures o[2] == seed % 256 && o[3] == 1 + seed % 254
  {
    [192 + seed % 32, 168 + seed % 32, 0 + seed % 256, 1 + seed % 254]
  }

  /**
   * `domain.split(".")[1]`: the second dot-separated label, or `undefined`
   * (here `None`) when the host has no dot.
   */
  function SecondLabel(domain: string): (r: Option<string>)
    ensures r.None? <==> forall k :: 0 <= k < |domain| ==> domain[k] != '.'
    ensures r.Some? ==> forall k :: 0 <= k < |r.value| ==> r.value[k] != '.'
  {
    var parts := Split(domain, '.');
    if |parts| > 1 then Some(parts[1]) else None
  }

  /** A template literal renders `undefined` as the text "undefined". */
  function LabelText(part: Option<string>): (t: string)
    ensures part.Some? ==> t == part.value
    ensures part.None? ==> t == "undefined"
  {
    match part
    case Some(l) => l
    case None => "undefined"
  }

  datatype MxRecord = MxRecord(host: string, priority: nat)

  /** The DNS block's facts: domain, address, mail exchangers, name servers and TTL. */
  datatype Dns = Dns(domain: string, ip: seq<nat>, mx: seq<MxRecord>, ns: seq<string>, ttl: nat)

  function MakeDns(seed: nat, domain: string): (d: Dns)
    ensures d.domain == domain && d.ip == IpOctets(seed)
    ensures |d.mx| == 2 && d.mx[0].priority == 10 && d.mx[1].priority == 20
    ensures d.mx[0].host == "mail." + domain && d.mx[1].host == "mail2." + domain
    ensures |d.ns| == 2 && d.ns[0] == "ns1." + LabelText(SecondLabel(domain)) + ".com"
    ensures d.ns[1] == "ns2." + LabelText(SecondLabel(domain)) + ".com"
    ensures d.ttl == 3600
  {
    var text := LabelText(SecondLabel(domain));
    Dns(
      domain,
      IpOctets(seed),
      [MxRecord("mail." + domain, 10), MxRecord("mail2." + domain, 20)],
      ["ns1." + text + ".com", "ns2." + text + ".com"],
      3600)
  }

  datatype TechnicalDetails = TechnicalDetails(
    headers: Headers,
    technologies: seq<string>,
    ports: seq<Port>,
    dns: Dns)

  /** `generateTechnicalDetails`, with the wall-clock `Date:` text as a parameter. */
  function Synthesize(seed: nat, domain: string, date: string): (t: TechnicalDetails)
    ensures 3 <= |t.technologies| <= 7
    ensures 2 <= |t.ports| <= 5 && t.ports[0].number == 80 && t.ports[1].number == 443
    ensures t.headers.csp.Some? <==> seed % 5 == 0
    ensures t.technologies == Technologies(seed)
    ensures t.headers.server == ServerType(t.technologies)
    ensures t.headers.server == "Nginx" <==> "Nginx" in t.technologies
    ensures t.headers.version == ServerVersion(seed)
    ensures t.headers == MakeHeaders(seed, t.technologies, date)
    ensures t.ports == Ports(seed)
    ensures t.dns == MakeDns(seed, domain)
    ensures t.dns.domain == domain && t.dns.ttl == 3600
  {
    var ts := Technologies(seed);
    TechnicalDetails(MakeHeaders(seed, ts, date), ts, Ports(seed), MakeDns(seed, domain))
  }

  /** The second label of a dotted host is the text between its first and second dots. */
  lemma SecondLabelOfDotted(first: string, second: string, rest: string)
    requires forall k :: 0 <= k < |first| ==> first[k] != '.'
    requires forall k :: 0 <= k < |second| ==> second[k] != '.'
    ensures SecondLabel(first + "." + second + rest) == Some(second) <==> rest == [] || rest[0] == '.'
  {
    var d := first + "." + second + rest;
    var tail := second + rest;
    assert d[|first|] == '.';
    assert forall k :: 0 <= k < |first| ==> d[k] == first[k];
    assert IndexOf(d, '.') == Some(|first|);
    assert d[|first| + 1..] == tail;
    assert d[..|first|] == first;
    assert Split(d, '.') == [first] + Split(tail, '.');
    var head := Split(tail, '.')[0];
    assert SecondLabel(d) == Some(head);
    assert forall k :: 0 <= k < |second| ==> tail[k] == second[k];
    match IndexOf(tail, '.')
    case None =>
      assert head == tail;
      if rest != [] {
        assert tail[|second|] == rest[0] != '.';
        assert |head| > |second|;
      } else {
        assert tail == second;
      }
    case Some(j) =>
      assert head == tail[..j];
      assert j >= |second|;
      if rest != [] && rest[0] == '.' {
        assert tail[|second|] == '.';
        assert j == |second|;
      }
  }

  /** A host without a dot has no second label, so its name servers read "undefined". */
  lemma DotlessHostNameServers(seed: nat, domain: string)
    requires forall k :: 0 <= k < |domain| ==> domain[k] != '.'
    ensures MakeDns(seed, domain).ns == ["ns1.undefined.com", "ns2.undefined.com"]
  {
    assert LabelText(SecondLabel(domain)) == "undefined";
    assert "ns1." + "undefined" + ".com" == "ns1.undefined.com";
    assert "ns2." + "undefined" + ".com" == "ns2.undefined.com";
  }

  /** Seed 0 picks Apache three times, reports an Apache server with a CSP line, two ports and 192.168.0.1. */
  lemma ProfileOfSeedZero(domain: string, date: string)
    ensures Synthesize(0, domain, date).technologies == ["Apache", "Apache", "Apache"]
    ensures Synthesize(0, domain, date).headers.server == "Apache"
    ensures Synthesize(0, domain, date).headers.version == Version(1, 0)
    ensures Synthesize(0, domain, date).headers.csp.Some?
    ensures |Synthesize(0, domain, date).ports| == 2
    ensures Synthesize(0, domain, date).dns.ip == [192, 168, 0, 1]
  {
    var a := TechPool[0];
    assert Technologies(0) == [a, a, a];
    assert ServerType([a, a, a]) == "Apache" by {
      assert "Nginx" != a;
    }
  }
}
