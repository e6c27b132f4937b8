/** The `LoadBalancer` custom resource: specification, status and the defaulting getters. */
module Api {
  datatype Option<+T> = None | Some(value: T)
  datatype NamespacedName = NamespacedName(namespace: string, name: string)

  datatype VirtualIP = VirtualIP(subnetID: string, address: string)

  /** A label selector requirement, as `metav1.LabelSelectorRequirement` spells it. */
  datatype Requirement = Requirement(key: string, operator: string, values: seq<string>)
  datatype LabelSelector = LabelSelector(matchLabels: map<string, string>, matchExpressions: seq<Requirement>)

  datatype HttpCheck = HttpCheck(httpMethod: string, path: string, host: string, version: string,
                                 statusCodes: seq<string>)

  /** Durations are nanoseconds, as in `time.Duration`. */
  datatype HealthCheck = HealthCheck(
    port: int, kind: string, delay: int, timeout: int, successThreshold: int, failureThreshold: int, http: HttpCheck)

  datatype Frontend = Frontend(protocol: string, port: int, allowedCIDRs: seq<string>, dataTimeout: int)

  datatype Backend = Backend(
    port: int, protocol: string, health: HealthCheck, nodeSelector: LabelSelector,
    dataTimeout: int, connectTimeout: int, allowedSubnets: seq<string>)

  datatype Pool = Pool(name: string, algorithm: string, frontend: Frontend, backend: Backend)

  datatype Spec = Spec(
    uuid: string, zone: string, virtualIPs: seq<VirtualIP>, floatingIPs: seq<string>, pools: seq<Pool>)

  datatype StatusBackend = StatusBackend(nodeName: string, serverName: string, address: string, status: string)
  datatype StatusPool = StatusPool(name: string, backends: seq<StatusBackend>)
  datatype Status = Status(
    cloudscaleStatus: string, virtualIPs: seq<string>, floatingIPs: seq<string>, pools: seq<StatusPool>)

  datatype LoadBalancer = LoadBalancer(
    key: NamespacedName, uid: string, finalizer: bool, deleting: bool, spec: Spec, status: Status)

  const NANOS_PER_MILLI := 1_000_000
  const NANOS_PER_SECOND := 1_000_000_000

  /** Go's integer division: it truncates toward zero. */
  function Quotient(a: int, b: int): (q: int)
    requires b > 0
    ensures a >= 0 ==> q * b <= a < (q + 1) * b
    ensures a <= 0 ==> (q - 1) * b < a <= q * b
  {
    if a >= 0 then a / b else -((-a) / b)
  }

  function OrDefault(value: int, default: int): int {
    if value == 0 then default else value
  }

  function OrDefaultText(value: string, default: string): string {
    if value == "" then default else value
  }

  function FrontendTimeout(f: Frontend): int { OrDefault(f.dataTimeout, 50 * NANOS_PER_SECOND) }
  function BackendTimeout(b: Backend): int { OrDefault(b.dataTimeout, 50 * NANOS_PER_SECOND) }
  function ConnectTimeout(b: Backend): int { OrDefault(b.connectTimeout, 5 * NANOS_PER_SECOND) }
  function Delay(h: HealthCheck): int { OrDefault(h.delay, 2 * NANOS_PER_SECOND) }
  function Timeout(h: HealthCheck): int { OrDefault(h.timeout, NANOS_PER_SECOND) }
  function UpThreshold(h: HealthCheck): int { OrDefault(h.successThreshold, 2) }
  function DownThreshold(h: HealthCheck): int { OrDefault(h.failureThreshold, 3) }

  /** A duration reaches the wire as zero seconds exactly when it is shorter than a second either way. */
  lemma SubSecondIsZero(d: int)
    ensures Quotient(d, NANOS_PER_SECOND) == 0 <==> -NANOS_PER_SECOND < d < NANOS_PER_SECOND
  {
  }

  /** `poolAlgorithmToCloudscalePoolAlgorithm` and its siblings. */
  function WireAlgorithm(s: string): string {
    match s
    case "RoundRobin" => "round_robin"
    case "LeastConnections" => "least_connections"
    case "SourceIP" => "source_ip"
    case _ => s
  }

  function WireListenerProtocol(s: string): string {
    if s == "TCP" then "tcp" else s
  }

  function WirePoolProtocol(s: string): string {
    match s
    case "TCP" => "tcp"
    case "Proxy" => "proxy"
    case "ProxyV2" => "proxyv2"
    case _ => s
  }

  function WireMonitorType(s: string): string {
    match s
    case "Ping" => "ping"
    case "HTTP" => "http"
    case "HTTPS" => "https"
    case "TCP" => "tcp"
    case "TLSHello" => "tls-hello"
    case _ => s
  }

  function DigitOf(n: int): (c: char)
    requires 0 <= n <= 9
    ensures c as int - '0' as int == n && c != '-'
  {
    '0' + n as char
  }

  /** `%d`. */
  function Decimal(n: int): string
    decreases if n < 0 then 1 - n else n
  {
    if n < 0 then "-" + Decimal(-n)
    else if n < 10 then [DigitOf(n)]
    else Decimal(n / 10) + [DigitOf(n % 10)]
  }

  /** The number a decimal notation stands for. */
  function Number(s: string): int {
    if s == "" then 0
    else if s[0] == '-' then -Number(s[1..])
    else 10 * Number(s[..|s| - 1]) + (s[|s| - 1] as int - '0' as int)
  }

  /** Decimal notation names the number, so derived names tell ports apart. */
  lemma {:induction false} DecimalNumber(n: int)
    ensures Decimal(n) != "" && (n >= 0 ==> '-' !in Decimal(n)) && Number(Decimal(n)) == n
    decreases if n < 0 then 1 - n else n
  {
    hide DigitOf;
    var s := Decimal(n);
    if n < 0 {
      DecimalNumber(-n);
      assert s[1..] == Decimal(-n);
    } else if n >= 10 {
      var t := Decimal(n / 10);
      DecimalNumber(n / 10);
      assert s == t + [DigitOf(n % 10)];
      NumberMore(t, DigitOf(n % 10));
    } else {
      assert s[..0] == "" && Number("") == 0;
    }
  }

  lemma NumberMore(s: string, c: char)
    requires s != "" && s[0] != '-'
    ensures Number(s + [c]) == 10 * Number(s) + (c as int - '0' as int)
  {
    assert (s + [c])[..|s|] == s;
  }

  /** `cloudscaleLoadbalancerName`. */
  function CloudName(key: NamespacedName): string {
    "appuio_io_loadbalancer_controller-" + key.namespace + "-" + key.name
  }
}
