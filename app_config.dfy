/** The server's configuration (`src/config.rs`): the built-in defaults, the
    choice between the file's configuration and those defaults, and the
    service cards built from the configured services. Reading and parsing
    the file, and the HTTP probe of each service, arrive as parameters. */
module AppConfig {
  import opened Base
  import opened Text
  import opened Models

  /** `Config`: where the server listens and which services it shows. */
  datatype Config = Config(server: ServerConfig, services: ServicesConfig)

  /** The address of a service: "{protocol}://{ip}:{port}". */
  function ServiceUrl(protocol: string, ip: string, port: nat): (url: string)
    ensures |url| == |protocol| + 3 + |ip| + 1 + |NatToString(port)|
    ensures url[..|protocol|] == protocol && url[|protocol|..|protocol| + 3] == "://"
    ensures url[|protocol| + 3..|protocol| + 3 + |ip|] == ip
    ensures url[|protocol| + 3 + |ip|] == ':' && url[|protocol| + 4 + |ip|..] == NatToString(port)
  {
    protocol + "://" + ip + ":" + NatToString(port)
  }

  /** The address probed for a service's health: its address followed by the
      health-check path when one is configured. */
  function HealthCheckUrl(url: string, path: Option<string>): (h: string)
    ensures url <= h
    ensures path.None? ==> h == url
    ensures path.Some? ==> h[|url|..] == path.value
  {
    if path.Some? then url + path.value else url
  }

  /** The card shown for one configured service; `health` is the probe's verdict on an address. */
  function Card(item: ServiceCardConfig, ip: string, health: string -> ServiceStatus): (card: ServiceCard)
    ensures card.name == item.name && card.icon == item.icon && card.description == item.description
    ensures card.url == ServiceUrl(item.protocol, ip, item.port)
    ensures card.status == health(HealthCheckUrl(card.url, item.healthCheckPath))
  {
    var url := ServiceUrl(item.protocol, ip, item.port);
    ServiceCard(item.name, url, item.icon, item.description, health(HealthCheckUrl(url, item.healthCheckPath)))
  }

  /** `get_services`: one card per configured service, in the configured order. */
  method GetServices(config: Config, health: string -> ServiceStatus) returns (cards: seq<ServiceCard>)
    ensures |cards| == |config.services.items|
    ensures forall i :: 0 <= i < |cards| ==> cards[i] == Card(config.services.items[i], config.services.ip, health)
  {
    cards := [];
    var ip := config.services.ip;
    for i := 0 to |config.services.items|
      invariant |cards| == i
      invariant forall j :: 0 <= j < i ==> cards[j] == Card(config.services.items[j], ip, health)
    {
      var item := config.services.items[i];
      var url := ServiceUrl(item.protocol, ip, item.port);
      var healthUrl := HealthCheckUrl(url, item.healthCheckPath);
      var status := health(healthUrl);
      cards := cards + [ServiceCard(item.name, url, item.icon, item.description, status)];
    }
  }

  /** The port can be read back from a service's address: it is the text after
      the last ':' (an IPv6 address's own colons come before it), and the
      protocol and address are the text before it. */
  lemma ServiceUrlRoundTrip(protocol: string, ip: string, port: nat)
    requires port < 0x1_0000
    ensures var url := ServiceUrl(protocol, ip, port);
      RFindChar(url, ':') == Some(|protocol| + 3 + |ip|)
      && ParseU16(url[|protocol| + 4 + |ip|..]) == Some(port)
      && url[..|protocol| + 3 + |ip|] == protocol + "://" + ip
  {
    var url := ServiceUrl(protocol, ip, port);
    var k := |protocol| + 3 + |ip|;
    var digits := NatToString(port);
    assert url == protocol + "://" + ip + ":" + digits;
    forall j | k < j < |url| ensures url[j] != ':' {
      assert url[j] == digits[j - k - 1];
      assert IsDigit(digits[j - k - 1]);
    }
    RFindCharAt(url, ':', k);
    ParseU16OfDecimal(port);
  }

  /** The last occurrence of a character is where it occurs with none after it. */
  lemma {:induction false} RFindCharAt(s: string, c: char, k: nat)
    requires k < |s| && s[k] == c
    requires forall j :: k < j < |s| ==> s[j] != c
    ensures RFindChar(s, c) == Some(k)
    decreases |s|
  {
    if k < |s| - 1 {
      RFindCharAt(s[..|s| - 1], c, k);
    }
  }

  /** Among protocols of one length and addresses of one length, services
      that differ in protocol, address or port get different addresses. */
  lemma ServiceUrlInjective(protocol: string, ip: string, port: nat, protocol': string, ip': string, port': nat)
    requires port < 0x1_0000 && port' < 0x1_0000
    requires |protocol| == |protocol'| && |ip| == |ip'|
    requires ServiceUrl(protocol, ip, port) == ServiceUrl(protocol', ip', port')
    ensures protocol == protocol' && ip == ip' && port == port'
  {
    ServiceUrlRoundTrip(protocol, ip, port);
    ServiceUrlRoundTrip(protocol', ip', port');
  }

  /** `get_default_services_config`. */
  function DefaultServices(): (s: ServicesConfig)
    ensures s.ip == "localhost" && |s.items| == 4
    ensures forall i :: 0 <= i < |s.items| ==> s.items[i].protocol == DefaultProtocol && s.items[i].healthCheckPath.None?
    ensures s.items[0].port == 3000 && s.items[1].port == 8080 && s.items[2].port == 8096 && s.items[3].port == 8123
  {
    ServicesConfig("localhost", [
      ServiceCardConfig("Gitea", 3000, "fab fa-git-alt", "Git仓库管理", "http", None),
      ServiceCardConfig("Nextcloud", 8080, "fas fa-cloud", "私有云存储", "http", None),
      ServiceCardConfig("Jellyfin", 8096, "fas fa-play-circle", "媒体服务器", "http", None),
      ServiceCardConfig("Home Assistant", 8123, "fas fa-home", "智能家居", "http", None)])
  }

  /** The configuration used when the file is missing or unreadable. */
  function DefaultConfig(): (c: Config)
    ensures c.server == ServerConfig("0.0.0.0", 9876) && c.services == DefaultServices()
  {
    Config(ServerConfig("0.0.0.0", 9876), DefaultServices())
  }

  /** `load_config`: `parsed` is the configuration read from the file, or none
      when the file is missing, cannot be read or does not parse. */
  function LoadConfig(parsed: Option<Config>): (c: Config)
    ensures parsed.Some? ==> c == parsed.value
    ensures parsed.None? ==> c == DefaultConfig()
  {
    if parsed.Some? then parsed.value else DefaultConfig()
  }

  /** Without a configuration file the four default services are probed at
      their own addresses on localhost, none with a health path. */
  lemma DefaultCardsProbe(health: string -> ServiceStatus, i: nat)
    requires i < 4
    ensures var item := LoadConfig(None).services.items[i];
      var card := Card(item, "localhost", health);
      card.url == "http://localhost:" + NatToString(item.port)
      && card.status == health(card.url)
  {
    var item := LoadConfig(None).services.items[i];
    assert item.protocol == "http" && item.healthCheckPath.None?;
    assert "http" + "://" + "localhost" + ":" == "http://localhost:";
  }
}
