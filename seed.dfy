// The built-in sample data of lib/data/servers.ts: three servers with their
// services, and the two lookups over them.
module Seed {
  import opened Js
  import opened Models

  // The icon strings as the file holds them: each emoji's UTF-8 bytes were
  // decoded once more as Windows-1252, so the characters below are what the
  // program actually carries (bytes with no Windows-1252 meaning are gone).
  const PlexIcon: string := "\U{00F0}\U{0178}\U{017D}\U{00AC}"
  const ApacheIcon: string := "\U{00F0}\U{0178}\U{0152}"
  const PortainerIcon: string := "\U{00F0}\U{0178}\U{201C}\U{00A6}"
  const JenkinsIcon: string := "\U{00F0}\U{0178}\U{201D}\U{00A7}"
  const GrafanaIcon: string := "\U{00F0}\U{0178}\U{201C}\U{0160}"
  const NextcloudIcon: string := "\U{00E2}\U{02DC}\U{00EF}\U{00B8}"

  function SeedService(name: string, description: string, ports: seq<nat>, icon: string,
                       color: string, protocol: Protocol, tags: seq<string>): ServiceDefinition
  {
    ServiceDefinition(name, Some(description), ports, None, Some(icon), Some(color), Some(tags),
      Some(protocol), None, None, None, None)
  }

  /** `serversData`. */
  const ServersData: seq<ServerDefinition> := [
    ServerDefinition("server-1", "Media Server", "192.168.1.100",
      Some("Main media and entertainment server"), [
        SeedService("Plex Media Server", "Stream your media collection", [32400],
          PlexIcon, "#E5A00D", Http, ["media", "streaming"]),
        SeedService("Apache Web Server", "Hosting multiple sites", [80, 443],
          ApacheIcon, "#D22128", Https, ["web", "hosting"])
      ]),
    ServerDefinition("server-2", "Development Server", "192.168.1.101",
      Some("Development and CI/CD services"), [
        SeedService("Portainer", "Docker container management", [9000],
          PortainerIcon, "#13BEF9", Http, ["docker", "management"]),
        SeedService("Jenkins", "CI/CD automation", [8080],
          JenkinsIcon, "#D24939", Http, ["ci/cd", "automation"]),
        SeedService("Grafana", "Monitoring and dashboards", [3000],
          GrafanaIcon, "#F46800", Http, ["monitoring", "dashboards"])
      ]),
    ServerDefinition("server-3", "Storage Server", "192.168.1.102",
      Some("File storage and backup"), [
        SeedService("Nextcloud", "Self-hosted cloud storage", [80, 443],
          NextcloudIcon, "#0082C9", Https, ["storage", "cloud"])
      ])
  ]

  /** No two seed servers share an id. */
  lemma SeedIdsDistinct()
    ensures forall i, j :: 0 <= i < j < |ServersData| ==> ServersData[i].id != ServersData[j].id
  {
    assert ServersData[0].id[7] == '1' && ServersData[1].id[7] == '2' && ServersData[2].id[7] == '3';
  }

  /** Every seed service has a port, so its card has a primary port. */
  lemma SeedServicesHavePorts()
    ensures forall i, j :: 0 <= i < |ServersData| && 0 <= j < |ServersData[i].services| ==>
      |ServersData[i].services[j].ports| >= 1
  {
  }

  /** `getServers()`: one constructed Server per seed entry, in seed order. */
  function GetServers(): (r: seq<Server>)
    ensures |r| == |ServersData|
    ensures forall i :: 0 <= i < |r| ==> r[i] == NewServer(ServersData[i])
  {
    seq(|ServersData|, i requires 0 <= i < |ServersData| => NewServer(ServersData[i]))
  }

  /** `Array.prototype.find` by id: the first entry with that id. */
  function FindById(list: seq<ServerDefinition>, id: string): (r: Option<ServerDefinition>)
    ensures r.None? <==> forall i :: 0 <= i < |list| ==> list[i].id != id
    ensures r.Some? ==> (exists k :: 0 <= k < |list| && list[k] == r.value && r.value.id == id
                                    && forall i :: 0 <= i < k ==> list[i].id != id)
  {
    if list == [] then None
    else if list[0].id == id then Some(list[0])
    else
      var r := FindById(list[1..], id);
      assert forall i :: 1 <= i < |list| ==> list[i] == list[1..][i - 1];
      assert r.Some? ==> (exists k :: 0 <= k < |list| && list[k] == r.value && r.value.id == id
                                    && forall i :: 0 <= i < k ==> list[i].id != id) by {
        if r.Some? {
          var k :| 0 <= k < |list[1..]| && list[1..][k] == r.value && r.value.id == id
            && forall i :: 0 <= i < k ==> list[1..][i].id != id;
          assert list[k + 1] == r.value;
        }
      }
      r
  }

  /** `getServerById(id)`: the seed server with that id, or undefined. */
  function GetServerById(id: string): (r: Option<Server>)
    ensures r.None? <==> forall i :: 0 <= i < |ServersData| ==> ServersData[i].id != id
    ensures r.Some? ==> r.value.id == id
    ensures r.Some? ==> exists i :: 0 <= i < |ServersData| && r.value == NewServer(ServersData[i])
  {
    var d := FindById(ServersData, id);
    if d.Some? then Some(NewServer(d.value)) else None
  }

  /** Because seed ids are distinct, the lookup agrees with `getServers()`. */
  lemma GetServerByIdAgrees(i: nat)
    requires i < |ServersData|
    ensures GetServerById(ServersData[i].id) == Some(GetServers()[i])
  {
    SeedIdsDistinct();
  }
}
