/** src/config/mcp_config.py: the client configuration of the two booking servers,
    built from the configured URLs. The settings are parameters. */
module McpConfig {
  import opened Wrappers
  import opened Text

  /** A server entry: its transport and URL. */
  datatype ServerEntry = ServerEntry(transport: string, url: string)

  const StreamableHttp: string := "streamable_http"
  const AirlineKey: string := "airline-booking"
  const HotelKey: string := "hotel-booking"

  /** `_http_entry`: nothing for a missing or empty URL; otherwise the streamable-HTTP entry
      with every trailing "/" dropped from the URL. */
  function HttpEntry(url: Option<string>): (e: Option<ServerEntry>)
    ensures e.None? <==> url.None? || url.value == ""
    ensures e.Some? ==> e.value.transport == StreamableHttp
    ensures e.Some? ==> (|e.value.url| <= |url.value| && e.value.url == url.value[..|e.value.url|]
                         && (e.value.url == [] || e.value.url[|e.value.url| - 1] != '/')
                         && forall i :: |e.value.url| <= i < |url.value| ==> url.value[i] == '/')
  {
    if url.None? || url.value == "" then None
    else Some(ServerEntry(StreamableHttp, RStripChar(url.value, '/')))
  }

  /** An entry's own URL gives back the same entry, unless nothing but slashes was configured. */
  lemma HttpEntryStable(url: Option<string>)
    requires HttpEntry(url).Some? && HttpEntry(url).value.url != ""
    ensures HttpEntry(Some(HttpEntry(url).value.url)) == HttpEntry(url)
  {
    var u := HttpEntry(url).value.url;
    assert RStripChar(u, '/') == u;
  }

  /** A URL of slashes only is still configured: the entry is kept, with an empty URL. */
  lemma SlashesOnlyKeepEntry()
    ensures HttpEntry(Some("///")) == Some(ServerEntry(StreamableHttp, ""))
  {
    assert RStripChar("///", '/') == RStripChar("//", '/');
    assert RStripChar("//", '/') == RStripChar("/", '/');
    assert RStripChar("/", '/') == RStripChar("", '/');
  }

  /** `get_mcp_servers`: an entry for each configured URL under its fixed key. An entry is
      a non-empty dict, so `if entry` holds whenever `_http_entry` gave one. */
  function GetMcpServers(airlineUrl: Option<string>, hotelUrl: Option<string>): (servers: map<string, ServerEntry>)
    ensures AirlineKey in servers <==> airlineUrl.Some? && airlineUrl.value != ""
    ensures HotelKey in servers <==> hotelUrl.Some? && hotelUrl.value != ""
    ensures forall k :: k in servers ==> k == AirlineKey || k == HotelKey
    ensures AirlineKey in servers ==> Some(servers[AirlineKey]) == HttpEntry(airlineUrl)
    ensures HotelKey in servers ==> Some(servers[HotelKey]) == HttpEntry(hotelUrl)
  {
    var airline := HttpEntry(airlineUrl);
    var hotel := HttpEntry(hotelUrl);
    var withAirline := if airline.Some? then map[AirlineKey := airline.value] else map[];
    if hotel.Some? then withAirline[HotelKey := hotel.value] else withAirline
  }

  /** `load_mcp_servers_config` is `get_mcp_servers` under another name. */
  function LoadMcpServersConfig(airlineUrl: Option<string>, hotelUrl: Option<string>): (servers: map<string, ServerEntry>)
    ensures servers == GetMcpServers(airlineUrl, hotelUrl)
  {
    GetMcpServers(airlineUrl, hotelUrl)
  }

  /** Every configured server is reached over streamable HTTP. */
  lemma AllServersStreamable(airlineUrl: Option<string>, hotelUrl: Option<string>)
    ensures forall k :: k in GetMcpServers(airlineUrl, hotelUrl) ==>
      GetMcpServers(airlineUrl, hotelUrl)[k].transport == StreamableHttp
  {
  }
}
