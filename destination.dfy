/** Splitting the destination address into host and port. */
module Destination {
  import opened SnmpTypes
  import opened Text

  /** The SNMP trap port used when the destination names none. */
  const DefaultPort: string := "162"

  /** The UDP transport target: the host as typed (it is resolved separately,
      only to check it) and the port, as text and as int(port). */
  datatype Endpoint = Endpoint(host: string, port: string, portNumber: nat)

  /** `host, port = destination.split(':')` when the destination holds a
      colon, then the port must be all digits; without a colon the whole text
      is the host and the port is 162. More than one colon makes the
      two-name unpacking raise, reported here as DestinationMalformed. */
  function ParseDestination(d: string): (r: Result<Endpoint>)
    ensures ':' !in d ==> r == Ok(Endpoint(d, DefaultPort, 162))
    ensures r == Err(DestinationMalformed) <==> Count(':', d) > 1
    ensures r.Ok? ==>
      && IsDigits(r.value.port) && r.value.portNumber == DigitsValue(r.value.port)
      && ':' !in r.value.host && ':' !in r.value.port
      && d == (if ':' in d then r.value.host + ":" + r.value.port else r.value.host)
    ensures r.Err? ==> r.failure == DestinationMalformed || r.failure == PortInvalid
  {
    if ':' !in d then
      assert DefaultPort[..2] == "16" && "16"[..1] == "1" && "1"[..0] == "";
      Ok(Endpoint(d, DefaultPort, 162))
    else if Count(':', d) != 1 then Err(DestinationMalformed)
    else
      var k := IndexOf(':', d);
      var host, port := d[..k], d[k + 1..];
      assert d == host + [':'] + port;
      CountConcat(':', host + [':'], port);
      CountConcat(':', host, [':']);
      if !IsDigits(port) then Err(PortInvalid)
      else Ok(Endpoint(host, port, DigitsValue(port)))
  }

  /** Parsing inverts "host:port" formatting for any colon-free host and any
      digit port, and a colon-free address reads as itself on port 162. */
  lemma {:induction false} ParseFormatRoundTrip(host: string, port: string)
    requires ':' !in host && ':' !in port && IsDigits(port)
    ensures ParseDestination(host + ":" + port) == Ok(Endpoint(host, port, DigitsValue(port)))
  {
    var d := host + ":" + port;
    CountConcat(':', host + ":", port);
    CountConcat(':', host, ":");
    assert Count(':', ":") == 1;
    assert d[|host|] == ':';
    var r := ParseDestination(d);
    assert r.Ok?;
    var k := IndexOf(':', d);
    assert k == |host| by {
      assert k <= |host| by {
        assert d[..k + 1][|host|] == ':' ==> ':' in d[..k + 1];
      }
    }
    assert r.value.host == d[..|host|] == host;
    assert r.value.port == d[|host| + 1..] == port;
  }

  /** A port that is not all digits is refused, whatever the host. */
  lemma {:induction false} NonNumericPortRejected(host: string, port: string)
    requires ':' !in host && ':' !in port && !IsDigits(port)
    ensures ParseDestination(host + ":" + port) == Err(PortInvalid)
  {
    var d := host + ":" + port;
    CountConcat(':', host + ":", port);
    CountConcat(':', host, ":");
    assert Count(':', ":") == 1;
    assert d[|host|] == ':';
    var k := IndexOf(':', d);
    assert k == |host|;
    assert d[k + 1..] == port;
  }
}
