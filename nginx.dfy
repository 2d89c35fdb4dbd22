/**
 * The nginx settings script: the TLS, IPv6 and listen sections of the
 * configuration with their defaults, the listen addresses reduced to port
 * numbers, and the base path, collected into the settings object the
 * container's nginx templates read.
 */
module NginxSettings {
  import opened Wrappers
  import opened Json
  import Text

  /** The exception `int()` raises on a port that is not a number. */
  const ValueError: string := "ValueError"

  /** What the script needs of the configuration: the sections it calls `setdefault` on are dicts when present. */
  predicate NginxShape(config: JSON) {
    && config.Obj?
    && DictOrAbsent(config, "tls") && DictOrAbsent(config, "networking")
    && DictOrAbsent(GetOr(config, "networking", Empty), "ipv6")
    && DictOrAbsent(GetOr(config, "networking", Empty), "listen")
  }

  /** `d.setdefault(k, v)`: a key already present keeps its value, even `None`; an absent one gets `v`. */
  function SetDefault(d: JSON, k: string, v: JSON): (r: JSON)
    requires d.Obj?
    ensures r.Obj? && Get(r, k) == (if Has(d, k) then Get(d, k) else Some(v))
    ensures forall x :: x != k ==> Get(r, x) == Get(d, x)
    ensures Has(d, k) ==> r == d
  {
    if Has(d, k) then d else Set(d, k, v)
  }

  /**
   * A listen setting as a port: a string is an address whose text after the
   * last ":" is the port number; any other value is the port as it is.
   */
  function PortOf(v: JSON): (r: Result<JSON>)
    ensures !v.Str? ==> r == Ok(v)
    ensures v.Str? ==> r.Ok? == Text.ParseInt(LastSegment(v.s)).Some?
    ensures r.Ok? && v.Str? ==> r.value == Int(Text.ParseInt(LastSegment(v.s)).value)
  {
    if v.Str? then
      match Text.ParseInt(LastSegment(v.s))
      case Some(n) => Ok(Int(n))
      case None => Err(ValueError)
    else Ok(v)
  }

  /** `s.split(":")[-1]`. */
  function LastSegment(s: string): string {
    var parts := Text.Split(s, ':');
    parts[|parts| - 1]
  }

  /** A port number's digits hold no colon. */
  lemma NoColonInDigits(n: nat)
    ensures ':' !in Text.NatToString(n)
  {
    assert !Text.IsDigit(':');
  }

  /** An address "host:port" gives its port, whatever colons the host holds. */
  lemma HostPortParsed(host: string, n: nat)
    ensures PortOf(Str(host + ":" + Text.NatToString(n))) == Ok(Int(n))
  {
    var digits := Text.NatToString(n);
    NoColonInDigits(n);
    Text.SplitConcat(host, digits, ':');
    Text.SplitNoSep(digits, ':');
    assert host + ":" + digits == host + [':'] + digits;
    Text.ParseNatToString(n);
  }

  /** A bare port number in a string gives that port. */
  lemma BarePortParsed(n: nat)
    ensures PortOf(Str(Text.NatToString(n))) == Ok(Int(n))
  {
    var digits := Text.NatToString(n);
    NoColonInDigits(n);
    Text.SplitNoSep(digits, ':');
    Text.ParseNatToString(n);
  }

  /** An address without a port number after its last colon is refused. */
  lemma MissingPortRefused(host: string)
    ensures PortOf(Str(host + ":")).Err?
  {
    Text.SplitConcat(host, "", ':');
    assert host + ":" == host + [':'] + "";
    assert Text.Split("", ':') == [""];
  }

  /** The section read from the configuration, `{}` when absent. */
  function Section(d: JSON, k: string): JSON {
    GetOr(d, k, Empty)
  }

  /** A listen setting after `setdefault`: the configured value when the key is present, else the default port. */
  function ListenSetting(config: JSON, key: string, default: int): JSON {
    GetOr(Section(Section(config, "networking"), "listen"), key, Int(default))
  }

  /**
   * The listen section after the script's steps: both addresses defaulted,
   * then `internal_port` and `external_port` added, or the exception of the
   * first address that has no port number.
   */
  function ListenPorts(listen: JSON): (r: Result<JSON>)
    requires listen.Obj?
    ensures r.Err? <==> PortOf(GetOr(listen, "internal", Int(5000))).Err? || PortOf(GetOr(listen, "external", Int(8971))).Err?
    ensures r.Err? ==> r.error == ValueError
    ensures r.Ok? ==> && r.value.Obj?
                      && Get(r.value, "internal") == Some(GetOr(listen, "internal", Int(5000)))
                      && Get(r.value, "external") == Some(GetOr(listen, "external", Int(8971)))
                      && Get(r.value, "internal_port") == Some(PortOf(GetOr(listen, "internal", Int(5000))).value)
                      && Get(r.value, "external_port") == Some(PortOf(GetOr(listen, "external", Int(8971))).value)
    ensures r.Ok? ==> forall k :: k != "internal" && k != "external" && k != "internal_port" && k != "external_port" ==>
                        Get(r.value, k) == Get(listen, k)
  {
    var defaulted := SetDefault(SetDefault(listen, "internal", Int(5000)), "external", Int(8971));
    var internalPort := PortOf(defaulted.values["internal"]);
    var externalPort := PortOf(defaulted.values["external"]);
    if internalPort.Err? || externalPort.Err? then Err(ValueError)
    else
      assert "internal"[0] != "external"[0] && "internal_port"[0] != "external_port"[0];
      assert "internal" != "internal_port" by { assert |"internal"| != |"internal_port"|; }
      assert "external" != "external_port" by { assert |"external"| != |"external_port"|; }
      Ok(Set(Set(defaulted, "internal_port", internalPort.value), "external_port", externalPort.value))
  }

  /** The settings object the script prints, or the exception it stops on. */
  function Settings(config: JSON, basePath: Option<string>): (r: Result<JSON>)
    requires NginxShape(config)
    ensures r.Err? <==> ListenPorts(Section(Section(config, "networking"), "listen")).Err?
    ensures r.Err? ==> r.error == ValueError
    ensures r.Ok? ==> r.value.Obj? && r.value.keys == ["tls", "ipv6", "listen", "base_path"]
    ensures r.Ok? ==> Get(r.value, "base_path") == Some(Str(basePath.GetOr("")))
    ensures r.Ok? ==> Get(r.value, "tls") == Some(SetDefault(Section(config, "tls"), "enabled", Bool(true)))
    ensures r.Ok? ==> Get(r.value, "ipv6") == Some(SetDefault(Section(Section(config, "networking"), "ipv6"), "enabled", Bool(false)))
    ensures r.Ok? ==> Get(r.value, "listen") == Some(ListenPorts(Section(Section(config, "networking"), "listen")).value)
  {
    var networking := Section(config, "networking");
    match ListenPorts(Section(networking, "listen"))
    case Err(e) => Err(e)
    case Ok(listen) =>
      Ok(SettingsObject(SetDefault(Section(config, "tls"), "enabled", Bool(true)),
                        SetDefault(Section(networking, "ipv6"), "enabled", Bool(false)),
                        listen, basePath.GetOr("")))
  }

  /** The printed object: exactly the four settings, in this order. */
  function SettingsObject(tls: JSON, ipv6: JSON, listen: JSON, basePath: string): (r: JSON)
    ensures r.Obj? && r.keys == ["tls", "ipv6", "listen", "base_path"]
    ensures Get(r, "tls") == Some(tls) && Get(r, "ipv6") == Some(ipv6) && Get(r, "listen") == Some(listen)
    ensures Get(r, "base_path") == Some(Str(basePath))
  {
    assert "tls"[0] != "ipv6"[0] && "tls"[0] != "listen"[0] && "tls"[0] != "base_path"[0];
    assert "ipv6"[0] != "listen"[0] && "ipv6"[0] != "base_path"[0] && "listen"[0] != "base_path"[0];
    Obj(["tls", "ipv6", "listen", "base_path"], map["tls" := tls, "ipv6" := ipv6, "listen" := listen, "base_path" := Str(basePath)])
  }

  /** With no configuration at all, TLS is on, IPv6 off, nginx listens on 5000 and 8971, and there is no base path. */
  lemma NoConfigDefaults()
    ensures var r := Settings(Empty, None);
            && r.Ok?
            && At(r.value, "tls", "enabled") == Some(Bool(true))
            && At(r.value, "ipv6", "enabled") == Some(Bool(false))
            && At(r.value, "listen", "internal_port") == Some(Int(5000))
            && At(r.value, "listen", "external_port") == Some(Int(8971))
            && Get(r.value, "base_path") == Some(Str(""))
  {
    assert !Has(Section(Section(Empty, "networking"), "listen"), "internal");
  }

  /** The script, step by step. */
  method GetNginxSettings(config: JSON, basePath: Option<string>) returns (r: Result<JSON>)
    requires NginxShape(config)
    ensures r == Settings(config, basePath)
  {
    var tls := Section(config, "tls");
    tls := SetDefault(tls, "enabled", Bool(true));
    var networking := Section(config, "networking");
    var ipv6 := Section(networking, "ipv6");
    ipv6 := SetDefault(ipv6, "enabled", Bool(false));
    var listen := Section(networking, "listen");
    listen := SetDefault(listen, "internal", Int(5000));
    listen := SetDefault(listen, "external", Int(8971));
    var internalPort := PortOf(listen.values["internal"]);
    if internalPort.Err? {
      return Err(ValueError);
    }
    listen := Set(listen, "internal_port", internalPort.value);
    var externalPort := PortOf(listen.values["external"]);
    if externalPort.Err? {
      return Err(ValueError);
    }
    listen := Set(listen, "external_port", externalPort.value);
    r := Ok(SettingsObject(tls, ipv6, listen, basePath.GetOr("")));
  }
}
