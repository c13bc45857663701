/**
 * `MicrowaveScriptGenerator` of streamlit_app.py: three fixed templates that
 * substitute the fields of a site configuration into vendor script text, the
 * vendor dispatch between them, and the download file name.
 *
 * The generation time, read from the clock in the source, is a parameter
 * here: `stamp` is the already formatted `%Y-%m-%d %H:%M:%S` text.
 */
module ScriptGenerator {
  import opened Wrappers
  import opened Tables
  import opened TextLines

  /**
   * The configuration dictionary the templates read.  Values that come from
   * a table row are cells; the constants are plain text.  `vendor` is
   * optional because `generate_script` reads it with a default.
   */
  datatype Config = Config(
    chaveNumber: string,
    siteName: Cell,
    ipAddress: Cell,
    vlanId: Cell,
    subnetMask: string,
    gateway: string,
    frequency: Cell,
    bandwidth: Cell,
    modulation: Cell,
    txPower: Cell,
    vendor: Option<Cell>,
    snmpRead: string,
    snmpWrite: string,
    remoteSite: Cell)

  const Huawei: string := "华为"
  const Zte: string := "中兴"

  /** The first line of each template, right after its leading line break. */
  const HuaweiBanner: string := "# 华为微波设备开站脚本"
  const ZteBanner: string := "# 中兴微波设备开站脚本"
  const GenericBanner: string := "# 微波设备开站脚本"

  /**
   * `str()` of a cell value as an f-string prints it; an empty cell is NaN.
   * A number prints as an optional `-` followed by the decimal digits of its
   * magnitude, with no leading zero.
   */
  function Show(v: Cell): (r: string)
    ensures v.Text? ==> r == v.s
    ensures v.Empty? ==> r == "nan"
    ensures v.Number? ==> |r| > 0 && r != "nan" && (r[0] == '-' <==> v.n < 0)
    ensures v.Number? && v.n >= 0 ==> DecimalValue(r) == v.n
    ensures v.Number? ==>
              var d := if v.n < 0 then r[1..] else r;
              && |d| > 0
              && (forall i :: 0 <= i < |d| ==> '0' <= d[i] <= '9')
              && (|d| > 1 ==> d[0] != '0')
              && DecimalValue(d) == (if v.n < 0 then -v.n else v.n)
  {
    match v
    case Text(s) => s
    case Number(n) =>
      IntToStringDigits(n);
      IntToString(n)
    case Empty => "nan"
  }

  /** Different numbers never print alike, so a numeric field is unambiguous in the text. */
  lemma ShowNumberInjective(a: int, b: int)
    requires Show(Number(a)) == Show(Number(b))
    ensures a == b
  {
    IntToStringInjective(a, b);
  }

  /**
   * The opening every template shares: the line break right after the
   * opening quotes, the banner, the generation time, the site and the query.
   */
  function Header(banner: string, c: Config, stamp: string): seq<string>
  {
    [ "",
      banner,
      "# 生成时间: " + stamp,
      "# 站点名称: " + Show(c.siteName),
      "# CHAVE号码: " + c.chaveNumber,
      "" ]
  }

  /** The opening, joined, starts with the banner and has the time, site and query lines. */
  lemma HeaderLines(banner: string, c: Config, stamp: string)
    ensures var h := JoinLines(Header(banner, c, stamp));
            && LineAt(h, banner, 1)
            && HasLine(h, "# 生成时间: " + stamp)
            && HasLine(h, "# 站点名称: " + Show(c.siteName))
            && HasLine(h, "# CHAVE号码: " + c.chaveNumber)
  {
    var lines := Header(banner, c, stamp);
    JoinSecondLine(lines);
    JoinHasLine(lines, 2);
    JoinHasLine(lines, 3);
    JoinHasLine(lines, 4);
  }

  /** streamlit_app.py:147-167: system name, the trunk port towards the router, the radio. */
  function HuaweiPorts(c: Config): seq<string>
  {
    [ "# 系统配置",
      "system-view",
      "sysname " + Show(c.siteName),
      "",
      "# 接口配置",
      "interface gigabitethernet 0/0/1",
      " description Connection_to_Router",
      " port link-type trunk",
      " port trunk allow-pass vlan " + Show(c.vlanId),
      " undo shutdown",
      "",
      "# 无线接口配置",
      "interface radio 0/0/1",
      " description Radio_Link_to_" + Show(c.remoteSite),
      " frequency " + Show(c.frequency) + " MHz",
      " bandwidth " + Show(c.bandwidth),
      " modulation " + Show(c.modulation),
      " tx-power " + Show(c.txPower),
      " adaptive-modulation enable",
      " undo shutdown",
      "" ]
  }

  /** streamlit_app.py:168-191: management VLAN and its interface, route, SNMP, save. */
  function HuaweiServices(c: Config): seq<string>
  {
    [ "# VLAN配置",
      "vlan " + Show(c.vlanId),
      " description Management_VLAN",
      "",
      "# 业务配置",
      "interface vlanif " + Show(c.vlanId),
      " ip address " + Show(c.ipAddress) + " " + c.subnetMask,
      "",
      "# 路由配置",
      "ip route-static 0.0.0.0 0.0.0.0 " + c.gateway,
      "",
      "# 管理配置",
      "snmp-agent",
      "snmp-agent community read " + c.snmpRead,
      "snmp-agent community write " + c.snmpWrite,
      "",
      "# 保存配置",
      "save",
      "y",
      "",
      "# 开站完成",
      "display radio 0/0/1",
      "display interface gigabitethernet 0/0/1",
      "        " ]
  }

  /** The ports section names the system, puts the VLAN on the trunk and sets the radio power. */
  lemma HuaweiPortsLines(c: Config)
    ensures var t := JoinLines(HuaweiPorts(c));
            && HasLine(t, "sysname " + Show(c.siteName))
            && HasLine(t, " port trunk allow-pass vlan " + Show(c.vlanId))
            && HasLine(t, " tx-power " + Show(c.txPower))
  {
    var lines := HuaweiPorts(c);
    assert lines[2] == "sysname " + Show(c.siteName);
    JoinHasLine(lines, 2);
    assert lines[8] == " port trunk allow-pass vlan " + Show(c.vlanId);
    JoinHasLine(lines, 8);
    assert lines[17] == " tx-power " + Show(c.txPower);
    JoinHasLine(lines, 17);
  }

  /** The radio interface names its peer and sets frequency, bandwidth and modulation. */
  lemma HuaweiRadioLines(c: Config)
    ensures var t := JoinLines(HuaweiPorts(c));
            && HasLine(t, " description Radio_Link_to_" + Show(c.remoteSite))
            && HasLine(t, " frequency " + Show(c.frequency) + " MHz")
            && HasLine(t, " bandwidth " + Show(c.bandwidth))
            && HasLine(t, " modulation " + Show(c.modulation))
  {
    var lines := HuaweiPorts(c);
    assert lines[13] == " description Radio_Link_to_" + Show(c.remoteSite);
    JoinHasLine(lines, 13);
    assert lines[14] == " frequency " + Show(c.frequency) + " MHz";
    JoinHasLine(lines, 14);
    assert lines[15] == " bandwidth " + Show(c.bandwidth);
    JoinHasLine(lines, 15);
    assert lines[16] == " modulation " + Show(c.modulation);
    JoinHasLine(lines, 16);
  }

  /** The services section declares the VLAN, addresses its interface and routes to the gateway. */
  lemma HuaweiServicesLines(c: Config)
    ensures var t := JoinLines(HuaweiServices(c));
            && HasLine(t, "vlan " + Show(c.vlanId))
            && HasLine(t, "interface vlanif " + Show(c.vlanId))
            && HasLine(t, " ip address " + Show(c.ipAddress) + " " + c.subnetMask)
            && HasLine(t, "ip route-static 0.0.0.0 0.0.0.0 " + c.gateway)
  {
    var lines := HuaweiServices(c);
    assert lines[1] == "vlan " + Show(c.vlanId);
    JoinHasLine(lines, 1);
    assert lines[5] == "interface vlanif " + Show(c.vlanId);
    JoinHasLine(lines, 5);
    assert lines[6] == " ip address " + Show(c.ipAddress) + " " + c.subnetMask;
    JoinHasLine(lines, 6);
    assert lines[9] == "ip route-static 0.0.0.0 0.0.0.0 " + c.gateway;
    JoinHasLine(lines, 9);
  }

  /** The services section sets both SNMP communities. */
  lemma HuaweiSnmpLines(c: Config)
    ensures var t := JoinLines(HuaweiServices(c));
            && HasLine(t, "snmp-agent community read " + c.snmpRead)
            && HasLine(t, "snmp-agent community write " + c.snmpWrite)
  {
    var lines := HuaweiServices(c);
    assert lines[13] == "snmp-agent community read " + c.snmpRead;
    JoinHasLine(lines, 13);
    assert lines[14] == "snmp-agent community write " + c.snmpWrite;
    JoinHasLine(lines, 14);
  }

  /**
   * `generate_huawei_script`: the opening, the ports and the services, one per line; the text opens with the Huawei banner right after its leading line break.
   */
  function HuaweiScript(c: Config, stamp: string): (r: string)
    ensures LineAt(r, HuaweiBanner, 1)
  {
    var a, b, d := JoinLines(Header(HuaweiBanner, c, stamp)), JoinLines(HuaweiPorts(c)), JoinLines(HuaweiServices(c));
    HeaderLines(HuaweiBanner, c, stamp);
    LineInFront(a, b, HuaweiBanner, 1);
    LineInFront(a + "\n" + b, d, HuaweiBanner, 1);
    a + "\n" + b + "\n" + d
  }

  /**
   * The Huawei script carries every configured value on a line of its own: the time, site and query; the system name; the VLAN on the trunk, declared and given the management interface with its address; the radio's peer, frequency, bandwidth, modulation and power; the default route to the gateway; both SNMP communities.
   */
  lemma HuaweiScriptLines(c: Config, stamp: string)
    ensures var r := HuaweiScript(c, stamp);
            && HasLine(r, "# 生成时间: " + stamp)
            && HasLine(r, "# 站点名称: " + Show(c.siteName))
            && HasLine(r, "# CHAVE号码: " + c.chaveNumber)
            && HasLine(r, "sysname " + Show(c.siteName))
            && HasLine(r, " port trunk allow-pass vlan " + Show(c.vlanId))
            && HasLine(r, " description Radio_Link_to_" + Show(c.remoteSite))
            && HasLine(r, " frequency " + Show(c.frequency) + " MHz")
            && HasLine(r, " bandwidth " + Show(c.bandwidth))
            && HasLine(r, " modulation " + Show(c.modulation))
            && HasLine(r, " tx-power " + Show(c.txPower))
            && HasLine(r, "vlan " + Show(c.vlanId))
            && HasLine(r, "interface vlanif " + Show(c.vlanId))
            && HasLine(r, " ip address " + Show(c.ipAddress) + " " + c.subnetMask)
            && HasLine(r, "ip route-static 0.0.0.0 0.0.0.0 " + c.gateway)
            && HasLine(r, "snmp-agent community read " + c.snmpRead)
            && HasLine(r, "snmp-agent community write " + c.snmpWrite)
  {
    var a, b, d := JoinLines(Header(HuaweiBanner, c, stamp)), JoinLines(HuaweiPorts(c)), JoinLines(HuaweiServices(c));
    assert HuaweiScript(c, stamp) == a + "\n" + b + "\n" + d;
    HeaderLines(HuaweiBanner, c, stamp);
    HuaweiPortsLines(c);
    HuaweiRadioLines(c);
    HuaweiServicesLines(c);
    HuaweiSnmpLines(c);
    HasLineOfThree(a, b, d, "# 生成时间: " + stamp);
    HasLineOfThree(a, b, d, "# 站点名称: " + Show(c.siteName));
    HasLineOfThree(a, b, d, "# CHAVE号码: " + c.chaveNumber);
    HasLineOfThree(a, b, d, "sysname " + Show(c.siteName));
    HasLineOfThree(a, b, d, " port trunk allow-pass vlan " + Show(c.vlanId));
    HasLineOfThree(a, b, d, " description Radio_Link_to_" + Show(c.remoteSite));
    HasLineOfThree(a, b, d, " frequency " + Show(c.frequency) + " MHz");
    HasLineOfThree(a, b, d, " bandwidth " + Show(c.bandwidth));
    HasLineOfThree(a, b, d, " modulation " + Show(c.modulation));
    HasLineOfThree(a, b, d, " tx-power " + Show(c.txPower));
    HasLineOfThree(a, b, d, "vlan " + Show(c.vlanId));
    HasLineOfThree(a, b, d, "interface vlanif " + Show(c.vlanId));
    HasLineOfThree(a, b, d, " ip address " + Show(c.ipAddress) + " " + c.subnetMask);
    HasLineOfThree(a, b, d, "ip route-static 0.0.0.0 0.0.0.0 " + c.gateway);
    HasLineOfThree(a, b, d, "snmp-agent community read " + c.snmpRead);
    HasLineOfThree(a, b, d, "snmp-agent community write " + c.snmpWrite);
  }

  /** streamlit_app.py:202-224: configuration mode, host name, uplink port, radio. */
  function ZtePorts(c: Config): seq<string>
  {
    [ "# 进入配置模式",
      "configure terminal",
      "",
      "# 系统配置",
      "hostname " + Show(c.siteName),
      "",
      "# 以太网接口配置",
      "interface gei-0/1",
      " description \"Uplink_Interface\"",
      " switchport mode trunk",
      " switchport trunk allowed vlan " + Show(c.vlanId),
      " no shutdown",
      "",
      "# 无线接口配置",
      "interface radio-0/1",
      " description \"Wireless_Link_to_" + Show(c.remoteSite) + "\"",
      " frequency " + Show(c.frequency),
      " bandwidth " + Show(c.bandwidth),
      " modulation " + Show(c.modulation),
      " output-power " + Show(c.txPower),
      " adaptive-modulation on",
      " no shutdown",
      "" ]
  }

  /** streamlit_app.py:225-246: management VLAN and its interface, route, SNMP, save. */
  function ZteServices(c: Config): seq<string>
  {
    [ "# VLAN配置",
      "vlan " + Show(c.vlanId),
      " name \"Management_VLAN\"",
      "",
      "# IP接口配置",
      "interface vlan " + Show(c.vlanId),
      " ip address " + Show(c.ipAddress) + " " + c.subnetMask,
      "",
      "# 默认路由",
      "ip route 0.0.0.0/0 " + c.gateway,
      "",
      "# SNMP配置",
      "snmp-server community " + c.snmpRead + " ro",
      "snmp-server community " + c.snmpWrite + " rw",
      "",
      "# 保存配置",
      "write memory",
      "",
      "# 验证配置",
      "show interface radio-0/1",
      "show interface gei-0/1",
      "        " ]
  }

  /** The ports section names the host, puts the VLAN on the trunk and sets the radio power. */
  lemma ZtePortsLines(c: Config)
    ensures var t := JoinLines(ZtePorts(c));
            && HasLine(t, "hostname " + Show(c.siteName))
            && HasLine(t, " switchport trunk allowed vlan " + Show(c.vlanId))
            && HasLine(t, " output-power " + Show(c.txPower))
  {
    var lines := ZtePorts(c);
    assert lines[4] == "hostname " + Show(c.siteName);
    JoinHasLine(lines, 4);
    assert lines[10] == " switchport trunk allowed vlan " + Show(c.vlanId);
    JoinHasLine(lines, 10);
    assert lines[19] == " output-power " + Show(c.txPower);
    JoinHasLine(lines, 19);
  }

  /** The radio interface names its peer and sets frequency, bandwidth and modulation. */
  lemma ZteRadioLines(c: Config)
    ensures var t := JoinLines(ZtePorts(c));
            && HasLine(t, " description \"Wireless_Link_to_" + Show(c.remoteSite) + "\"")
            && HasLine(t, " frequency " + Show(c.frequency))
            && HasLine(t, " bandwidth " + Show(c.bandwidth))
            && HasLine(t, " modulation " + Show(c.modulation))
  {
    var lines := ZtePorts(c);
    assert lines[15] == " description \"Wireless_Link_to_" + Show(c.remoteSite) + "\"";
    JoinHasLine(lines, 15);
    assert lines[16] == " frequency " + Show(c.frequency);
    JoinHasLine(lines, 16);
    assert lines[17] == " bandwidth " + Show(c.bandwidth);
    JoinHasLine(lines, 17);
    assert lines[18] == " modulation " + Show(c.modulation);
    JoinHasLine(lines, 18);
  }

  /** The services section declares the VLAN, addresses its interface and routes to the gateway. */
  lemma ZteServicesLines(c: Config)
    ensures var t := JoinLines(ZteServices(c));
            && HasLine(t, "vlan " + Show(c.vlanId))
            && HasLine(t, "interface vlan " + Show(c.vlanId))
            && HasLine(t, " ip address " + Show(c.ipAddress) + " " + c.subnetMask)
            && HasLine(t, "ip route 0.0.0.0/0 " + c.gateway)
  {
    var lines := ZteServices(c);
    assert lines[1] == "vlan " + Show(c.vlanId);
    JoinHasLine(lines, 1);
    assert lines[5] == "interface vlan " + Show(c.vlanId);
    JoinHasLine(lines, 5);
    assert lines[6] == " ip address " + Show(c.ipAddress) + " " + c.subnetMask;
    JoinHasLine(lines, 6);
    assert lines[9] == "ip route 0.0.0.0/0 " + c.gateway;
    JoinHasLine(lines, 9);
  }

  /** The services section sets both SNMP communities. */
  lemma ZteSnmpLines(c: Config)
    ensures var t := JoinLines(ZteServices(c));
            && HasLine(t, "snmp-server community " + c.snmpRead + " ro")
            && HasLine(t, "snmp-server community " + c.snmpWrite + " rw")
  {
    var lines := ZteServices(c);
    assert lines[12] == "snmp-server community " + c.snmpRead + " ro";
    JoinHasLine(lines, 12);
    assert lines[13] == "snmp-server community " + c.snmpWrite + " rw";
    JoinHasLine(lines, 13);
  }

  /**
   * `generate_zte_script`: the opening, the ports and the services, one per line; the text opens with the ZTE banner right after its leading line break.
   */
  function ZteScript(c: Config, stamp: string): (r: string)
    ensures LineAt(r, ZteBanner, 1)
  {
    var a, b, d := JoinLines(Header(ZteBanner, c, stamp)), JoinLines(ZtePorts(c)), JoinLines(ZteServices(c));
    HeaderLines(ZteBanner, c, stamp);
    LineInFront(a, b, ZteBanner, 1);
    LineInFront(a + "\n" + b, d, ZteBanner, 1);
    a + "\n" + b + "\n" + d
  }

  /**
   * The ZTE script carries every configured value on a line of its own, in ZTE syntax: the time, site and query; the host name; the VLAN on the trunk, declared and given its interface with the address; the radio's peer, frequency, bandwidth, modulation and power; the default route to the gateway; both SNMP communities.
   */
  lemma ZteScriptLines(c: Config, stamp: string)
    ensures var r := ZteScript(c, stamp);
            && HasLine(r, "# 生成时间: " + stamp)
            && HasLine(r, "# 站点名称: " + Show(c.siteName))
            && HasLine(r, "# CHAVE号码: " + c.chaveNumber)
            && HasLine(r, "hostname " + Show(c.siteName))
            && HasLine(r, " switchport trunk allowed vlan " + Show(c.vlanId))
            && HasLine(r, " description \"Wireless_Link_to_" + Show(c.remoteSite) + "\"")
            && HasLine(r, " frequency " + Show(c.frequency))
            && HasLine(r, " bandwidth " + Show(c.bandwidth))
            && HasLine(r, " modulation " + Show(c.modulation))
            && HasLine(r, " output-power " + Show(c.txPower))
            && HasLine(r, "vlan " + Show(c.vlanId))
            && HasLine(r, "interface vlan " + Show(c.vlanId))
            && HasLine(r, " ip address " + Show(c.ipAddress) + " " + c.subnetMask)
            && HasLine(r, "ip route 0.0.0.0/0 " + c.gateway)
            && HasLine(r, "snmp-server community " + c.snmpRead + " ro")
            && HasLine(r, "snmp-server community " + c.snmpWrite + " rw")
  {
    var a, b, d := JoinLines(Header(ZteBanner, c, stamp)), JoinLines(ZtePorts(c)), JoinLines(ZteServices(c));
    assert ZteScript(c, stamp) == a + "\n" + b + "\n" + d;
    HeaderLines(ZteBanner, c, stamp);
    ZtePortsLines(c);
    ZteRadioLines(c);
    ZteServicesLines(c);
    ZteSnmpLines(c);
    HasLineOfThree(a, b, d, "# 生成时间: " + stamp);
    HasLineOfThree(a, b, d, "# 站点名称: " + Show(c.siteName));
    HasLineOfThree(a, b, d, "# CHAVE号码: " + c.chaveNumber);
    HasLineOfThree(a, b, d, "hostname " + Show(c.siteName));
    HasLineOfThree(a, b, d, " switchport trunk allowed vlan " + Show(c.vlanId));
    HasLineOfThree(a, b, d, " description \"Wireless_Link_to_" + Show(c.remoteSite) + "\"");
    HasLineOfThree(a, b, d, " frequency " + Show(c.frequency));
    HasLineOfThree(a, b, d, " bandwidth " + Show(c.bandwidth));
    HasLineOfThree(a, b, d, " modulation " + Show(c.modulation));
    HasLineOfThree(a, b, d, " output-power " + Show(c.txPower));
    HasLineOfThree(a, b, d, "vlan " + Show(c.vlanId));
    HasLineOfThree(a, b, d, "interface vlan " + Show(c.vlanId));
    HasLineOfThree(a, b, d, " ip address " + Show(c.ipAddress) + " " + c.subnetMask);
    HasLineOfThree(a, b, d, "ip route 0.0.0.0/0 " + c.gateway);
    HasLineOfThree(a, b, d, "snmp-server community " + c.snmpRead + " ro");
    HasLineOfThree(a, b, d, "snmp-server community " + c.snmpWrite + " rw");
  }

  /** streamlit_app.py:268-282: the numbered checklist after the common opening. */
  function GenericSteps(c: Config): seq<string>
  {
    [ "# 基本配置步骤:",
      "# 1. 系统命名: " + Show(c.siteName),
      "# 2. 配置管理IP: " + Show(c.ipAddress) + "/" + c.subnetMask,
      "# 3. 配置网关: " + c.gateway,
      "# 4. 配置无线参数:",
      "#    - 频率: " + Show(c.frequency) + " MHz",
      "#    - 带宽: " + Show(c.bandwidth),
      "#    - 调制方式: " + Show(c.modulation),
      "#    - 发射功率: " + Show(c.txPower) + " dBm",
      "# 5. 配置VLAN: " + Show(c.vlanId),
      "# 6. 配置SNMP:",
      "#    - 只读团体字: " + c.snmpRead,
      "#    - 读写团体字: " + c.snmpWrite,
      "# 7. 保存配置",
      "        " ]
  }

  /** The checklist names the system, the address, the gateway and the VLAN. */
  lemma GenericStepsLines(c: Config)
    ensures var t := JoinLines(GenericSteps(c));
            && HasLine(t, "# 1. 系统命名: " + Show(c.siteName))
            && HasLine(t, "# 2. 配置管理IP: " + Show(c.ipAddress) + "/" + c.subnetMask)
            && HasLine(t, "# 3. 配置网关: " + c.gateway)
            && HasLine(t, "# 5. 配置VLAN: " + Show(c.vlanId))
  {
    var lines := GenericSteps(c);
    assert lines[1] == "# 1. 系统命名: " + Show(c.siteName);
    JoinHasLine(lines, 1);
    assert lines[2] == "# 2. 配置管理IP: " + Show(c.ipAddress) + "/" + c.subnetMask;
    JoinHasLine(lines, 2);
    assert lines[3] == "# 3. 配置网关: " + c.gateway;
    JoinHasLine(lines, 3);
    assert lines[9] == "# 5. 配置VLAN: " + Show(c.vlanId);
    JoinHasLine(lines, 9);
  }

  /** The checklist lists frequency, bandwidth, modulation and power. */
  lemma GenericRadioLines(c: Config)
    ensures var t := JoinLines(GenericSteps(c));
            && HasLine(t, "#    - 频率: " + Show(c.frequency) + " MHz")
            && HasLine(t, "#    - 带宽: " + Show(c.bandwidth))
            && HasLine(t, "#    - 调制方式: " + Show(c.modulation))
            && HasLine(t, "#    - 发射功率: " + Show(c.txPower) + " dBm")
  {
    var lines := GenericSteps(c);
    assert lines[5] == "#    - 频率: " + Show(c.frequency) + " MHz";
    JoinHasLine(lines, 5);
    assert lines[6] == "#    - 带宽: " + Show(c.bandwidth);
    JoinHasLine(lines, 6);
    assert lines[7] == "#    - 调制方式: " + Show(c.modulation);
    JoinHasLine(lines, 7);
    assert lines[8] == "#    - 发射功率: " + Show(c.txPower) + " dBm";
    JoinHasLine(lines, 8);
  }

  /** The checklist lists both SNMP communities. */
  lemma GenericSnmpLines(c: Config)
    ensures var t := JoinLines(GenericSteps(c));
            && HasLine(t, "#    - 只读团体字: " + c.snmpRead)
            && HasLine(t, "#    - 读写团体字: " + c.snmpWrite)
  {
    var lines := GenericSteps(c);
    assert lines[11] == "#    - 只读团体字: " + c.snmpRead;
    JoinHasLine(lines, 11);
    assert lines[12] == "#    - 读写团体字: " + c.snmpWrite;
    JoinHasLine(lines, 12);
  }

  /**
   * `generate_generic_script`: the opening and a commented checklist of the
   * same settings; the text opens with the generic banner.
   */
  function GenericScript(c: Config, stamp: string): (r: string)
    ensures LineAt(r, GenericBanner, 1)
  {
    var a, b := JoinLines(Header(GenericBanner, c, stamp)), JoinLines(GenericSteps(c));
    HeaderLines(GenericBanner, c, stamp);
    LineInFront(a, b, GenericBanner, 1);
    a + "\n" + b
  }

  /**
   * The generic checklist carries every configured value on a line of its
   * own: the time, site and query; the system name, address with mask and
   * gateway; frequency, bandwidth, modulation and power; the VLAN; both SNMP
   * communities.
   */
  lemma GenericScriptLines(c: Config, stamp: string)
    ensures var r := GenericScript(c, stamp);
            && HasLine(r, "# 生成时间: " + stamp)
            && HasLine(r, "# 站点名称: " + Show(c.siteName))
            && HasLine(r, "# CHAVE号码: " + c.chaveNumber)
            && HasLine(r, "# 1. 系统命名: " + Show(c.siteName))
            && HasLine(r, "# 2. 配置管理IP: " + Show(c.ipAddress) + "/" + c.subnetMask)
            && HasLine(r, "# 3. 配置网关: " + c.gateway)
            && HasLine(r, "#    - 频率: " + Show(c.frequency) + " MHz")
            && HasLine(r, "#    - 带宽: " + Show(c.bandwidth))
            && HasLine(r, "#    - 调制方式: " + Show(c.modulation))
            && HasLine(r, "#    - 发射功率: " + Show(c.txPower) + " dBm")
            && HasLine(r, "# 5. 配置VLAN: " + Show(c.vlanId))
            && HasLine(r, "#    - 只读团体字: " + c.snmpRead)
            && HasLine(r, "#    - 读写团体字: " + c.snmpWrite)
  {
    var a, b := JoinLines(Header(GenericBanner, c, stamp)), JoinLines(GenericSteps(c));
    assert GenericScript(c, stamp) == a + "\n" + b;
    HeaderLines(GenericBanner, c, stamp);
    GenericStepsLines(c);
    GenericRadioLines(c);
    GenericSnmpLines(c);
    HasLineFront(a, b, "# 生成时间: " + stamp);
    HasLineFront(a, b, "# 站点名称: " + Show(c.siteName));
    HasLineFront(a, b, "# CHAVE号码: " + c.chaveNumber);
    HasLineBehind(a, b, "# 1. 系统命名: " + Show(c.siteName));
    HasLineBehind(a, b, "# 2. 配置管理IP: " + Show(c.ipAddress) + "/" + c.subnetMask);
    HasLineBehind(a, b, "# 3. 配置网关: " + c.gateway);
    HasLineBehind(a, b, "#    - 频率: " + Show(c.frequency) + " MHz");
    HasLineBehind(a, b, "#    - 带宽: " + Show(c.bandwidth));
    HasLineBehind(a, b, "#    - 调制方式: " + Show(c.modulation));
    HasLineBehind(a, b, "#    - 发射功率: " + Show(c.txPower) + " dBm");
    HasLineBehind(a, b, "# 5. 配置VLAN: " + Show(c.vlanId));
    HasLineBehind(a, b, "#    - 只读团体字: " + c.snmpRead);
    HasLineBehind(a, b, "#    - 读写团体字: " + c.snmpWrite);
  }

  /** No text opens with two different template banners. */
  lemma BannersExclusive(r: string)
    ensures !(LineAt(r, HuaweiBanner, 1) && LineAt(r, ZteBanner, 1))
    ensures !(LineAt(r, HuaweiBanner, 1) && LineAt(r, GenericBanner, 1))
    ensures !(LineAt(r, ZteBanner, 1) && LineAt(r, GenericBanner, 1))
  {
    if LineAt(r, HuaweiBanner, 1) {
      assert r[3] == HuaweiBanner[2] == '华';
    }
    if LineAt(r, ZteBanner, 1) {
      assert r[3] == ZteBanner[2] == '中';
    }
    if LineAt(r, GenericBanner, 1) {
      assert r[3] == GenericBanner[2] == '微';
    }
  }

  /**
   * `config.get('vendor', '华为')`: a set vendor is used as it is, and the
   * Huawei value stands exactly for 华为 or an absent vendor.
   */
  function VendorOf(c: Config): (r: Cell)
    ensures c.vendor.Some? ==> r == c.vendor.value
    ensures r == Text(Huawei) <==> c.vendor == None || c.vendor == Some(Text(Huawei))
  {
    match c.vendor
    case Some(v) => v
    case None => Text(Huawei)
  }

  /**
   * `generate_script`: the Huawei template exactly for vendor 华为 (also when
   * the vendor is absent), the ZTE template exactly for 中兴, and the generic
   * template for every other value; each script opens with its template's
   * banner and carries the query and the generation time.
   */
  function GenerateScript(c: Config, stamp: string): (r: string)
    ensures VendorOf(c) == Text(Huawei) <==> LineAt(r, HuaweiBanner, 1)
    ensures VendorOf(c) == Text(Zte) <==> LineAt(r, ZteBanner, 1)
    ensures VendorOf(c) != Text(Huawei) && VendorOf(c) != Text(Zte) <==> LineAt(r, GenericBanner, 1)
    ensures HasLine(r, "# CHAVE号码: " + c.chaveNumber)
    ensures HasLine(r, "# 生成时间: " + stamp)
  {
    var vendor := VendorOf(c);
    HuaweiScriptLines(c, stamp);
    ZteScriptLines(c, stamp);
    GenericScriptLines(c, stamp);
    BannersExclusive(HuaweiScript(c, stamp));
    BannersExclusive(ZteScript(c, stamp));
    BannersExclusive(GenericScript(c, stamp));
    if vendor == Text(Huawei) then HuaweiScript(c, stamp)
    else if vendor == Text(Zte) then ZteScript(c, stamp)
    else GenericScript(c, stamp)
  }

  /**
   * Each vendor's script puts the configured VLAN on the trunk, declares it,
   * gives it the management interface and routes by default to the gateway,
   * in that vendor's own syntax; any other vendor gets the checklist lines
   * for the gateway and the VLAN.
   */
  lemma ScriptVlanAndRoute(c: Config, stamp: string)
    ensures var r := GenerateScript(c, stamp);
            VendorOf(c) == Text(Huawei) ==>
              && HasLine(r, " port trunk allow-pass vlan " + Show(c.vlanId))
              && HasLine(r, "vlan " + Show(c.vlanId))
              && HasLine(r, "interface vlanif " + Show(c.vlanId))
              && HasLine(r, "ip route-static 0.0.0.0 0.0.0.0 " + c.gateway)
    ensures var r := GenerateScript(c, stamp);
            VendorOf(c) == Text(Zte) ==>
              && HasLine(r, " switchport trunk allowed vlan " + Show(c.vlanId))
              && HasLine(r, "vlan " + Show(c.vlanId))
              && HasLine(r, "interface vlan " + Show(c.vlanId))
              && HasLine(r, "ip route 0.0.0.0/0 " + c.gateway)
    ensures var r := GenerateScript(c, stamp);
            VendorOf(c) != Text(Huawei) && VendorOf(c) != Text(Zte) ==>
              && HasLine(r, "# 3. 配置网关: " + c.gateway)
              && HasLine(r, "# 5. 配置VLAN: " + Show(c.vlanId))
  {
    HuaweiScriptLines(c, stamp);
    ZteScriptLines(c, stamp);
    GenericScriptLines(c, stamp);
  }

  /**
   * The download name `<vendor>_<site name>_CHAVE<query>.txt`.  The source
   * reads `config['vendor']` without a default here, so the vendor must be set.
   */
  function DownloadFilename(c: Config): (f: string)
    requires c.vendor.Some?
    ensures Show(c.vendor.value) + "_" + Show(c.siteName) + "_CHAVE" <= f
    ensures |f| >= 4 && f[|f| - 4..] == ".txt"
  {
    Show(c.vendor.value) + "_" + Show(c.siteName) + "_CHAVE" + c.chaveNumber + ".txt"
  }

  /**
   * The query can be read back from the file name, so for the same vendor
   * and site name different queries never share a name.
   */
  lemma FilenameRecoversChave(c: Config)
    requires c.vendor.Some?
    ensures var f := DownloadFilename(c);
            var p := |Show(c.vendor.value) + "_" + Show(c.siteName) + "_CHAVE"|;
            p <= |f| - 4 && f[p..|f| - 4] == c.chaveNumber
  {
    var prefix := Show(c.vendor.value) + "_" + Show(c.siteName) + "_CHAVE";
    var f := DownloadFilename(c);
    assert f == prefix + c.chaveNumber + ".txt";
    assert f[|prefix|..|f| - 4] == c.chaveNumber;
  }
}
