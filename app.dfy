/**
 * The data logic inside `main` of streamlit_app.py: the lookup flow for one
 * CHAVE query and the configuration dictionary built from the rows found.
 */
module App {
  import opened Wrappers
  import opened Tables
  import opened DataProcessor
  import opened ScriptGenerator

  /** `d.get(key, default)` on a row: the row's cell when it has the key, else the default. */
  function Get(row: Row, key: string, default: Cell): (r: Cell)
    ensures key in row ==> r == row[key]
    ensures key !in row ==> r == default
    ensures r == default || r in row.Values
  {
    if key in row then row[key] else default
  }

  /**
   * `d.get(key, default) if d else default` for an optional device row.  The
   * truth test on `d` never hides a value: a row that has the key is read.
   */
  function GetDevice(device: Option<Row>, key: string, default: Cell): (r: Cell)
    ensures device.Some? && key in device.value ==> r == device.value[key]
    ensures !(device.Some? && key in device.value) ==> r == default
  {
    if device.Some? && device.value != map[] then Get(device.value, key, default) else default
  }

  const SiteNameKey := "站点名称"
  const IpKey := "IP地址"
  const VlanKey := "VLAN"
  const RemoteSiteKey := "对端站点"
  const FrequencyKey := "频率"
  const BandwidthKey := "带宽"
  const ModulationKey := "调制方式"
  const TxPowerKey := "发射功率"
  const VendorKey := "厂商"

  const DefaultIp := "192.168.100.10"
  const SubnetMask := "255.255.255.0"
  const Gateway := "192.168.100.1"
  const SnmpRead := "public"
  const SnmpWrite := "private"

  /** The configuration dictionary built from the query, the site row and the device row. */
  function BuildConfig(chave: string, site: Row, device: Option<Row>): (c: Config)
    ensures c.vendor.Some?
  {
    Config(
      chaveNumber := chave,
      siteName := Get(site, SiteNameKey, Text("SITE_" + chave)),
      ipAddress := Get(site, IpKey, Text(DefaultIp)),
      vlanId := Get(site, VlanKey, Number(100)),
      subnetMask := SubnetMask,
      gateway := Gateway,
      frequency := GetDevice(device, FrequencyKey, Number(15000)),
      bandwidth := GetDevice(device, BandwidthKey, Text("28MHz")),
      modulation := GetDevice(device, ModulationKey, Text("16QAM")),
      txPower := GetDevice(device, TxPowerKey, Number(15)),
      vendor := Some(GetDevice(device, VendorKey, Text(Huawei))),
      snmpRead := SnmpRead,
      snmpWrite := SnmpWrite,
      remoteSite := Get(site, RemoteSiteKey, Text("SITE_" + chave + "_PEER")))
  }

  /** The query itself and the network constants do not depend on the rows found. */
  lemma ConstantsIgnoreRows(chave: string, site: Row, device: Option<Row>, site': Row, device': Option<Row>)
    ensures var c, c' := BuildConfig(chave, site, device), BuildConfig(chave, site', device');
            && c.chaveNumber == c'.chaveNumber == chave
            && c.subnetMask == c'.subnetMask == "255.255.255.0"
            && c.gateway == c'.gateway == "192.168.100.1"
            && c.snmpRead == c'.snmpRead == "public"
            && c.snmpWrite == c'.snmpWrite == "private"
  {
  }

  /** A site field comes from the row when the row has that column, else from its default. */
  lemma SiteFieldsFromRowOrDefault(chave: string, site: Row, device: Option<Row>)
    ensures var c := BuildConfig(chave, site, device);
            && (SiteNameKey in site ==> c.siteName == site[SiteNameKey])
            && (SiteNameKey !in site ==> c.siteName == Text("SITE_" + chave))
            && (IpKey in site ==> c.ipAddress == site[IpKey])
            && (IpKey !in site ==> c.ipAddress == Text("192.168.100.10"))
            && (VlanKey in site ==> c.vlanId == site[VlanKey])
            && (VlanKey !in site ==> c.vlanId == Number(100))
            && (RemoteSiteKey in site ==> c.remoteSite == site[RemoteSiteKey])
            && (RemoteSiteKey !in site ==> c.remoteSite == Text("SITE_" + chave + "_PEER"))
  {
  }

  /** Without a device row every radio field and the vendor take their defaults. */
  lemma RadioDefaultsWithoutDevice(chave: string, site: Row)
    ensures var c := BuildConfig(chave, site, None);
            && c.frequency == Number(15000)
            && c.bandwidth == Text("28MHz")
            && c.modulation == Text("16QAM")
            && c.txPower == Number(15)
            && c.vendor == Some(Text("华为"))
  {
  }

  /** With a device row, a radio field comes from it when it has that column. */
  lemma RadioFieldsFromDevice(chave: string, site: Row, device: Row)
    ensures var c := BuildConfig(chave, site, Some(device));
            && (FrequencyKey in device ==> c.frequency == device[FrequencyKey])
            && (FrequencyKey !in device ==> c.frequency == Number(15000))
            && (BandwidthKey in device ==> c.bandwidth == device[BandwidthKey])
            && (BandwidthKey !in device ==> c.bandwidth == Text("28MHz"))
            && (ModulationKey in device ==> c.modulation == device[ModulationKey])
            && (ModulationKey !in device ==> c.modulation == Text("16QAM"))
            && (TxPowerKey in device ==> c.txPower == device[TxPowerKey])
            && (TxPowerKey !in device ==> c.txPower == Number(15))
            && (VendorKey in device ==> c.vendor == Some(device[VendorKey]))
            && (VendorKey !in device ==> c.vendor == Some(Text("华为")))
  {
  }

  /** The rows agree on `key`: both lack it, or both hold the same cell. */
  predicate SameEntry(a: Row, b: Row, key: string)
  {
    (key in a <==> key in b) && (key in a ==> a[key] == b[key])
  }

  /** The configuration reads nothing of the rows but the columns it names. */
  lemma {:induction false} ConfigReadsOnlyItsColumns(chave: string, site: Row, site': Row, device: Option<Row>, device': Option<Row>)
    requires forall key :: key in {SiteNameKey, IpKey, VlanKey, RemoteSiteKey} ==> SameEntry(site, site', key)
    requires device.Some? <==> device'.Some?
    requires device.Some? ==> forall key :: key in {FrequencyKey, BandwidthKey, ModulationKey, TxPowerKey, VendorKey} ==> SameEntry(device.value, device'.value, key)
    ensures BuildConfig(chave, site, device) == BuildConfig(chave, site', device')
  {
    var keys := {SiteNameKey, IpKey, VlanKey, RemoteSiteKey};
    assert SiteNameKey in keys && IpKey in keys && VlanKey in keys && RemoteSiteKey in keys;
    assert SameEntry(site, site', SiteNameKey) && SameEntry(site, site', IpKey);
    assert SameEntry(site, site', VlanKey) && SameEntry(site, site', RemoteSiteKey);
    if device.Some? {
      var d, d' := device.value, device'.value;
      var radio := {FrequencyKey, BandwidthKey, ModulationKey, TxPowerKey, VendorKey};
      assert FrequencyKey in radio && BandwidthKey in radio && ModulationKey in radio;
      assert TxPowerKey in radio && VendorKey in radio;
      assert SameEntry(d, d', FrequencyKey) && SameEntry(d, d', BandwidthKey);
      assert SameEntry(d, d', ModulationKey) && SameEntry(d, d', TxPowerKey) && SameEntry(d, d', VendorKey);
    }
  }

  /** What the page shows for one query. */
  datatype Resolution =
    | NoQuery                  // the input box is empty
    | DcnMissing               // no DCN table has been loaded
    | ChaveNotFound(chave: string)
    | Resolved(config: Config)

  /**
   * The lookup flow for one query: the site row from the DCN table, the device
   * row from the Datasheet only when a site was found and a Datasheet is
   * loaded, and the configuration built from both.
   */
  function Resolve(dcn: Option<Dataset>, datasheet: Option<Dataset>, chave: string): (r: Resolution)
    ensures r.Resolved? <==> chave != "" && FindSiteByChave(dcn, chave).Some?
    ensures r.DcnMissing? <==> chave != "" && dcn.None?
    ensures r.ChaveNotFound? <==> chave != "" && dcn.Some? && FindSiteByChave(dcn, chave).None?
    ensures r.Resolved? ==> r.config.chaveNumber == chave && r.config.vendor.Some?
  {
    if chave == "" then NoQuery
    else
      var site := if dcn.Some? then FindSiteByChave(dcn, chave) else None;
      FoundSiteNonEmpty(dcn, chave);
      var device := if site.Some? && site.value != map[] && datasheet.Some? then FindDeviceConfig(datasheet, site.value) else None;
      if site.Some? && site.value != map[] then Resolved(BuildConfig(chave, site.value, device))
      else if dcn.None? then DcnMissing
      else ChaveNotFound(chave)
  }

  /**
   * A found site row is never an empty dictionary, so testing its truth
   * value, as the page does, is the same as testing that it was found.
   */
  lemma FoundSiteNonEmpty(dcn: Option<Dataset>, q: string)
    ensures FindSiteByChave(dcn, q).Some? ==> FindSiteByChave(dcn, q).value != map[]
  {
    if FindSiteByChave(dcn, q).Some? {
      FoundRowHoldsQuery(dcn, q);
    }
  }

  /**
   * For a well-formed DCN table, a site field falls back to its default
   * exactly when the table has no column of that name.
   */
  lemma ResolvedSiteFields(dcn: Option<Dataset>, datasheet: Option<Dataset>, chave: string)
    requires dcn.Some? && WellFormed(dcn.value) && Resolve(dcn, datasheet, chave).Resolved?
    ensures var c := Resolve(dcn, datasheet, chave).config;
            var site := FindSiteByChave(dcn, chave).value;
            && (SiteNameKey in dcn.value.columns ==> c.siteName == site[SiteNameKey])
            && (SiteNameKey !in dcn.value.columns ==> c.siteName == Text("SITE_" + chave))
            && (VlanKey in dcn.value.columns ==> c.vlanId == site[VlanKey])
            && (VlanKey !in dcn.value.columns ==> c.vlanId == Number(100))
            && (IpKey in dcn.value.columns ==> c.ipAddress == site[IpKey])
            && (IpKey !in dcn.value.columns ==> c.ipAddress == Text("192.168.100.10"))
  {
    FoundSiteNonEmpty(dcn, chave);
    FoundRowHasTableColumns(dcn, chave);
  }

  /** When a site row is found, the Datasheet decides the radio fields through its first row of the same device model. */
  lemma ResolvedUsesFirstDevice(dcn: Option<Dataset>, datasheet: Option<Dataset>, chave: string)
    requires Resolve(dcn, datasheet, chave).Resolved?
    ensures var site := FindSiteByChave(dcn, chave).value;
            Resolve(dcn, datasheet, chave).config == BuildConfig(chave, site, FindDeviceConfig(datasheet, site))
  {
    FoundSiteNonEmpty(dcn, chave);
  }

  /** A sample DCN row keyed by `CHAVE`, and the Datasheet row of its device model. */
  const SampleSite: Row := map["CHAVE" := Text("C1"), "站点名称" := Text("S1"), "设备型号" := Text("M1")]
  const SampleDevice: Row := map["设备型号" := Text("M1"), "厂商" := Text("中兴")]
  const SampleDcn: Dataset := Dataset(["CHAVE", "站点名称", "设备型号"], [SampleSite])
  const SampleSheet: Dataset := Dataset(["设备型号", "厂商"], [SampleDevice])

  lemma SampleLookup()
    ensures Resolve(Some(SampleDcn), Some(SampleSheet), "C1") == Resolved(BuildConfig("C1", SampleSite, Some(SampleDevice)))
  {
    assert FindSiteByChave(Some(SampleDcn), "C1") == Some(SampleSite);
    assert FindDeviceConfig(Some(SampleSheet), SampleSite) == Some(SampleDevice);
  }

  /** The sample configuration names a ZTE device, so the ZTE template renders it. */
  lemma SampleScriptIsZte(stamp: string)
    ensures var c := BuildConfig("C1", SampleSite, Some(SampleDevice));
            GenerateScript(c, stamp) == ZteScript(c, stamp)
  {
    var c := BuildConfig("C1", SampleSite, Some(SampleDevice));
    assert c.vendor == Some(Text(Zte)) && c.siteName == Text("S1");
    assert VendorOf(c) == Text(Zte) && VendorOf(c) != Text(Huawei);
  }

  /** The sample configuration's download name. */
  lemma SampleFilename()
    ensures DownloadFilename(BuildConfig("C1", SampleSite, Some(SampleDevice))) == "中兴_S1_CHAVEC1.txt"
  {
    var c := BuildConfig("C1", SampleSite, Some(SampleDevice));
    assert c.vendor == Some(Text(Zte)) && c.siteName == Text("S1");
    assert Show(c.vendor.value) == "中兴" && Show(c.siteName) == "S1";
    assert "中兴" + "_" + "S1" + "_CHAVE" + "C1" + ".txt" == "中兴_S1_CHAVEC1.txt";
  }

  /**
   * One query end to end: the site found by its `CHAVE` cell, joined to a
   * ZTE device on its model, yields the ZTE script and its file name.
   */
  lemma SampleEndToEnd(stamp: string)
    ensures var r := Resolve(Some(SampleDcn), Some(SampleSheet), "C1");
            && r.Resolved?
            && r.config.siteName == Text("S1")
            && r.config.vendor == Some(Text("中兴"))
            && GenerateScript(r.config, stamp) == ZteScript(r.config, stamp)
            && DownloadFilename(r.config) == "中兴_S1_CHAVEC1.txt"
  {
    SampleLookup();
    SampleScriptIsZte(stamp);
    SampleFilename();
  }

  /**
   * Matching is exact: a key cell with a trailing space, holding the number
   * rather than the text, or differing in letter case does not match the
   * query.
   */
  lemma ExactMatchOnly()
    ensures FindSiteByChave(Some(Dataset(["CHAVE"], [map["CHAVE" := Text("C1 ")]])), "C1") == None
    ensures FindSiteByChave(Some(Dataset(["ID"], [map["ID" := Number(7)]])), "7") == None
    ensures FindSiteByChave(Some(Dataset(["chave"], [map["chave" := Text("c1")]])), "C1") == None
  {
  }
}
