# Microwave site-script generator: lookup and rendering core

This project models, in Dafny, the decision logic of `streamlit_app.py`.
The application turns a CHAVE number typed by an engineer into the
configuration script for a microwave link. It works in four steps:

1. **Site lookup** (`DataProcessor.find_site_by_chave`). The DCN inventory
   table is searched for the query. Six candidate key columns are tried in
   a fixed order: `CHAVE`, `Chave`, `chave`, `站点编号`, `编号`, `ID`. The
   first existing column that holds the query verbatim wins, and within it
   the first row in table order.
2. **Device lookup** (`DataProcessor.find_device_config`). The site row is
   joined to the Datasheet on the device-model column `设备型号`. The first
   equal row wins.
3. **Configuration assembly** (the dictionary built inside `main`). Every
   field is read from the site row or the device row when that column is
   present, and otherwise takes a fixed default. The subnet mask, gateway and
   SNMP communities are always constants.
4. **Script rendering** (`MicrowaveScriptGenerator`). Vendor `华为` selects
   the Huawei template and `中兴` the ZTE template. An absent vendor counts as
   `华为`. Any other value selects a generic checklist template. The download
   file name is `<vendor>_<site name>_CHAVE<query>.txt`.

Modules:

- `Wrappers`: `Option`.
- `Tables`: cells, rows and tables, pandas-style cell equality, and the row
  filter `df[df[col] == value]` with its first-match law.
- `DataProcessor`: both lookups. It also holds the line-108 lookup as
  written, next to the intended one (see Findings).
- `TextLines`: `"\n".join`, the relation "this text has this whole line",
  and `str()` of an integer with its read-back lemma.
- `ScriptGenerator`: the configuration record, the three templates, the
  vendor dispatch and the file name.
- `App`: the configuration assembly lifted out of `main`, and the lookup
  flow for one query.

A table is a list of column headers plus a list of rows. Each row is a map
from header to cell, as `iloc[i].to_dict()` gives it. A cell is a text, an
integer, or empty (pandas NaN). Cell equality follows pandas for these
kinds: an empty cell equals nothing, and a text never equals a number. There
is no trimming and no case folding.

`streamlit_app.py` has no header normalisation, IP repair, gateway
derivation, unit conversion, power scaling, reciprocal frequencies,
device-name rewriting or CHAVE trimming, and the model adds none. In
particular, the CHAVE is matched untrimmed.

## Model

| member | source | states |
|---|---|---|
| `Tables.CellEq` | streamlit_app.py:108 | element-wise `==` holds only between equal cells; an empty cell (NaN) equals nothing, not even another empty cell; a text never equals a number; two equal non-empty cells are equal |
| `Tables.Select` | streamlit_app.py:108-110 | the filtered rows are exactly the table's rows whose cell equals the value, never more rows than the table; the filter is non-empty exactly when some row matches, and its first element (`.iloc[0]`) is the first matching row in table order |
| `Tables.SelectAppend` | streamlit_app.py:108 | the filter keeps table order and multiplicity: filtering two blocks of rows gives the filter of the first block followed by that of the second |
| `DataProcessor.SearchColumns` | streamlit_app.py:104-112 | `None` exactly when no candidate column exists with an equal cell; otherwise the first row of the first candidate column that has a hit, with every earlier candidate hitless |
| `DataProcessor.FindSiteByChave` | streamlit_app.py:97-112 | `None` without a DCN table; over the six candidate columns in their fixed order, `None` exactly when none has an equal cell, otherwise the first row of the first column with a hit |
| `DataProcessor.FoundRowHoldsQuery` | streamlit_app.py:108-110 | the row found belongs to the table and holds the query verbatim under one of the candidate columns |
| `DataProcessor.FoundRowHasTableColumns` | streamlit_app.py:110 | in a well-formed table the row found has exactly the table's columns as keys |
| `DataProcessor.WinnerUnique` | streamlit_app.py:106-110 | the first-column-then-first-row rule admits exactly one answer |
| `DataProcessor.MissSkipsColumn` | streamlit_app.py:106-110 | a candidate column that is missing, or present with no equal cell, does not stop the search: the result is that of the remaining candidates |
| `DataProcessor.SearchColumnsAsWritten` | streamlit_app.py:106-108 | as written, the search raises `NameError` exactly when some candidate column exists, and otherwise returns `None` |
| `DataProcessor.FindSiteByChaveAsWritten` | streamlit_app.py:97-112 | as written, the lookup never finds a row: it returns `None` or raises `NameError`, and it raises exactly when a DCN table with a candidate column is given |
| `DataProcessor.AsWrittenRaisesWhereIntendedFinds` | streamlit_app.py:108 | every query the intended lookup answers makes the code as written raise |
| `DataProcessor.AsWrittenCounterexample` | streamlit_app.py:108 | for a one-row table with a `CHAVE` column holding `C1`, the code as written raises while the intended lookup returns that row |
| `DataProcessor.FindDeviceConfig` | streamlit_app.py:114-126 | `None` without a Datasheet, when either side lacks `设备型号`, or when nothing matches; otherwise the first Datasheet row whose `设备型号` equals the site's non-empty model |
| `ScriptGenerator.Show` | streamlit_app.py:144 | a text cell prints as itself and an empty cell as `nan`; a number prints as `-` exactly when negative, followed by decimal digits with no leading zero that read back as its magnitude |
| `ScriptGenerator.HuaweiScript` | streamlit_app.py:139-192 | the Huawei template text; it opens with the Huawei banner right after the leading line break |
| `ScriptGenerator.HuaweiScriptLines` | streamlit_app.py:139-192 | the Huawei script has a whole line for every configured value: time, site name and query in the header; `sysname`; the trunk allow-pass VLAN; the radio's `Radio_Link_to_` peer description, frequency in MHz, bandwidth, modulation and tx power; the VLAN declaration, `interface vlanif` and the IP address with mask; the default route to the gateway; the SNMP read and write communities |
| `ScriptGenerator.ZteScript` | streamlit_app.py:194-247 | the ZTE template text; it opens with the ZTE banner right after the leading line break |
| `ScriptGenerator.ZteScriptLines` | streamlit_app.py:194-247 | the ZTE script has a whole line for every configured value: time, site name and query in the header; `hostname`; the trunk allowed VLAN; the radio's `Wireless_Link_to_` peer description, frequency, bandwidth, modulation and output power; the VLAN declaration, `interface vlan` and the IP address with mask; the default route to the gateway; the `snmp-server` ro and rw communities |
| `ScriptGenerator.GenericScript` | streamlit_app.py:260-283 | the generic template text; it opens with the generic banner right after the leading line break |
| `ScriptGenerator.GenericScriptLines` | streamlit_app.py:260-283 | the generic checklist has a whole line for every configured value: time, site name and query in the header; system name, IP/mask and gateway; frequency in MHz, bandwidth, modulation and tx power in dBm; the VLAN; the read-only and read-write SNMP communities |
| `ScriptGenerator.VendorOf` | streamlit_app.py:251 | a set vendor is taken as it is; the value is `华为` exactly when the vendor is `华为` or absent |
| `ScriptGenerator.GenerateScript` | streamlit_app.py:249-258 | the Huawei banner appears exactly when the vendor is `华为` or absent, the ZTE banner exactly for `中兴`, the generic banner exactly otherwise; every script carries the query and the time |
| `ScriptGenerator.ScriptVlanAndRoute` | streamlit_app.py:139-283 | for vendor `华为` the generated script has the Huawei trunk allow-pass, `vlan`, `interface vlanif` and `ip route-static` lines; for `中兴` the ZTE trunk allowed, `vlan`, `interface vlan` and `ip route 0.0.0.0/0` lines; for any other vendor the checklist's gateway and VLAN lines |
| `ScriptGenerator.ShowNumberInjective` | streamlit_app.py:155 | different numeric values never print alike, so each numeric field is unambiguous in the script text |
| `ScriptGenerator.DownloadFilename` | streamlit_app.py:392 | the name starts with `<vendor>_<site name>_CHAVE` and ends with `.txt` |
| `ScriptGenerator.FilenameRecoversChave` | streamlit_app.py:392 | the query can be read back between that prefix and `.txt`, so for the same vendor and site name different queries never share a file name |
| `App.Get` | streamlit_app.py:366-368 | `.get(key, default)`: the row's cell when it has the key, else the default; the result is the default or one of the row's values |
| `App.GetDevice` | streamlit_app.py:371-375 | `… if device_config else default`: a device row that has the key is always read, whatever the truth test on the row; otherwise the default |
| `App.BuildConfig` | streamlit_app.py:364-379 | the assembled configuration always has a vendor |
| `App.ConstantsIgnoreRows` | streamlit_app.py:364-379 | the query verbatim, mask `255.255.255.0`, gateway `192.168.100.1` and communities `public`/`private` are the same whatever rows were found |
| `App.SiteFieldsFromRowOrDefault` | streamlit_app.py:366-378 | site name, IP, VLAN and remote site come from the site row when it has the column, else `SITE_<chave>`, `192.168.100.10`, 100, `SITE_<chave>_PEER` |
| `App.RadioDefaultsWithoutDevice` | streamlit_app.py:371-375 | without a device row: frequency 15000, bandwidth `28MHz`, modulation `16QAM`, tx power 15, vendor `华为` |
| `App.RadioFieldsFromDevice` | streamlit_app.py:371-375 | with a device row, each radio field and the vendor come from it when it has the column, else from the default |
| `App.ConfigReadsOnlyItsColumns` | streamlit_app.py:364-379 | rows that agree on the looked-up columns give the same configuration |
| `App.Resolve` | streamlit_app.py:348-400 | a configuration exactly when the query is non-empty and a site is found, carrying the query and a vendor; "no DCN" exactly when no table is loaded; "not found" exactly when a table is loaded and no site matches |
| `App.FoundSiteNonEmpty` | streamlit_app.py:356-360 | a found site row is never an empty dictionary, so the page's truth test on it equals "found" |
| `App.ResolvedSiteFields` | streamlit_app.py:366-368 | for a well-formed DCN table, site name, VLAN and IP fall back to their defaults exactly when the table lacks that column |
| `App.ResolvedUsesFirstDevice` | streamlit_app.py:356-357 | a resolved configuration is built from the found site and the first Datasheet row of its device model |
| `App.SampleEndToEnd` | streamlit_app.py:348-392 | a sample site keyed by `CHAVE` and joined to a `中兴` device yields the ZTE script and the file name `中兴_S1_CHAVEC1.txt` |
| `App.ExactMatchOnly` | streamlit_app.py:108 | a trailing space, a number in place of the text, or a different letter case does not match |

## Left out

- File loading (`parse_dcn_file`, `parse_datasheet_file`, lines 67-95): file I/O through pandas. The model starts from loaded tables.
- The Streamlit page (lines 12-62, 291-347, 380-391, 393-396, 401-430): layout, sidebar, uploaders, session state and messages. Of `main`, only the lookup flow with its error branches, the dictionary it builds and the download file name are modelled.
- The clock: the generation time is a parameter holding the already formatted `%Y-%m-%d %H:%M:%S` text.
- `create_download_link` (lines 285-289): base64 encoding and an HTML anchor.
- The `vendors` map (lines 132-137): it is never read.
- pandas type coercion: a numeric column compared with the text query, or ints widened to floats by NaN, are library behaviour. Cells here are text, integer or empty, and only equal values of the same kind match. Decimal numbers are not modelled.
- Duplicate column headers: a row is a map, so a header appears once.
- `App.BuildConfig`: its own contract states only that a vendor is always set; the field-by-field defaults are stated by the lemmas beside it.
- `ScriptGenerator.HuaweiScriptLines`: states every line that carries a configured value, not the fixed lines of the template (section headings, `system-view`, `undo shutdown`, `save`, the `display` commands); those are given only by the definition of `HuaweiScript`.
- `ScriptGenerator.ZteScriptLines`: as for the Huawei template (fixed lines such as `configure terminal`, `no shutdown`, `write memory` and the `show` commands).
- `ScriptGenerator.GenericScriptLines`: as for the Huawei template (the checklist headings and step 7).

## Findings

| source | as written | input that shows it | evidently intended | confidence | as-written member | corrected member |
|---|---|---|---|---|---|---|
| streamlit_app.py:108 | the filter reads `dn_data[col]`, a name defined nowhere, so the first candidate column that exists raises an uncaught `NameError` | a DCN table with a `CHAVE` column whose one row holds `C1`, queried with `C1` | filter the DCN table itself (`dcn_data[col]`), as the parameter name and the docstring say, and return the first matching row | high; not executed | `DataProcessor.FindSiteByChaveAsWritten` (shown by `DataProcessor.AsWrittenCounterexample`) | `DataProcessor.FindSiteByChave` |
