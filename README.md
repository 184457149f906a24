# aws-network-mapper in Dafny

`aws-network-mapper` reads the networking configuration of one AWS account and region. It covers
VPCs, subnets, route tables, internet/NAT/transit/VPN gateways, security groups, network ACLs,
VPC peering, VPC endpoints, EC2 instances and Direct Connect. It writes the result as a Markdown
report. This project models the two deterministic parts of the program and proves properties of them:

* **The collector's record normalisation** (`AWSNetworkMapper` in `aws_network_mapper.py`,
  module `Collector`). Each `collect_*` body turns the raw records of one API response into flat
  records, one per raw record and in input order. It applies tag lookup, the route-target
  priority chain, the key-route filter, the inbound-rule summary, the flattening of EC2
  reservations, and the "first attachment or placeholder" fallbacks. API responses are inputs:
  each raw record is a datatype, and a dictionary key that may be absent is an `Option`.
* **The Markdown renderer** (`MarkdownFormatter` in `markdown_formatter.py`, modules `Table`,
  `Cells` and `Formatter`). It covers the fixed-width table, the per-kind formatters with their
  display rules, the Direct Connect sub-tables and the assembly of the whole document.

Both source files work by appending to lists in loops. So each `collect_*` and `format_*` that
loops, and `format_table`, is a `method` whose loop carries invariants: its own loop, or
`Seqs.MapInOrder`'s where the source's loop only appends one row per record.
`format_direct_connect` and `format_all` are methods without a loop of their own, made of
conditional appends and calls. `collect_direct_connect` is a function over the three responses.
Each method is proved equal to a
specification function (`NormalizeX`, `XText`, `TableText`, `DocumentText`), and the lemmas
state what those functions promise. `format_table` keeps its column widths in an `array` that the
nested loops update in place. The cell rules (name fallback, truncation, `replace`) are pure
functions. Neither class has state worth modelling: `MarkdownFormatter` has none, and
`AWSNetworkMapper` only holds API clients. So the model has no class.

Modules: `Wrappers` (Option), `Text` (Python's `join`, `ljust`, `str(int)`, `replace`),
`Seqs` (slicing, the append loop), `Records` (the normalised records), `Table`, `Cells`,
`Formatter`, `Collector`.

Modelling choices:

* Strings are `seq<char>`, and `→` is the one character U+2192, so lengths count code points as
  Python's `len` does.
* Integers that the source only passes to `str()` are held as their decimal text: ASNs, VLAN
  numbers and customer ASNs. Two exceptions are derived in the model. A subnet's address count is
  a `nat` that `NormalizeSubnet` turns into text. A port is `Port = PortNum(int) | PortAll`, where
  `PortAll` stands for the string `'All'` the source uses when the key is absent.
* A missing list (`x.get('Tags', [])`) is the empty sequence. A missing `Options` or `VpcInfo`
  dictionary is a record whose fields are all `None`.
* The security-group limit is an `int` sliced as Python slices, so a negative limit counts from
  the end. The default is 20.
* In the source, `str()` of the subnet address count happens in `format_subnets`
  (markdown_formatter.py:69). The model applies it when the record is built. The rendered cell is
  the same.
* The region and date fragments of the report header end in two spaces, the Markdown hard-break
  convention, and the account fragment ends the line. The fragments are joined with the empty
  string and no newline comes before the account's, so region, date and account stand on one
  line. The model follows the code here and `Formatter.HeaderMetadataOneLine` states it.

## Model

| member | source | states |
|---|---|---|
| Text.JoinLength | markdown_formatter.py:27 | a `sep.join` is as long as its parts plus one separator between each pair |
| Text.JoinStartsWithFirst | markdown_formatter.py:341 | a joined text begins with its first part |
| Text.JoinEmptyConcat | markdown_formatter.py:408 | `"".join(a + b)` is `"".join(a)` followed by `"".join(b)` |
| Text.Lengths | markdown_formatter.py:27 | the length of each part, position by position |
| Text.JoinEmptySnoc | markdown_formatter.py:408 | `"".join(parts + [x])` is `"".join(parts)` followed by `x` |
| Text.Repeat | markdown_formatter.py:31 | `c * n` is `n` copies of `c` |
| Text.LJust | markdown_formatter.py:27 | `ljust(w)` keeps the text as a prefix, pads with spaces up to `w` and never truncates |
| Text.NatToString | markdown_formatter.py:87 | `str(n)` is a non-empty string of decimal digits without a leading zero |
| Text.NatToStringRoundTrip | markdown_formatter.py:87 | reading back the decimal text of `n` gives `n` |
| Text.IntToString | aws_network_mapper.py:224 | `str(i)` is non-empty, begins with `-` exactly for a negative `i`, and the rest is decimal digits that read back as the magnitude of `i` |
| Text.RemoveAll | markdown_formatter.py:241 | `replace(pat, '')` never makes a text longer |
| Text.RemoveAllNoOccurrence | markdown_formatter.py:241 | a text without an occurrence of the pattern is unchanged |
| Text.RemoveAllFirstOccurrence | markdown_formatter.py:241 | the first occurrence is removed wherever it stands and the scan resumes right after it |
| Text.RemoveAllKeep | markdown_formatter.py:241 | without an occurrence at the front, the first character is kept and the scan moves on by one |
| Text.OccursAtTail | markdown_formatter.py:241 | an occurrence in the tail of a text is an occurrence in the text one place further on |
| Seqs.Prefix | markdown_formatter.py:175 | Python `s[:n]` for any integer `n`: its length for non-negative and negative `n`, and it is a prefix of `s` |
| Seqs.MapSeq | markdown_formatter.py:46-53 | one image per element, position by position |
| Seqs.MapSeqSnoc | markdown_formatter.py:46-53 | mapping one more element appends its image |
| Seqs.MapSeqStep | markdown_formatter.py:46-53 | one more step of the append loop adds the next element's image |
| Seqs.MapSeqAppendStep | aws_network_mapper.py:313-335 | a step of an inner append loop that continues after earlier images adds the next image |
| Seqs.MapSeqAppendAll | aws_network_mapper.py:313-335 | the inner append loop starts after the earlier images and ends with the whole batch mapped |
| Seqs.MapInOrder | markdown_formatter.py:44-53 | the `rows.append` loop yields one image per input element, in input order |
| Table.FormatTable | markdown_formatter.py:12-39 | the widths held in the array and the appended lines give exactly `TableText`; no rows gives the placeholder, whatever the headers |
| Table.ColumnWidths | markdown_formatter.py:18-21 | the array of widths, set from the headers and raised cell by cell, ends up holding `Widths` |
| Table.TableLines | markdown_formatter.py:24-37 | the header line, the separator and one appended line per row give `Lines` |
| Table.Widths | markdown_formatter.py:18-21 | one width per header |
| Table.Padded | markdown_formatter.py:27 | one padded cell per cell |
| Table.DashRuns | markdown_formatter.py:31 | one dash run per column |
| Table.ColumnWidthStep | markdown_formatter.py:19-21 | one more row raises a column's width to that row's cell length when it is longer, and a row without that cell leaves it unchanged |
| Table.ColumnWidthIsMax | markdown_formatter.py:18-21 | a column's width is no less than its header and each of its cells, and equals one of them |
| Table.Lines | markdown_formatter.py:24-37 | a table with rows has as many lines as rows plus two |
| Table.JoinNewlines | markdown_formatter.py:39 | `"\n".join(lines) + "\n"` is the lines in order, each ending in a newline |
| Table.TableStructure | markdown_formatter.py:14-39 | no rows gives the placeholder; otherwise the header line, the separator and one line per row in input order, each ending in a newline |
| Table.PaddedLengths | markdown_formatter.py:27 | cells that fit their widths are padded to exactly those widths |
| Table.RowLineLength | markdown_formatter.py:27 | a header or data line is as long as the widths together plus 3 per column boundary plus 4 |
| Table.SeparatorLineLength | markdown_formatter.py:31 | the separator is made of dash runs as long as the widths, and is as long as every other line |
| Table.WidthsCover | markdown_formatter.py:18-21 | every header and every cell of a full row fits its column's width |
| Table.LinesAllLength | markdown_formatter.py:24-37 | the lines of a table all have length `n` when its header, separator and row lines do |
| Table.LinesUniform | markdown_formatter.py:18-37 | every header and data cell is padded to exactly its column's width, and all lines of a table have the same length |
| Table.TableTextEnding | markdown_formatter.py:14-39 | every table text ends in a newline, after a closing bar for a table and after `_` for the placeholder |
| Cells.DisplayName | markdown_formatter.py:49 | `name or '(unnamed)'` is never blank and shows a real name unchanged |
| Cells.YesNo | markdown_formatter.py:52 | the flag is shown as `Yes` exactly when it holds and as `No` exactly when it does not |
| Cells.SubnetSummary | markdown_formatter.py:85-87 | `Main route table` for a main table without subnets; otherwise up to three subnets joined by `, `, and `, (+n more)` with `n = len - 3` beyond three |
| Cells.ListSummary | markdown_formatter.py:89-91 | the empty text when there are no entries, otherwise the first three joined by `; `, and ` (+n more)` beyond three |
| Cells.NaclSubnetText | markdown_formatter.py:200-201 | `1 subnet` for one subnet, `<n> subnets` for any other count |
| Cells.ServiceDisplay | markdown_formatter.py:241 | the shortened service name is never longer than the original |
| Cells.ServiceDisplayRemovesEachOccurrence | markdown_formatter.py:241 | `com.amazonaws.` goes wherever it occurs, not only at the front |
| Cells.ServiceDisplayUnchanged | markdown_formatter.py:241 | a service name without the namespace is shown unchanged |
| Formatter.SectionLayout | markdown_formatter.py:41-55 | a one-row-per-record section has one line per record in input order plus two, every line the same length |
| Formatter.VpcRow | markdown_formatter.py:47-53 | five cells; the name is never blank and a real name is shown; `Default` is `Yes` exactly for the default VPC; every other cell is its record field, in header order |
| Formatter.FormatVpcs | markdown_formatter.py:41-55 | the section is the table of the VPC rows, and the placeholder when there are none |
| Formatter.SubnetRow | markdown_formatter.py:63-71 | seven cells; the name is never blank and a real name is shown; every other cell is its record field, in header order |
| Formatter.FormatSubnets | markdown_formatter.py:57-73 | the section is the table of the subnet rows, and the placeholder when there are none |
| Formatter.RouteTableName | markdown_formatter.py:81-83 | the name or `(unnamed)` for a non-main table, and that followed by exactly ` (Main)` for the main table; never empty, and ends in ` (Main)` exactly for the main table |
| Formatter.RouteTableRow | markdown_formatter.py:93-99 | five cells: the route table name, the subnet summary and the key-route summary (`Local only` when there are none); every other cell is its record field, in header order |
| Formatter.FormatRouteTables | markdown_formatter.py:75-101 | the section is the table of the route table rows, and the placeholder when there are none |
| Formatter.InternetGatewayRow | markdown_formatter.py:109-114 | four cells; the name is never blank and a real name is shown; every other cell is its record field, in header order |
| Formatter.FormatInternetGateways | markdown_formatter.py:103-116 | the section is the table of the internet gateway rows, and the placeholder when there are none |
| Formatter.NatGatewayRow | markdown_formatter.py:124-132 | seven cells; the name is never blank and a real name is shown; every other cell is its record field, in header order |
| Formatter.FormatNatGateways | markdown_formatter.py:118-134 | the section is the table of the NAT gateway rows, and the placeholder when there are none |
| Formatter.TransitGatewayRow | markdown_formatter.py:142-148 | five cells; the name is never blank and a real name is shown; every other cell is its record field, in header order |
| Formatter.FormatTransitGateways | markdown_formatter.py:136-150 | the section is the table of the transit gateway rows, and the placeholder when there are none |
| Formatter.VpnGatewayRow | markdown_formatter.py:158-165 | six cells; the name is never blank and a real name is shown; every other cell is its record field, in header order |
| Formatter.FormatVpnGateways | markdown_formatter.py:152-167 | the section is the table of the VPN gateway rows, and the placeholder when there are none |
| Formatter.VpcPeeringRow | markdown_formatter.py:224-230 | five cells; the name is never blank and a real name is shown; every other cell is its record field, in header order |
| Formatter.FormatVpcPeering | markdown_formatter.py:218-232 | the section is the table of the peering rows, and the placeholder when there are none |
| Formatter.VpcEndpointRow | markdown_formatter.py:241-250 | six cells; the name is never blank; the service cell is the name with the namespace removed; every other cell is its record field, in header order |
| Formatter.FormatVpcEndpoints | markdown_formatter.py:234-252 | the section is the table of the endpoint rows, and the placeholder when there are none |
| Formatter.SecurityGroupRow | markdown_formatter.py:176-185 | four cells, the last the inbound-rule summary (`None` when there are no rules); every other cell is its record field, in header order |
| Formatter.FormatSecurityGroups | markdown_formatter.py:169-192 | the loop over `sgs[:limit]` and the optional note give exactly `SecurityGroupsText` |
| Formatter.SecurityGroupsLimit | markdown_formatter.py:175-190 | with a non-negative limit, the table shows the first `limit` groups in order; the text ends with the note, naming the true total and the limit, exactly when there are more groups than the limit |
| Formatter.NoteAppended | markdown_formatter.py:189-190 | when table and note differ in their second-last character, the text ends with the note exactly when the note was appended |
| Formatter.TableWithNote | markdown_formatter.py:281-286 | a table of records with an optional note ending in `.` never ends like a placeholder, and ends with the note exactly when the note was appended |
| Formatter.NetworkAclRow | markdown_formatter.py:199-211 | five cells: the subnet count text, and the rules cell `Allow all inbound/outbound` exactly for the default ACL, `Custom rules` otherwise; every other cell is its record field, in header order |
| Formatter.FormatNetworkAcls | markdown_formatter.py:194-216 | the table followed by the fixed footnote, and the footnote after the placeholder too when there are no ACLs |
| Formatter.Ec2Row | markdown_formatter.py:264-276 | nine cells; the name is never blank; `NAT Instance` is `Yes` exactly for a NAT instance; every other cell is its record field, in header order |
| Formatter.VisibleRows | markdown_formatter.py:259-276 | the loop skips terminated and terminating instances and appends one row for each other instance, in order |
| Formatter.FormatEc2Instances | markdown_formatter.py:254-288 | the loop that skips terminated instances, the special placeholder and the NAT note give exactly `Ec2InstancesText` |
| Formatter.VisibleMembers | markdown_formatter.py:259-262 | the rows are of exactly the instances that are neither `terminated` nor `terminating` |
| Formatter.VisibleConcat | markdown_formatter.py:259-262 | the filter keeps input order |
| Formatter.VisibleAllLive | markdown_formatter.py:259-262 | without terminated instances, every instance is shown, in order |
| Formatter.NatCountBound | markdown_formatter.py:284 | the NAT count never exceeds the number of instances shown |
| Formatter.Ec2InstancesSection | markdown_formatter.py:278-286 | the special placeholder appears exactly when every instance is terminated or terminating; otherwise the NAT note appears exactly when the number of live NAT instances is nonzero, and it states that number |
| Formatter.DxConnectionRow | markdown_formatter.py:300-307 | six cells; the name is `(unnamed)` only when the key is absent, and the device is `N/A` when absent and its value otherwise; every other cell is its record field, in header order |
| Formatter.DxVirtualInterfaceRow | markdown_formatter.py:316-324 | seven cells; the name is `(unnamed)` only when the key is absent; BGP status and customer ASN are `N/A` when absent and their values otherwise; every other cell is its record field, in header order |
| Formatter.DxGatewayRow | markdown_formatter.py:333-338 | four cells; the name is `(unnamed)` only when the key is absent; every other cell is its record field, in header order |
| Formatter.DxPart | markdown_formatter.py:295-296 | a sub-collection with entries adds two fragments, its heading first and its table second; an empty one adds none |
| Formatter.FormatDxConnections | markdown_formatter.py:297-308 | the connections table equals `DxConnectionsTable` |
| Formatter.FormatDxVirtualInterfaces | markdown_formatter.py:313-325 | the virtual-interface table equals `DxVirtualInterfacesTable` |
| Formatter.FormatDxGateways | markdown_formatter.py:330-339 | the gateway table equals `DxGatewaysTable` |
| Formatter.FormatDirectConnect | markdown_formatter.py:290-341 | the three conditional appends and the join give exactly `DirectConnectText` |
| Formatter.PartsAlternate | markdown_formatter.py:292-339 | three optional heading-and-table pairs alternate: the `k`-th heading kept stands at `2k` and the `k`-th table kept right after it |
| Formatter.DirectConnectHeadings | markdown_formatter.py:294-339 | one heading and one table per non-empty sub-collection, in the order connections, virtual interfaces, gateways, each table directly after its heading |
| Formatter.DirectConnectPairs | markdown_formatter.py:294-339 | each Direct Connect heading is followed by the table of its own sub-collection: connections, virtual interfaces and gateways each by theirs |
| Formatter.DirectConnectPlaceholder | markdown_formatter.py:341 | the section is `_No Direct Connect resources found_` exactly when all three sub-collections are empty |
| Formatter.DirectConnectPart | markdown_formatter.py:404-406 | the document has a Direct Connect section exactly when a sub-collection has entries, and it is `DirectConnectText` |
| Formatter.FormatDirectConnectPart | markdown_formatter.py:404-406 | the check on the three sub-collections and the formatting it guards give `DirectConnectPart` |
| Formatter.SectionTexts | markdown_formatter.py:355-401 | one section text per fixed heading |
| Formatter.Interleave | markdown_formatter.py:355-401 | each heading directly followed by its section, in order |
| Formatter.FormatSections | markdown_formatter.py:355-401 | the twelve per-kind formatters, called in the document's order, give `SectionTexts` |
| Formatter.AppendSections | markdown_formatter.py:355-401 | the appends add each fixed heading followed by its section text |
| Formatter.FormatAll | markdown_formatter.py:343-408 | the appended fragments, joined with nothing, give exactly `DocumentText` |
| Formatter.AssembleDocument | markdown_formatter.py:345-408 | the appends of the header, each heading with its section and the optional last pair, joined with nothing, give the joined `Assemble` |
| Formatter.HeaderJoin | markdown_formatter.py:349-353 | the five header fragments joined with nothing are the title, the three metadata fragments and the rule, one after the other |
| Formatter.HeaderMetadataOneLine | markdown_formatter.py:349-353 | with newline-free values the header is the title line, then region, date and account on a single line, then the rule; the two-space hard breaks are not followed by newlines |
| Formatter.AssembleLayout | markdown_formatter.py:345-408 | any assembled document starts with the header text, has the twelve headed sections at fixed positions, and has the Direct Connect pair last exactly when one is given |
| Formatter.AssembleShape | markdown_formatter.py:355-406 | after a five-fragment header, the headings and sections sit at fixed positions and the Direct Connect pair comes last when given |
| Formatter.AssembleStartsWithHeader | markdown_formatter.py:345-408 | a joined document begins with its joined header |
| Formatter.DocumentLayout | markdown_formatter.py:343-408 | the document starts with the header; the twelve sections follow their headings in the fixed order VPCs … VPC Endpoints; the Direct Connect heading and section come last, exactly when a sub-collection has entries |
| Collector.TagValueNoMatch | aws_network_mapper.py:27-34 | with no tag carrying the key, or no tags at all, the value is `''` |
| Collector.TagValueAt | aws_network_mapper.py:27-34 | the first tag with the key decides, whatever follows it: its value, or `''` when it has none |
| Collector.GetTagValue | aws_network_mapper.py:27-34 | the search loop with early return computes `TagValue` |
| Collector.CollectVpcs | aws_network_mapper.py:36-51 | one normalised VPC per raw VPC, in order |
| Collector.NormalizeSubnet | aws_network_mapper.py:59-71 | the type is always `Private`; the address count is the decimal text of the raw count and reads back to it |
| Collector.CollectSubnets | aws_network_mapper.py:53-73 | one normalised subnet per raw subnet, in order |
| Collector.SubnetIds | aws_network_mapper.py:84 | no more subnet ids than associations |
| Collector.SubnetIdsMembers | aws_network_mapper.py:84 | an id is listed exactly when some association carries it; with every association carrying one, there is one id per association |
| Collector.SubnetIdsConcat | aws_network_mapper.py:84 | the subnet ids keep the associations' order |
| Collector.IsMain | aws_network_mapper.py:85 | a table is main exactly when some association has `Main` true; a missing `Main` counts as false |
| Collector.FirstPresent | aws_network_mapper.py:93-106 | the first present candidate, or the default when none is present |
| Collector.RouteTargetPriority | aws_network_mapper.py:93-106 | the target is the first present of GatewayId, NatGatewayId, TransitGatewayId, NetworkInterfaceId, VpcPeeringConnectionId, InstanceId, and `local` otherwise |
| Collector.RouteDest | aws_network_mapper.py:91 | the destination is the CIDR block, else the prefix list, else `N/A` |
| Collector.KeyRouteOf | aws_network_mapper.py:108-112 | a blackhole route (the state defaulting to `active`) is always kept with ` (blackhole)`; any other route is dropped exactly when it has a CIDR destination and a `local` target |
| Collector.KeyRoutes | aws_network_mapper.py:89-112 | no more key routes than routes |
| Collector.KeyRoutesConcat | aws_network_mapper.py:90-112 | kept routes stay in input order |
| Collector.BlackholeKept | aws_network_mapper.py:109-110 | a blackhole route yields `dest → target (blackhole)` whatever its destination and target |
| Collector.CollectKeyRoutes | aws_network_mapper.py:88-112 | the append loop with the target chain computes `KeyRoutes` |
| Collector.CollectRouteTables | aws_network_mapper.py:75-123 | one normalised route table per raw table, in order |
| Collector.NormalizeInternetGateway | aws_network_mapper.py:132-141 | only the first attachment counts; without one the gateway is `Not attached` and `detached` |
| Collector.CollectInternetGateways | aws_network_mapper.py:125-143 | one normalised gateway per raw gateway, in order |
| Collector.NormalizeNatGateway | aws_network_mapper.py:152-163 | both addresses come from the first address entry, each `N/A` when absent; both are `N/A` without an entry |
| Collector.CollectNatGateways | aws_network_mapper.py:145-166 | one normalised NAT gateway per raw gateway, in order |
| Collector.NormalizeTransitGateway | aws_network_mapper.py:175-183 | ASN and default route table are taken from the options, `N/A` when absent |
| Collector.CollectTransitGateways | aws_network_mapper.py:168-185 | one normalised transit gateway per raw gateway, in order |
| Collector.NormalizeVpnGateway | aws_network_mapper.py:194-204 | the attached VPC is the first attachment's, `Not attached` without one; a missing ASN is `N/A` |
| Collector.CollectVpnGateways | aws_network_mapper.py:187-206 | one normalised VPN gateway per raw gateway, in order |
| Collector.PortOf | aws_network_mapper.py:222-223 | a port is `All` exactly when its key is absent |
| Collector.ProtocolTextAll | aws_network_mapper.py:218-220 | the protocol is `All` exactly when it is absent, `-1` or `All`, and otherwise shown as given |
| Collector.SourcesLayout | aws_network_mapper.py:227-231 | the CIDR sources (`''` when absent) come first, then the group sources (`self` when absent), each in the rule's order |
| Collector.OpenRuleSummary | aws_network_mapper.py:218-234 | a rule with no protocol, ports or sources reads `All/All from All` |
| Collector.FirstRules | aws_network_mapper.py:217 | `permissions[:5]`: a prefix of at most five rules |
| Collector.InboundRules | aws_network_mapper.py:216-234 | at most five summaries, one per rule among the first five, in order |
| Collector.CollectSources | aws_network_mapper.py:227-231 | the two append loops compute `Sources` |
| Collector.SummarizeRule | aws_network_mapper.py:218-234 | protocol, port range and source text assembled give `RuleSummary` |
| Collector.SummarizeInbound | aws_network_mapper.py:216-234 | the append loop over the first five rules computes `InboundRules` |
| Collector.NormalizeSecurityGroup | aws_network_mapper.py:236-241 | the VPC is `EC2-Classic` when absent, and there are at most five inbound summaries |
| Collector.CollectSecurityGroups | aws_network_mapper.py:208-243 | one normalised security group per raw group, in order |
| Collector.NormalizeNetworkAcl | aws_network_mapper.py:252-265 | the type is `Default` exactly when `IsDefault` holds, a missing flag meaning `Custom`; one subnet id per association, in order |
| Collector.CollectNetworkAcls | aws_network_mapper.py:245-267 | one normalised ACL per raw ACL, in order |
| Collector.PeerText | aws_network_mapper.py:282-283 | the VPC id or `N/A`, then ` (`, then the CIDR or `N/A`, then `)`; `vpc (N/A)`, `N/A (cidr)` and `N/A (N/A)` when one or both are absent |
| Collector.CollectVpcPeering | aws_network_mapper.py:269-287 | one normalised peering connection per raw connection, in order |
| Collector.CollectVpcEndpoints | aws_network_mapper.py:289-305 | one normalised endpoint per raw endpoint, in order |
| Collector.FlattenConcat | aws_network_mapper.py:313-314 | flattening keeps reservation order and each reservation's instance order |
| Collector.FlattenStep | aws_network_mapper.py:313-314 | one more reservation adds its instances after those already seen |
| Collector.InstanceCounts | aws_network_mapper.py:313-314 | one count per reservation |
| Collector.FlattenLength | aws_network_mapper.py:313-314 | one instance record for every instance of every reservation |
| Collector.NormalizeInstance | aws_network_mapper.py:316-339 | NAT exactly when the source/destination check is reported off, a missing check counting as on; the primary interface is the first one's, `N/A` without one; one security-group id per entry of `SecurityGroups`, in order |
| Collector.CollectEc2Instances | aws_network_mapper.py:307-341 | the nested loop yields one normalised record per instance of the flattened reservations, in order |
| Collector.UntaggedInstanceRow | aws_network_mapper.py:27-34 | an instance without a `Name` tag and without a disabled check is shown as `(unnamed)` and not NAT |
| Collector.CollectDirectConnect | aws_network_mapper.py:343-364 | any failed call gives three empty lists; otherwise the three responses as returned |
| Collector.DirectConnectFailureHidden | aws_network_mapper.py:362-364 | after a failed Direct Connect call the report has no Direct Connect section |

Proof helpers without rows, each a step of a proof above rather than behaviour of the program:
`Text.Join5`, `Text.Regroup`, `Text.Framed`, `Seqs.MapSeqAll`, `Seqs.PrefixAll`,
`Table.UniformLines`, `Formatter.SuffixSecondLast`, `Formatter.NoteEnding`,
`Formatter.NatNoteEnding`, `Formatter.NoNewlineConcat`, `Formatter.PresentPaired`,
`Formatter.PartsPaired`, `Formatter.DxHeadingsDistinct`, `Formatter.VisibleStep`,
`Formatter.Ec2RowsFit`, `Formatter.Ec2TextWithTable`.

## Left out

- Creating the boto3 session and its clients, and every `describe_*` call: these are a foreign cloud API, so the responses are parameters.
- The STS account lookup and `datetime.now()` in `collect_all`: the metadata record is an input. `collect_all` only bundles the collectors' results with that metadata, so it is not modelled as its own member.
- Progress `print`s, the command line, writing the output file and `sys.exit` in `main`: these are I/O.
- The exception handling of `collect_direct_connect`: a failed call is a `None` response, and any failure yields three empty lists. Which exception occurred and the warning printed are not modelled.
- Pagination: the source issues one call per kind, and the model takes one response per kind.
- Python's dynamic typing: ports are `Port = PortNum(int) | PortAll`; ASNs, VLANs and customer ASNs are their decimal text; a tag list that is `None` rather than absent is not modelled, since `.get('Tags', [])` gives a list in every response the API returns.
- Text.RemoveAll: `replace` with an empty pattern is not modelled, because the source only removes the non-empty `com.amazonaws.`.
- Table.FormatTable: requires every row to have no more cells than there are headers, as the source raises an index error otherwise; every formatter builds rows with exactly one cell per header.
- Records that the source reads with `[]` are required fields, so a missing one (a `KeyError`) is not modelled.
- Formatter.SecurityGroupsLimit: stated for a non-negative limit only; the negative case is modelled by `Seqs.Prefix` but not restated here.
