/** The display rules `MarkdownFormatter` applies to single cells before they reach a table. */
module Cells {
  import opened Text
  import opened Seqs

  const UNNAMED := "(unnamed)"
  const AWS_NAMESPACE := "com.amazonaws."

  /** `name or '(unnamed)'`: a displayed name is never blank, and a real name is shown as it is. */
  function DisplayName(name: string): (r: string)
    ensures r != ""
    ensures name != "" ==> r == name
    ensures name == "" ==> r == UNNAMED
  {
    if name == "" then UNNAMED else name
  }

  function YesNo(b: bool): (r: string)
    ensures r == "Yes" <==> b
    ensures r == "No" <==> !b
  {
    if b then "Yes" else "No"
  }

  /** `(+n more)`, where `n` is the number of entries left out. */
  function MoreSuffix(omitted: nat): string {
    "(+" + NatToString(omitted) + " more)"
  }

  /**
   * A route table's subnet cell: `'Main route table'` for a main table without subnets,
   * otherwise the first three subnets joined by `", "`; more than three add `", (+n more)"`.
   */
  function SubnetSummary(isMain: bool, subnetIds: seq<string>): (r: string)
    ensures subnetIds == [] && isMain ==> r == "Main route table"
    ensures subnetIds == [] && !isMain ==> r == ""
    ensures 0 < |subnetIds| <= 3 ==> r == Join(subnetIds, ", ")
    ensures |subnetIds| > 3 ==> r == Join(subnetIds[..3], ", ") + ", " + MoreSuffix(|subnetIds| - 3)
  {
    assert |subnetIds| <= 3 ==> subnetIds[..|subnetIds|] == subnetIds;
    var info := if isMain && subnetIds == [] then "Main route table" else Join(Prefix(subnetIds, 3), ", ");
    if |subnetIds| > 3 then info + ", " + MoreSuffix(|subnetIds| - 3) else info
  }

  /**
   * A `"; "`-separated list cell (key routes, inbound rules): `emptyText` when there are no
   * entries, otherwise the first three; more than three add `" (+n more)"`.
   */
  function ListSummary(items: seq<string>, emptyText: string): (r: string)
    ensures items == [] ==> r == emptyText
    ensures 0 < |items| <= 3 ==> r == Join(items, "; ")
    ensures |items| > 3 ==> r == Join(items[..3], "; ") + " " + MoreSuffix(|items| - 3)
  {
    assert |items| <= 3 ==> items[..|items|] == items;
    var info := if items != [] then Join(Prefix(items, 3), "; ") else emptyText;
    if |items| > 3 then info + " " + MoreSuffix(|items| - 3) else info
  }

  function KeyRoutesSummary(keyRoutes: seq<string>): string {
    ListSummary(keyRoutes, "Local only")
  }

  function InboundSummary(inboundRules: seq<string>): string {
    ListSummary(inboundRules, "None")
  }

  /** The subnet count of a network ACL: `"1 subnet"` for one, `"<n> subnets"` for any other count. */
  function NaclSubnetText(count: nat): (r: string)
    ensures count == 1 ==> r == "1 subnet"
    ensures count != 1 ==> r == NatToString(count) + " subnets"
  {
    NatToString(count) + " subnet" + (if count != 1 then "s" else "")
  }

  /** `service_name.replace('com.amazonaws.', '')`: the namespace is removed wherever it occurs. */
  function ServiceDisplay(serviceName: string): (r: string)
    ensures |r| <= |serviceName|
  {
    RemoveAll(serviceName, AWS_NAMESPACE)
  }

  /**
   * The namespace goes wherever the scan meets it, not only at the front: a service name
   * `a + "com.amazonaws." + b` in which no occurrence starts inside `a` is displayed as `a`
   * followed by the display of `b`; and a name with no occurrence is displayed unchanged.
   */
  lemma ServiceDisplayRemovesEachOccurrence(a: string, b: string)
    requires forall k :: 0 <= k < |a| ==> !OccursAt(a + AWS_NAMESPACE + b, AWS_NAMESPACE, k)
    ensures ServiceDisplay(a + AWS_NAMESPACE + b) == a + ServiceDisplay(b)
    ensures ServiceDisplay(AWS_NAMESPACE + b) == ServiceDisplay(b)
  {
    RemoveAllFirstOccurrence(a, AWS_NAMESPACE, b);
    RemoveAllFirstOccurrence("", AWS_NAMESPACE, b);
    assert "" + AWS_NAMESPACE + b == AWS_NAMESPACE + b;
  }

  lemma ServiceDisplayUnchanged(serviceName: string)
    requires forall k :: 0 <= k < |serviceName| ==> !OccursAt(serviceName, AWS_NAMESPACE, k)
    ensures ServiceDisplay(serviceName) == serviceName
  {
    RemoveAllNoOccurrence(serviceName, AWS_NAMESPACE);
  }
}
