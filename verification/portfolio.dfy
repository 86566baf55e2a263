/** The real-world-asset portfolio: four hard-coded assets, a summary of
    them, a type filter and two colour lookups. */
module Portfolio {
  import Seqs

  /** An asset row. `value` is in rupees; `priceCents` is the unit price in
      hundredths of a rupee, so 18.45 is 1845. */
  datatype Asset = Asset(
    id: string, assetType: string, name: string, symbol: string,
    tokens: int, value: int, priceCents: int,
    location: string, status: string, riskLevel: string)

  function Assets(): seq<Asset> {
    [Asset("carbon-amazon", "carbon", "Amazon Rainforest Conservation", "CCX-AMZ", 2500, 46125, 1845,
           "Amazon Basin, Brazil", "Active", "Low"),
     Asset("carbon-mangrove", "carbon", "Mangrove Restoration Project", "REDD-MNG", 1800, 40950, 2275,
           "Sundarbans, Bangladesh", "Active", "Medium"),
     Asset("real-estate", "realestate", "Mumbai Commercial Complex", "RE-MUM", 50, 125000, 250000,
           "Bandra-Kurla Complex, Mumbai", "Operational", "Medium"),
     Asset("gold", "commodity", "Physical Gold Reserves", "GOLD-PHY", 25, 187500, 750000,
           "Secured Vault, Singapore", "Stored", "Low")]
  }

  /** `portfolioSummary`. */
  const SummaryTotalValue: int := 399575
  const SummaryTotalTokens: int := 4375
  const DiversificationCarbon: int := 65
  const DiversificationRealEstate: int := 20
  const DiversificationCommodity: int := 15

  /** A tab of the type selector with the count printed on it. */
  datatype AssetTypeTab = AssetTypeTab(id: string, caption: string, count: int)

  function AssetTypes(): seq<AssetTypeTab> {
    [AssetTypeTab("all", "All Assets", 4),
     AssetTypeTab("carbon", "Carbon Credits", 2),
     AssetTypeTab("realestate", "Real Estate", 1),
     AssetTypeTab("commodity", "Commodities", 1)]
  }

  /** The selection the view starts with. */
  const InitialSelection: string := "carbon"

  /** `rwaAssets.filter(asset => asset.type === selected)`. */
  function OfType(assets: seq<Asset>, selected: string): (r: seq<Asset>)
    ensures Seqs.IsSubsequence(r, assets)
    ensures forall a :: a in r <==> a in assets && a.assetType == selected
    ensures forall a :: Seqs.Count(r, a) == if a.assetType == selected then Seqs.Count(assets, a) else 0
  {
    if assets == [] then []
    else if assets[0].assetType == selected then
      var rest := OfType(assets[1..], selected);
      assert ([assets[0]] + rest)[1..] == rest;
      [assets[0]] + rest
    else OfType(assets[1..], selected)
  }

  /** `filteredAssets`: everything for "all", else the assets of exactly
      that type, in their original order. */
  function FilterAssets(assets: seq<Asset>, selected: string): (r: seq<Asset>)
    ensures selected == "all" ==> r == assets
    ensures selected != "all" ==> Seqs.IsSubsequence(r, assets)
    ensures selected != "all" ==> forall a :: a in r <==> a in assets && a.assetType == selected
    ensures selected != "all" ==> forall a :: Seqs.Count(r, a) == if a.assetType == selected then Seqs.Count(assets, a) else 0
  {
    if selected == "all" then assets else OfType(assets, selected)
  }

  /** The assets' types as listed: two carbon projects, one real-estate
      holding, one commodity. */
  predicate ListedTypes(assets: seq<Asset>) {
    |assets| == 4 &&
    assets[0].assetType == "carbon" && assets[1].assetType == "carbon" &&
    assets[2].assetType == "realestate" && assets[3].assetType == "commodity"
  }

  lemma AssetsHaveListedTypes(assets: seq<Asset>)
    requires assets == Assets()
    ensures ListedTypes(assets)
  {
  }

  /** What each type tab lists, for assets typed as listed. */
  lemma {:induction false} FilterByListedType(assets: seq<Asset>)
    requires ListedTypes(assets)
    ensures FilterAssets(assets, "carbon") == assets[..2]
    ensures FilterAssets(assets, "realestate") == [assets[2]]
    ensures FilterAssets(assets, "commodity") == [assets[3]]
  {
    var a0, a1, a2, a3 := assets[0], assets[1], assets[2], assets[3];
    assert assets[1..] == [a1, a2, a3] && assets[1..][1..] == [a2, a3];
    assert assets[1..][1..][1..] == [a3] && assets[1..][1..][1..][1..] == [];
    assert OfType([a3], "carbon") == [] && OfType([a3], "realestate") == [] && OfType([a3], "commodity") == [a3];
    assert OfType([a2, a3], "carbon") == [] && OfType([a2, a3], "realestate") == [a2] && OfType([a2, a3], "commodity") == [a3];
    assert OfType([a1, a2, a3], "carbon") == [a1];
    assert OfType([a1, a2, a3], "realestate") == [a2];
    assert OfType([a1, a2, a3], "commodity") == [a3];
  }

  /** The count printed on every type tab is the number of assets that
      choosing the tab lists: 4, 2, 1 and 1. */
  lemma TabCountsMatchFilter(assets: seq<Asset>)
    requires ListedTypes(assets)
    ensures forall i :: 0 <= i < |AssetTypes()| ==>
      AssetTypes()[i].count == |FilterAssets(assets, AssetTypes()[i].id)|
  {
    FilterByListedType(assets);
  }

  /** With the initial selection the two carbon projects are listed. */
  lemma InitialSelectionListsCarbon(assets: seq<Asset>)
    requires assets == Assets()
    ensures FilterAssets(assets, InitialSelection) == assets[..2]
    ensures assets[0].id == "carbon-amazon" && assets[1].id == "carbon-mangrove"
  {
    FilterByListedType(assets);
  }

  const Slate: string := "bg-slate-100 text-slate-800"

  /** `getRiskColor`. */
  function RiskColor(risk: string): (r: string)
    ensures r != Slate <==> risk in {"Low", "Medium", "High"}
  {
    match risk
    case "Low" => "bg-emerald-100 text-emerald-800"
    case "Medium" => "bg-orange-100 text-orange-800"
    case "High" => "bg-red-100 text-red-800"
    case _ => Slate
  }

  /** `getStatusColor`. */
  function StatusColor(status: string): (r: string)
    ensures r != Slate <==> status in {"Active", "Operational", "Stored"}
  {
    match status
    case "Active" => "bg-emerald-100 text-emerald-800"
    case "Operational" => "bg-blue-100 text-blue-800"
    case "Stored" => "bg-purple-100 text-purple-800"
    case _ => Slate
  }

  /** The three known levels get three different classes, none of them the
      default; likewise the three known statuses. */
  lemma ColorsDistinct(a: string, b: string)
    ensures a in {"Low", "Medium", "High"} && b in {"Low", "Medium", "High"} && a != b ==> RiskColor(a) != RiskColor(b)
    ensures a in {"Low", "Medium", "High"} ==> RiskColor(a) != Slate
    ensures a in {"Active", "Operational", "Stored"} && b in {"Active", "Operational", "Stored"} && a != b ==>
      StatusColor(a) != StatusColor(b)
    ensures a in {"Active", "Operational", "Stored"} ==> StatusColor(a) != Slate
  {
  }

  /** Every listed asset gets a non-default risk and status colour. */
  lemma AssetsHaveKnownColors(assets: seq<Asset>)
    requires assets == Assets()
    ensures forall a :: a in assets ==> RiskColor(a.riskLevel) != Slate && StatusColor(a.status) != Slate
  {
    forall a | a in assets ensures RiskColor(a.riskLevel) != Slate && StatusColor(a.status) != Slate {
      ColorsDistinct(a.riskLevel, a.riskLevel);
      ColorsDistinct(a.status, a.status);
    }
  }

  function SumTokens(assets: seq<Asset>): int {
    if assets == [] then 0 else assets[0].tokens + SumTokens(assets[1..])
  }

  function SumValues(assets: seq<Asset>): int {
    if assets == [] then 0 else assets[0].value + SumValues(assets[1..])
  }

  /** The summary card agrees with the rows: 4375 tokens worth 399575. */
  lemma SummaryMatchesAssets(assets: seq<Asset>)
    requires assets == Assets()
    ensures SumTokens(assets) == SummaryTotalTokens
    ensures SumValues(assets) == SummaryTotalValue
  {
    assert assets[1..][1..][1..][1..] == [];
  }

  /** Each row's value is its token count times its unit price. */
  lemma ValuesAreTokensTimesPrice(assets: seq<Asset>)
    requires assets == Assets()
    ensures forall i :: 0 <= i < |assets| ==> assets[i].value * 100 == assets[i].tokens * assets[i].priceCents
  {
  }

  /** The diversification shares add up to 100 percent. */
  lemma DiversificationIsComplete()
    ensures DiversificationCarbon + DiversificationRealEstate + DiversificationCommodity == 100
  {
  }

  /** The diversification shares are not the shares of value: carbon holds
      87075 of 399575 rupees, under 22 percent, against the 65 shown. */
  lemma DiversificationIsNotValueShare(assets: seq<Asset>)
    requires assets == Assets()
    ensures SumValues(FilterAssets(assets, "carbon")) == 87075
    ensures SumValues(FilterAssets(assets, "carbon")) * 100 < 22 * SummaryTotalValue
    ensures DiversificationCarbon * SummaryTotalValue != SumValues(FilterAssets(assets, "carbon")) * 100
  {
    AssetsHaveListedTypes(assets);
    CarbonValue(assets);
    SummaryMatchesAssets(assets);
  }

  /** The carbon tab's value is that of the first two rows. */
  lemma CarbonValue(assets: seq<Asset>)
    requires ListedTypes(assets)
    ensures SumValues(FilterAssets(assets, "carbon")) == assets[0].value + assets[1].value
  {
    FilterByListedType(assets);
    var c := assets[..2];
    assert c[1..] == [assets[1]] && c[1..][1..] == [];
    assert SumValues(c[1..]) == assets[1].value;
  }
}
