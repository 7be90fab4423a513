/** The static distributor directory of the storefront: three regional
    distributors in declaration order, a default one, and the lookup map
    keyed by code (frontend/src/data/distributors.js). */
module DistributorData {
  import opened Seqs

  datatype Distributor = Distributor(code: string, name: string, pickupAddress: string, theme: string)

  /** `distributors`, in declaration order; also exported as `distributorList`. */
  const DistributorList: seq<Distributor> := [
    Distributor("gz", "广州分销商", "广州市天河区花城大道 88 号仓储中心", "#ff5d5d"),
    Distributor("sz", "深圳分销商", "深圳市南山区科技园 66 号配送点", "#ff8b6f"),
    Distributor("hz", "杭州分销商", "杭州市滨江区星光大道 28 号自提站", "#ff7a59")
  ]

  /** The distributor every unresolved location falls back to. */
  const DefaultDistributor: Distributor :=
    Distributor("default", "默认分销商", "请联系客户经理确认提货地址", "#ff5d5d")

  /** `distributors.reduce((acc, d) => { acc[d.code] = d; return acc; }, {})` */
  function BuildMap(list: seq<Distributor>): map<string, Distributor> {
    IndexBy(list, (d: Distributor) => d.code, (d: Distributor) => d)
  }

  /** `distributorMap`, written out; `MapIsReduce` proves it is what the reduce builds. */
  const DistributorMap: map<string, Distributor> :=
    map["gz" := DistributorList[0], "sz" := DistributorList[1], "hz" := DistributorList[2]]

  /** The written-out map is exactly the one the `reduce` over the list produces. */
  lemma MapIsReduce()
    ensures BuildMap(DistributorList) == DistributorMap
  {
    var l := DistributorList;
    var codeOf := (d: Distributor) => d.code;
    var same := (d: Distributor) => d;
    assert l[..0] == [] && l[..1][..0] == [];
    assert l[..2][..1] == l[..1] && l[..|l| - 1] == l[..2];
    assert IndexBy(l[..1], codeOf, same) == map["gz" := l[0]];
    assert IndexBy(l[..2], codeOf, same) == map["gz" := l[0], "sz" := l[1]];
  }

  /** Whatever list the map is built from, each entry sits under its own code
      and is one of the listed distributors. */
  lemma BuildMapKeyedByCode(list: seq<Distributor>)
    ensures forall k :: k in BuildMap(list) ==> BuildMap(list)[k].code == k && BuildMap(list)[k] in list
    ensures forall i :: 0 <= i < |list| ==> list[i].code in BuildMap(list)
  {
  }

  /** The map has exactly the keys gz, sz and hz. */
  lemma MapKeys()
    ensures DistributorMap.Keys == {"gz", "sz", "hz"}
  {
  }

  /** Every entry's code equals its key, and every entry is a listed distributor. */
  lemma MapEntriesKeyedByCode()
    ensures forall k :: k in DistributorMap ==> DistributorMap[k].code == k && DistributorMap[k] in DistributorList
  {
    MapIsReduce();
    BuildMapKeyedByCode(DistributorList);
  }

  /** The default distributor is not one of the directory's entries. */
  lemma DefaultIsNotInMap()
    ensures DefaultDistributor.code !in DistributorMap
    ensures DefaultDistributor !in DistributorList
  {
  }

  /** The list keeps declaration order gz, sz, hz and looks each one up to itself. */
  lemma ListOrder()
    ensures |DistributorList| == 3
    ensures DistributorList[0].code == "gz" && DistributorList[1].code == "sz" && DistributorList[2].code == "hz"
    ensures forall i :: 0 <= i < |DistributorList| ==> DistributorMap[DistributorList[i].code] == DistributorList[i]
  {
  }
}
