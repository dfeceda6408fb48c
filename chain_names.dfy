/**
 * The chain-id to display-name table (`getChainName`). The legacy page keeps a
 * copy of the same 22 entries; both use this module.
 */
module ChainNames {
  import opened Wrappers
  import opened Text

  /** The 22 chains the dashboard knows by name, as (chain id, name) entries. */
  const ChainTable: seq<(int, string)> := [
    (1, "Ethereum"),
    (56, "BSC"),
    (8453, "Base"),
    (42161, "Arbitrum"),
    (43114, "Avalanche"),
    (57073, "Ink"),
    (137, "Polygon"),
    (10, "Optimism"),
    (250, "Fantom"),
    (100, "Gnosis"),
    (42220, "Celo"),
    (1284, "Moonbeam"),
    (1285, "Moonriver"),
    (25, "Cronos"),
    (66, "OKC"),
    (128, "HECO"),
    (1313161554, "Aurora"),
    (592, "Astar"),
    (7700, "Canto"),
    (5000, "Mantle"),
    (999, "HyperEVM"),
    (747474, "Katana")
  ]

  const FallbackPrefix := "Chain "

  /** The name of the first entry of `table` at or after position `i` with chain id `id`, if any. */
  function Lookup(table: seq<(int, string)>, id: int, i: nat): Option<string>
    decreases |table| - i
  {
    if i >= |table| then None
    else if table[i].0 == id then Some(table[i].1)
    else Lookup(table, id, i + 1)
  }

  /** The table's name for a known chain, `Chain <id>` for any other. */
  function ChainName(id: int): string
  {
    match Lookup(ChainTable, id, 0)
    case Some(name) => name
    case None => FallbackPrefix + IntToString(id)
  }

  /** The lookup finds an entry exactly when the table has one with that id. */
  lemma {:induction false} LookupFinds(table: seq<(int, string)>, id: int, i: nat)
    ensures Lookup(table, id, i).Some? ==> exists j :: i <= j < |table| && table[j] == (id, Lookup(table, id, i).value)
    ensures Lookup(table, id, i).None? <==> forall j :: i <= j < |table| ==> table[j].0 != id
    decreases |table| - i
  {
    if i < |table| && table[i].0 != id {
      LookupFinds(table, id, i + 1);
    }
  }

  /** The table's ids are distinct, its names are distinct, non-empty and never look like fallback names. */
  lemma TableWellFormed()
    ensures forall i, j :: 0 <= i < j < |ChainTable| ==> ChainTable[i].0 != ChainTable[j].0
    ensures forall i, j :: 0 <= i < j < |ChainTable| ==> ChainTable[i].1 != ChainTable[j].1
    ensures forall i :: 0 <= i < |ChainTable| ==> ChainTable[i].1 != [] && !StartsWith(ChainTable[i].1, FallbackPrefix)
  {
    TableIdsDistinct();
    TableNamesDistinct();
    TableNamesPlain();
  }

  lemma TableIdsDistinct()
    ensures forall i, j :: 0 <= i < j < |ChainTable| ==> ChainTable[i].0 != ChainTable[j].0
  {
  }

  lemma TableNamesDistinct()
    ensures forall i, j :: 0 <= i < j < |ChainTable| ==> ChainTable[i].1 != ChainTable[j].1
  {
  }

  lemma TableNamesPlain()
    ensures forall i :: 0 <= i < |ChainTable| ==> ChainTable[i].1 != [] && !StartsWith(ChainTable[i].1, FallbackPrefix)
  {
    assert forall i :: 0 <= i < |ChainTable| ==> |ChainTable[i].1| < 2 || ChainTable[i].1[1] != 'h';
  }

  /** A name is a fallback name exactly when the id is not in the table. */
  lemma IsFallbackName(id: int)
    ensures StartsWith(ChainName(id), FallbackPrefix) <==> Lookup(ChainTable, id, 0).None?
  {
    LookupFinds(ChainTable, id, 0);
    TableWellFormed();
  }

  /** Every display name is non-empty. */
  lemma ChainNameNonEmpty(id: int)
    ensures ChainName(id) != []
  {
    LookupFinds(ChainTable, id, 0);
    TableWellFormed();
  }

  /** Well-known entries, as the pair keys of the dashboard show them. */
  lemma WellKnownNames()
    ensures ChainName(1) == "Ethereum" && ChainName(8453) == "Base" && ChainName(42161) == "Arbitrum"
    ensures ChainName(7) == "Chain 7"
  {
    UnlistedSeven();
    assert IntToString(7) == "7";
  }

  /** Chain 7 has no entry. */
  lemma UnlistedSeven()
    ensures Lookup(ChainTable, 7, 0).None?
  {
    assert forall j :: 0 <= j < |ChainTable| ==> ChainTable[j].0 != 7;
    LookupFinds(ChainTable, 7, 0);
  }

  /** Different chain ids never share a display name. */
  lemma ChainNameInjective(a: int, b: int)
    requires ChainName(a) == ChainName(b)
    ensures a == b
  {
    IsFallbackName(a);
    IsFallbackName(b);
    var na, nb := ChainName(a), ChainName(b);
    if Lookup(ChainTable, a, 0).Some? {
      LookupFinds(ChainTable, a, 0);
      LookupFinds(ChainTable, b, 0);
      TableWellFormed();
    } else {
      assert na[|FallbackPrefix|..] == IntToString(a);
      assert nb[|FallbackPrefix|..] == IntToString(b);
      IntToStringInjective(a, b);
    }
  }
}
