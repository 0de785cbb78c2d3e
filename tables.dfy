/**
 * The fixed classification tables of the report engine: the blue-chip and
 * high-risk (meme) symbol lists and the known DeFi protocol contracts, in
 * declaration order (the order in which the engine scans them).
 */
module Tables {
  import opened Text

  datatype Category = BlueChip | Defi | Meme | Other

  datatype PositionType = Dex | Lending | Staking | Vault

  /** One row of the protocol table: a full contract id and what it stands for. */
  datatype Protocol = Protocol(contract: string, name: string, kind: PositionType)

  const HighRiskTokens: seq<string> :=
    ["WELSH", "LEO", "PEPE", "NOT", "DROID", "ODIN", "ROO", "GIGA", "MOON"]

  /** Note the mixed-case entries; they are compared against an upper-cased symbol. */
  const BlueChipTokens: seq<string> :=
    ["STX", "sBTC", "xBTC", "USDA", "sUSDT", "ALEX", "VELAR"]

  /** Contract-id fragments that mark a token as DeFi when its symbol is in neither list. */
  const DefiFragments: seq<string> := ["alex", "velar", "arkadiko"]

  const AlexDeployer := "SP3K8BC0PPEVCV7NZ6QSRWPQ2JE9E5B6N3PA0KBR9"
  const VelarDeployer := "SP1Y5YSTAHZ88XYK1VPDH24GY0HPX5J4JECTMY4A1"
  const ArkadikoDeployer := "SP2C2YFP12AJZB4MABJBAJ55XECVS7E4PMMZ89YZR"
  const StackingDaoDeployer := "SP4SZE494VC2YC5JYG7AYFQ44F5Q4PYV7DVMDPBG"
  const SbtcDeployer := "SM3KNVZS30WM7F89SXKVVFY4SN9RMPZZ9FX929N0V"
  const XbtcDeployer := "SP3DX3H4FEYZJZ586MFBS25ZW3HZDMEW92260R2PR"

  const DefiProtocols: seq<Protocol> := [
    Protocol(AlexDeployer + ".alex-vault", "ALEX", Vault),
    Protocol(AlexDeployer + ".alex-reserve-pool", "ALEX", Staking),
    Protocol(AlexDeployer + ".alex-launchpad", "ALEX", Staking),
    Protocol(VelarDeployer + ".velar-v2-swap", "Velar", Dex),
    Protocol(ArkadikoDeployer + ".arkadiko-swap-v2-1", "Arkadiko", Dex),
    Protocol(ArkadikoDeployer + ".arkadiko-vaults-v1-1", "Arkadiko", Vault),
    Protocol(ArkadikoDeployer + ".arkadiko-stake-pool-v2-1", "Arkadiko", Staking),
    Protocol(StackingDaoDeployer + ".stacking-dao-core-v1", "StackingDAO", Staking),
    Protocol(SbtcDeployer + ".sbtc-deposit", "sBTC", Vault),
    Protocol(XbtcDeployer + ".Wrapped-Bitcoin", "xBTC", Vault)
  ]

  /** The deployer address of a row: its contract id up to the first `.`. */
  function Deployer(p: Protocol): string
  {
    BeforeFirst(p.contract, '.')
  }

  /** A contract id built as deployer followed by `.name` has that deployer. */
  lemma DeployerOfJoin(d: string, dotName: string)
    requires '.' !in d && |dotName| > 0 && dotName[0] == '.'
    ensures BeforeFirst(d + dotName, '.') == d
  {
    assert d + dotName == d + ['.'] + dotName[1..];
    BeforeFirstOfJoin(d, '.', dotName[1..]);
  }

  /** The deployer address behind each protocol name of the table. */
  ghost function NameDeployer(name: string): string
  {
    if name == "ALEX" then AlexDeployer
    else if name == "Velar" then VelarDeployer
    else if name == "Arkadiko" then ArkadikoDeployer
    else if name == "StackingDAO" then StackingDaoDeployer
    else if name == "sBTC" then SbtcDeployer
    else XbtcDeployer
  }

  // The facts about the long literal addresses and table rows are split into
  // one small lemma per address and per row: a single lemma over all ten rows
  // exceeds the verifier's resource limit.
  lemma NoDotInAlexDeployer() ensures '.' !in AlexDeployer {}
  lemma NoDotInVelarDeployer() ensures '.' !in VelarDeployer {}
  lemma NoDotInArkadikoDeployer() ensures '.' !in ArkadikoDeployer {}
  lemma NoDotInStackingDaoDeployer() ensures '.' !in StackingDaoDeployer {}
  lemma NoDotInSbtcDeployer() ensures '.' !in SbtcDeployer {}
  lemma NoDotInXbtcDeployer() ensures '.' !in XbtcDeployer {}

  lemma DeployerOfRow0()
    ensures Deployer(DefiProtocols[0]) == NameDeployer(DefiProtocols[0].name)
  {
    NoDotInAlexDeployer();
    DeployerOfJoin(AlexDeployer, ".alex-vault");
  }
  lemma DeployerOfRow1()
    ensures Deployer(DefiProtocols[1]) == NameDeployer(DefiProtocols[1].name)
  {
    NoDotInAlexDeployer();
    DeployerOfJoin(AlexDeployer, ".alex-reserve-pool");
  }
  lemma DeployerOfRow2()
    ensures Deployer(DefiProtocols[2]) == NameDeployer(DefiProtocols[2].name)
  {
    NoDotInAlexDeployer();
    DeployerOfJoin(AlexDeployer, ".alex-launchpad");
  }
  lemma DeployerOfRow3()
    ensures Deployer(DefiProtocols[3]) == NameDeployer(DefiProtocols[3].name)
  {
    NoDotInVelarDeployer();
    DeployerOfJoin(VelarDeployer, ".velar-v2-swap");
  }
  lemma DeployerOfRow4()
    ensures Deployer(DefiProtocols[4]) == NameDeployer(DefiProtocols[4].name)
  {
    NoDotInArkadikoDeployer();
    DeployerOfJoin(ArkadikoDeployer, ".arkadiko-swap-v2-1");
  }
  lemma DeployerOfRow5()
    ensures Deployer(DefiProtocols[5]) == NameDeployer(DefiProtocols[5].name)
  {
    NoDotInArkadikoDeployer();
    DeployerOfJoin(ArkadikoDeployer, ".arkadiko-vaults-v1-1");
  }
  lemma DeployerOfRow6()
    ensures Deployer(DefiProtocols[6]) == NameDeployer(DefiProtocols[6].name)
  {
    NoDotInArkadikoDeployer();
    DeployerOfJoin(ArkadikoDeployer, ".arkadiko-stake-pool-v2-1");
  }
  lemma DeployerOfRow7()
    ensures Deployer(DefiProtocols[7]) == NameDeployer(DefiProtocols[7].name)
  {
    NoDotInStackingDaoDeployer();
    DeployerOfJoin(StackingDaoDeployer, ".stacking-dao-core-v1");
  }
  lemma DeployerOfRow8()
    ensures Deployer(DefiProtocols[8]) == NameDeployer(DefiProtocols[8].name)
  {
    NoDotInSbtcDeployer();
    DeployerOfJoin(SbtcDeployer, ".sbtc-deposit");
  }
  lemma DeployerOfRow9()
    ensures Deployer(DefiProtocols[9]) == NameDeployer(DefiProtocols[9].name)
  {
    NoDotInXbtcDeployer();
    DeployerOfJoin(XbtcDeployer, ".Wrapped-Bitcoin");
  }

  /** The deployer of each row depends on its protocol name alone. */
  lemma DeployerOfRow(j: nat)
    requires j < |DefiProtocols|
    ensures Deployer(DefiProtocols[j]) == NameDeployer(DefiProtocols[j].name)
  {
    if j == 0 { DeployerOfRow0(); }
    else if j == 1 { DeployerOfRow1(); }
    else if j == 2 { DeployerOfRow2(); }
    else if j == 3 { DeployerOfRow3(); }
    else if j == 4 { DeployerOfRow4(); }
    else if j == 5 { DeployerOfRow5(); }
    else if j == 6 { DeployerOfRow6(); }
    else if j == 7 { DeployerOfRow7(); }
    else if j == 8 { DeployerOfRow8(); }
    else { DeployerOfRow9(); }
  }

  /** Rows of the same protocol name share their deployer address. */
  lemma SameNameSameDeployer(i: nat, k: nat)
    requires i < |DefiProtocols| && k < |DefiProtocols|
    requires DefiProtocols[i].name == DefiProtocols[k].name
    ensures Deployer(DefiProtocols[i]) == Deployer(DefiProtocols[k])
  {
    DeployerOfRow(i);
    DeployerOfRow(k);
  }
}
