/** The fixed catalog of actions (the `gasEstimates` array of
    src/data/gasEstimates.ts), the invariants it satisfies, and the gas the
    calculator gives for its entries on sample values. Names, descriptions, labels,
    placeholders and `required` flags are display-only and omitted. */
module GasCatalog {
  import opened GasEstimates

  const SendEds := GasEstimate(
    "send-eds", Transfer, 21000, None,
    [ InputField("recipient", Address, [], false, None),
      InputField("amount", Number, [], false, None) ],
    21000)

  const CallContract := GasEstimate(
    "call-contract", Contract, 45000, Some(200),
    [ InputField("contractAddress", Address, [], false, None),
      InputField("functionName", Text, [], false, None),
      InputField("complexity", Select, ["simple", "moderate", "complex"], true, Some(100)) ],
    65000)

  const MintMiniApp := GasEstimate(
    "mint-miniapp", Nft, 150000, Some(500),
    [ InputField("appName", Text, [], false, None),
      InputField("metadataSize", Select, ["small", "medium", "large"], true, Some(100)) ],
    250000)

  const DeployContract := GasEstimate(
    "deploy-contract", Contract, 500000, Some(1000),
    [ InputField("contractSize", Select, ["small", "medium", "large"], true, Some(100)),
      InputField("hasConstructor", Select, ["none", "simple", "complex"], true, Some(50)) ],
    800000)

  const StakeEds := GasEstimate(
    "stake-eds", Defi, 85000, None,
    [ InputField("amount", Number, [], false, None),
      InputField("lockPeriod", Select, ["30", "90", "180", "365"], false, None) ],
    120000)

  const CreateProposal := GasEstimate(
    "create-proposal", Governance, 200000, None,
    [ InputField("proposalTitle", Text, [], false, None),
      InputField("proposalType", Select, ["parameter", "upgrade", "treasury"], true, Some(100)) ],
    350000)

  const SwapTokens := GasEstimate(
    "swap-tokens", Defi, 120000, None,
    [ InputField("fromToken", Text, [], false, None),
      InputField("toToken", Text, [], false, None),
      InputField("amount", Number, [], false, None) ],
    180000)

  const RegisterDid := GasEstimate(
    "register-did", Contract, 95000, None,
    [ InputField("didDocument", Select, ["minimal", "standard", "full"], true, Some(100)) ],
    150000)

  const Catalog: seq<GasEstimate> :=
    [SendEds, CallContract, MintMiniApp, DeployContract, StakeEds, CreateProposal, SwapTokens, RegisterDid]

  /** No two actions share an id. */
  predicate ActionIdsUnique(catalog: seq<GasEstimate>)
  {
    forall i, j :: 0 <= i < j < |catalog| ==> catalog[i].id != catalog[j].id
  }

  /** Every select input offers at least one option. */
  predicate SelectsHaveOptions(estimate: GasEstimate)
  {
    forall k :: 0 <= k < |estimate.inputs| && estimate.inputs[k].fieldType == Select ==>
      |estimate.inputs[k].options| > 0
  }

  /** Every option of a gas-affecting select has its own multiplier entry. */
  predicate GasOptionsPriced(estimate: GasEstimate)
  {
    forall k :: 0 <= k < |estimate.inputs| && estimate.inputs[k].affectsGas ==>
      forall o :: o in estimate.inputs[k].options ==> o in ComplexityMultipliers
  }

  /** An action is well formed: unique input ids, non-empty selects, priced options. */
  predicate WellFormed(estimate: GasEstimate)
  {
    InputIdsUnique(estimate.inputs) && SelectsHaveOptions(estimate) && GasOptionsPriced(estimate)
  }

  lemma CatalogActionIdsUnique()
    ensures ActionIdsUnique(Catalog)
  {
  }

  lemma CatalogWellFormed()
    ensures forall i :: 0 <= i < |Catalog| ==> WellFormed(Catalog[i])
  {
  }

  /** Every action has a positive Ethereum comparison figure, so its savings
      percentage is always defined. */
  lemma CatalogEthGasPositive()
    ensures forall i :: 0 <= i < |Catalog| ==> Catalog[i].ethEquivalentGas > 0
  {
  }

  /** send-eds has no gas-affecting input: always the base 21000. */
  lemma SendEdsConstant(values: InputValues)
    ensures GasUnits(SendEds, values) == 21000
  {
    GasUnitsWithoutVariableGas(SendEds, values);
  }

  /** swap-tokens has no gas-affecting input: always the base 120000. */
  lemma SwapTokensConstant(values: InputValues)
    ensures GasUnits(SwapTokens, values) == 120000
  {
    GasUnitsWithoutVariableGas(SwapTokens, values);
  }

  /** stake-eds is 85000 whatever lock period is chosen: lockPeriod does not
      affect gas (even if variableGas were given). */
  lemma StakeEdsIgnoresLockPeriod(values: InputValues)
    ensures GasUnits(StakeEds, values) == 85000
    ensures GasUnits(StakeEds.(variableGas := Some(1000)), values) == 85000
  {
    GasUnitsWithoutQualifyingInput(StakeEds, values);
    GasUnitsWithoutQualifyingInput(StakeEds.(variableGas := Some(1000)), values);
  }

  /** register-did has a gas-affecting select but no variableGas, so its
      input never changes the total. */
  lemma RegisterDidConstant(values: InputValues)
    ensures GasUnits(RegisterDid, values) == 95000
  {
    GasUnitsWithoutVariableGas(RegisterDid, values);
  }

  /** create-proposal likewise: always 200000, whatever proposal type. */
  lemma CreateProposalConstant(values: InputValues)
    ensures GasUnits(CreateProposal, values) == 200000
  {
    GasUnitsWithoutVariableGas(CreateProposal, values);
  }

  /** call-contract: 45000 plus 200 x multiplier x 100 once complexity is set. */
  lemma CallContractGas(values: InputValues)
    ensures GasUnits(CallContract, values)
            == 45000 + (if HasValue(values, "complexity") then 200 * MultiplierOf(values["complexity"]) else 0)
  {
    var ins := CallContract.inputs;
    assert ins[..2][..1][..0] == [];
    assert InputsGas(Some(200), ins[..2][..1], values) == 0;
    assert InputsGas(Some(200), ins[..2], values) == 0;
    assert ins[2].id == "complexity";
  }

  lemma CallContractScenarios()
    ensures GasUnits(CallContract, map["complexity" := "moderate"]) == 75000
    ensures GasUnits(CallContract, map["complexity" := "unknown-key"]) == 65000
  {
    CallContractGas(map["complexity" := "moderate"]);
    CallContractGas(map["complexity" := "unknown-key"]);
  }

  /** deploy-contract with a large contract and a complex constructor:
      500000 + 1000 x 3.5 x 100 + 1000 x 2.5 x 100, ignoring the declared 0.5 weight. */
  lemma DeployContractLargeComplex()
    ensures GasUnits(DeployContract, map["contractSize" := "large", "hasConstructor" := "complex"]) == 1100000
  {
    var values: InputValues := map["contractSize" := "large", "hasConstructor" := "complex"];
    var ins := DeployContract.inputs;
    assert ins[..1][..0] == [];
    assert MultiplierOf("large") == 350 && MultiplierOf("complex") == 250;
    assert Contribution(Some(1000), ins[0], values) == 350000;
    assert Contribution(Some(1000), ins[1], values) == 250000;
    assert InputsGas(Some(1000), ins[..1], values) == 350000;
    assert InputsGas(Some(1000), ins, values) == 600000;
  }

  /** mint-miniapp with medium metadata: 150000 + 500 x 2 x 100. */
  lemma MintMiniAppMedium()
    ensures GasUnits(MintMiniApp, map["metadataSize" := "medium"]) == 250000
  {
    var values: InputValues := map["metadataSize" := "medium"];
    var ins := MintMiniApp.inputs;
    assert ins[..1][..0] == [];
    assert MultiplierOf("medium") == 200;
    assert Contribution(Some(500), ins[1], values) == 100000;
    assert InputsGas(Some(500), ins[..1], values) == 0;
    assert InputsGas(Some(500), ins, values) == 100000;
  }
}
