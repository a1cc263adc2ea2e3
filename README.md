# Endless gas estimator — a Dafny model

This project models the calculation core of the Endless gas estimator. That
is a client-side calculator that estimates the gas cost of a fixed set of
blockchain actions and compares it with a simulated Ethereum cost.

- `gas_estimates.dfy`, module `GasEstimates`: the action and input types, the
  price constants and the shared complexity-multiplier table. It also holds
  the two calculators: `calculateGasCost`, a method with the source's
  accumulating loop proved equal to a recursive sum, and
  `calculateEthEquivalent`. Then come the lemmas about the sum and the two
  currency conversions.
- `gas_catalog.dfy`, module `GasCatalog`: the eight catalog entries. It states
  the invariants the catalog satisfies and the gas the calculator gives for
  its entries on sample values.
- `gas_estimator.dfy`, module `GasEstimatorState`: the component state
  (`selectedAction`, `inputValues`, `isDropdownOpen`) as a class, with its two
  event handlers, and the derived `gasResult`, `ethResult` and `savings`.

Representation choices:

- Every multiplier in the table is a multiple of 0.1, so it is stored as a
  natural number in hundredths (1.5 is 150). The contribution
  `(variableGas || 0) × multiplier × 100` is then the exact natural
  `variableGas × m`.
- EDS, ETH and USD amounts are exact reals.
- The lookup `complexityMultipliers[v] || 1` is a finite map with fallback 1.
  The fallback applies to a missing key and also to a stored 0, as `|| 1`
  does; the table holds no 0.
- A value "is set" exactly when its key is present and the string is not
  empty, which is when JavaScript treats it as truthy.
- An absent `options` list is modelled as the empty list.

## Model

| member | source | states |
|---|---|---|
| `GasEstimates.MultiplierOf` | src/data/gasEstimates.ts:276-301 | the multiplier used for a value is between 1 and 3.5; it is the table entry for a known key and exactly 1 for an unknown key |
| `GasEstimates.Contribution` | src/data/gasEstimates.ts:300-302 | one input adds something exactly when it affects gas, has a non-empty value and `variableGas` is positive; a qualifying input adds between 1 × and 3.5 × `variableGas` × 100; its exact amount, `variableGas × MultiplierOf(value)`, is what `InputsGasFreshValue` fixes |
| `GasEstimates.InputsGas` | src/data/gasEstimates.ts:299-304 | the `forEach` sum is at most 3.5 × `variableGas` × 100 per input; `InputsGasFreshValue`, `InputsGasPermutation` and `InputsGasWithoutQualifyingInput` characterise it exactly |
| `GasEstimates.GasUnits` | src/data/gasEstimates.ts:296-304 | the total gas of an action is never below its `baseGas` |
| `GasEstimates.CostOfGas` | src/data/gasEstimates.ts:306-311 | the cost breakdown keeps the gas figure; the EDS and USD costs are never negative |
| `GasEstimates.GasCostOf` | src/data/gasEstimates.ts:292-312 | the result of `calculateGasCost`: gas at least `baseGas`, EDS and USD costs non-negative |
| `GasEstimates.CalculateGasCost` | src/data/gasEstimates.ts:292-312 | the in-order accumulation loop from `baseGas`, followed by the two conversions, returns exactly `GasCostOf` |
| `GasEstimates.CalculateEthEquivalent` | src/data/gasEstimates.ts:314-321 | the Ethereum ETH and USD costs are never negative |
| `GasEstimates.InputsGasAppend` | src/data/gasEstimates.ts:299-304 | the summed contributions of two input lists put together equal the sum of the two separate sums |
| `GasEstimates.InputsGasPermutation` | src/data/gasEstimates.ts:299-304 | input order does not matter: any permutation of the inputs gives the same gas |
| `GasEstimates.InputsGasWithoutQualifyingInput` | src/data/gasEstimates.ts:299-304 | inputs that do not affect gas, or have no value, add nothing |
| `GasEstimates.GasUnitsWithoutQualifyingInput` | src/data/gasEstimates.ts:296-304 | when no gas-affecting input has a non-empty value, the gas equals `baseGas` |
| `GasEstimates.GasUnitsOfNoValues` | src/data/gasEstimates.ts:296-304 | with no values supplied at all, the gas equals `baseGas` |
| `GasEstimates.InputsGasWithoutVariableGas` | src/data/gasEstimates.ts:302 | with `variableGas` absent or 0, no input adds anything, whatever its value |
| `GasEstimates.GasUnitsWithoutVariableGas` | src/data/gasEstimates.ts:296-304 | with `variableGas` absent or 0, the gas equals `baseGas` for every set of values |
| `GasEstimates.InputsGasMonotone` | src/data/gasEstimates.ts:299-303 | giving a value to a key that had none never lowers the summed contributions |
| `GasEstimates.GasUnitsMonotone` | src/data/gasEstimates.ts:296-304 | giving a value to a key that had none never lowers the total gas |
| `GasEstimates.InputsGasFreshValue` | src/data/gasEstimates.ts:299-303 | with unique input ids, giving a non-empty value to an unset key adds exactly `(variableGas or 0) × MultiplierOf(value)`, that is `(variableGas or 0) × multiplier × 100`, when a gas-affecting input has that id, and nothing otherwise |
| `GasEstimates.GasUnitsFreshValue` | src/data/gasEstimates.ts:296-304 | the same exact increment, stated for an action's total gas |
| `GasEstimates.InputsGasIgnoresGasMultiplier` | src/data/gasEstimates.ts:15-24 | inputs that differ only in their declared `gasMultiplier` give the same gas: the field is never read |
| `GasEstimates.CostOfGasLinear` | src/data/gasEstimates.ts:306-311 | EDS cost = gas × 0.000001 and USD cost = EDS cost × 0.0847; both are additive in the gas |
| `GasEstimates.EthEquivalentLinear` | src/data/gasEstimates.ts:314-321 | ETH cost = gas × 25 / 10^9 and USD cost = ETH cost × 3245.67; doubling the gas doubles both, and both are additive |
| `GasEstimates.EthEquivalentOfTransfer` | src/data/gasEstimates.ts:314-321 | 21000 Ethereum gas costs 0.000525 ETH, which is 0.000525 × 3245.67 USD |
| `GasEstimates.EthUsdZeroIff` | src/data/gasEstimates.ts:314-321 | the Ethereum USD cost is 0 exactly when the Ethereum gas figure is 0 |
| `GasCatalog.CatalogActionIdsUnique` | src/data/gasEstimates.ts:30-274 | no two catalog actions share an id |
| `GasCatalog.CatalogWellFormed` | src/data/gasEstimates.ts:30-274 | every action has unique input ids; every select has options; every option of a gas-affecting select is a key of the multiplier table |
| `GasCatalog.CatalogEthGasPositive` | src/data/gasEstimates.ts:30-274 | every action's Ethereum gas figure is positive, so its savings percentage is defined |
| `GasCatalog.SendEdsConstant` | src/data/gasEstimates.ts:31-54 | send-eds costs 21000 gas for every set of values |
| `GasCatalog.SwapTokensConstant` | src/data/gasEstimates.ts:220-250 | swap-tokens costs 120000 gas for every set of values |
| `GasCatalog.StakeEdsIgnoresLockPeriod` | src/data/gasEstimates.ts:161-189 | stake-eds costs 85000 gas whatever the lock period, and would still cost that with a `variableGas`, because `lockPeriod` does not affect gas |
| `GasCatalog.RegisterDidConstant` | src/data/gasEstimates.ts:251-273 | register-did costs 95000 gas whatever its gas-affecting select holds, because it has no `variableGas` |
| `GasCatalog.CreateProposalConstant` | src/data/gasEstimates.ts:190-219 | create-proposal costs 200000 gas whatever its gas-affecting select holds, because it has no `variableGas` |
| `GasCatalog.CallContractGas` | src/data/gasEstimates.ts:55-92 | call-contract costs 45000 gas, plus 200 × MultiplierOf(value), that is 200 × multiplier × 100, once `complexity` has a value |
| `GasCatalog.CallContractScenarios` | src/data/gasEstimates.ts:55-92 | call-contract costs 75000 gas with `moderate` and 65000 with an unknown value |
| `GasCatalog.DeployContractLargeComplex` | src/data/gasEstimates.ts:124-160 | deploy-contract with `large` and `complex` costs 1100000 gas; `hasConstructor`'s declared weight of 0.5 is not applied |
| `GasCatalog.MintMiniAppMedium` | src/data/gasEstimates.ts:93-123 | mint-miniapp with `medium` metadata costs 250000 gas |
| `GasEstimatorState.GasResultOf` | src/components/GasEstimator.tsx:46-49 | `gasResult` is absent exactly when no action is selected; otherwise it is the action's cost for the current values, with gas at least `baseGas` |
| `GasEstimatorState.EthResultOf` | src/components/GasEstimator.tsx:51-54 | `ethResult` is absent exactly when no action is selected; otherwise it is the Ethereum cost of the action's fixed gas figure; it takes no input values |
| `GasEstimatorState.SavingsOf` | src/components/GasEstimator.tsx:56-61 | `savings` is absent exactly when either result is; its USD figure is the Ethereum USD cost minus the native USD cost; its percentage is absent exactly when the Ethereum USD cost is 0, and otherwise percentage × Ethereum USD cost = USD saving × 100 |
| `GasEstimatorState.SavingsPercentDefinedIff` | src/components/GasEstimator.tsx:59 | with an action selected, savings exist, and the percentage is defined exactly when `ethEquivalentGas` is not 0 |
| `GasEstimatorState.GasEstimator.constructor` | src/components/GasEstimator.tsx:40-44 | initially nothing is selected, there are no values and the dropdown is closed, so there is no gas result and no savings |
| `GasEstimatorState.GasEstimator.HandleInputChange` | src/components/GasEstimator.tsx:63-65 | sets `inputValues[id] := value`; every other key, the selection and the dropdown are unchanged, and so is the Ethereum result |
| `GasEstimatorState.GasEstimator.HandleActionSelect` | src/components/GasEstimator.tsx:67-71 | selects the action, empties `inputValues` and closes the dropdown; the gas result is then the action's base gas and the Ethereum result is the action's comparison cost |

## Left out

- Floating point: the source computes in IEEE-754 doubles. The multipliers 1.5, 2.5 and 3.5 are exact there. Of the table entries only 1.8 (`upgrade`) is inexact, and only create-proposal offers it; that action has no `variableGas`, so the contribution is 0. The source's gas total is therefore an exact integer for every catalog action. Rounding happens only in the EDS, ETH and USD conversions, where 0.000001, 0.0847 and 3245.67 are inexact. The model uses exact reals there, so it does not capture that rounding.
- Display formatting: `toFixed`, `toLocaleString`, and the one-decimal savings string. `Savings.percent` is the unformatted number.
- The savings division by a zero Ethereum cost: the USD difference is then never positive, so JavaScript yields NaN or −Infinity, which the model represents as an absent percentage.
- JavaScript object-prototype lookups: a value such as `toString` used as a key of the multiplier table or of `inputValues`. The model looks keys up in finite maps only.
- Display-only data: names, descriptions, option labels, placeholders and the `required` flag. The calculator never reads them.
- `gasMultiplier` per-field weighting: it is documented in src/components/Documentation.tsx but not implemented. The model keeps the field and proves it is never read.
- Rendering in src/components/GasEstimator.tsx: JSX, tooltip and documentation toggles, category icons and colours, random particle placement. The dropdown toggle button (line 203) is markup outside the two handlers, so it is not modelled either.
- src/components/Documentation.tsx is not part of this model: it is static content with clipboard and scrolling code.
