/** The data model, price constants, complexity-multiplier table and the two
    cost calculators of the Endless gas estimator (src/data/gasEstimates.ts).

    Gas quantities are natural numbers. Every multiplier in the table is a
    multiple of 0.1, so multipliers are stored as naturals in hundredths
    (150 stands for 1.5), which keeps `variableGas * multiplier * 100` an exact
    natural: with the multiplier m/100 it equals `variableGas * m`.
    Currency amounts are exact reals. */
module GasEstimates {

  datatype Option<T> = None | Some(value: T)

  /** Display grouping of an action; no computation reads it. */
  datatype Category = Transfer | Contract | Nft | Defi | Governance

  /** The kind of widget an input is rendered as. */
  datatype FieldType = Number | Text | Address | Select

  /** One input of an action. `options` holds the option values of a select
      ([] when the field declares none); `gasMultiplier`, in hundredths, is
      declared by the catalog but never read by the calculator. */
  datatype InputField = InputField(
    id: string,
    fieldType: FieldType,
    options: seq<string>,
    affectsGas: bool,
    gasMultiplier: Option<nat>)

  /** One catalog entry: a base cost, an optional per-field coefficient, the
      ordered inputs and the fixed Ethereum gas figure it is compared with. */
  datatype GasEstimate = GasEstimate(
    id: string,
    category: Category,
    baseGas: nat,
    variableGas: Option<nat>,
    inputs: seq<InputField>,
    ethEquivalentGas: nat)

  /** The raw string values the user has typed or selected, keyed by input id. */
  type InputValues = map<string, string>

  /** What calculateGasCost returns. */
  datatype GasCost = GasCost(gasUnits: nat, edsGasCost: real, usdCost: real)

  /** What calculateEthEquivalent returns. */
  datatype EthCost = EthCost(ethCost: real, usdCost: real)

  const EdsPriceUsd: real := 0.0847
  const EthPriceUsd: real := 3245.67
  const EthGasPriceGwei: nat := 25
  const GweiPerEth: real := 1000000000.0
  /** EDS charged per gas unit. */
  const EdsGasPrice: real := 0.000001

  /** Complexity multipliers in hundredths, shared by every action. */
  const ComplexityMultipliers: map<string, nat> := map[
    "simple" := 100,
    "moderate" := 150,
    "complex" := 250,
    "small" := 100,
    "medium" := 200,
    "large" := 350,
    "none" := 100,
    "minimal" := 100,
    "standard" := 150,
    "full" := 200,
    "parameter" := 100,
    "upgrade" := 180,
    "treasury" := 150
  ]

  /** The multiplier (in hundredths) applied for a selected value: the table
      entry, or 1 when the lookup finds nothing (or a zero). */
  function MultiplierOf(value: string): (m: nat)
    ensures 100 <= m <= 350
    ensures value !in ComplexityMultipliers ==> m == 100
    ensures value in ComplexityMultipliers ==> m == ComplexityMultipliers[value]
  {
    if value in ComplexityMultipliers && ComplexityMultipliers[value] != 0
    then ComplexityMultipliers[value]
    else 100
  }

  /** `inputValues[key]` is truthy: present and not the empty string. */
  predicate HasValue(values: InputValues, key: string)
  {
    key in values && values[key] != ""
  }

  /** `variableGas || 0`. */
  function VariableGasOrZero(variableGas: Option<nat>): nat
  {
    match variableGas
    case Some(g) => g
    case None => 0
  }

  /** The gas one input adds: `(variableGas || 0) * multiplier * 100` when it
      affects gas and has a value, nothing otherwise. */
  function Contribution(variableGas: Option<nat>, input: InputField, values: InputValues): (c: nat)
    ensures c > 0 <==> input.affectsGas && HasValue(values, input.id) && VariableGasOrZero(variableGas) > 0
    ensures input.affectsGas && HasValue(values, input.id) ==>
              100 * VariableGasOrZero(variableGas) <= c <= 350 * VariableGasOrZero(variableGas)
  {
    if input.affectsGas && HasValue(values, input.id)
    then VariableGasOrZero(variableGas) * MultiplierOf(values[input.id])
    else 0
  }

  /** The gas all of `inputs` add, summed in declaration order. */
  function InputsGas(variableGas: Option<nat>, inputs: seq<InputField>, values: InputValues): (g: nat)
    ensures g <= |inputs| * (350 * VariableGasOrZero(variableGas))
    decreases |inputs|
  {
    if inputs == [] then 0
    else
      var n := |inputs| - 1;
      var w := 350 * VariableGasOrZero(variableGas);
      assert (n + 1) * w == n * w + w;
      InputsGas(variableGas, inputs[..n], values) + Contribution(variableGas, inputs[n], values)
  }

  /** The total gas of an action for the given values. */
  function GasUnits(estimate: GasEstimate, values: InputValues): (g: nat)
    ensures g >= estimate.baseGas
  {
    estimate.baseGas + InputsGas(estimate.variableGas, estimate.inputs, values)
  }

  /** EDS and USD cost of a gas quantity. */
  function CostOfGas(gasUnits: nat): (c: GasCost)
    ensures c.gasUnits == gasUnits
    ensures c.edsGasCost >= 0.0 && c.usdCost >= 0.0
  {
    var edsGasCost := gasUnits as real * EdsGasPrice;
    GasCost(gasUnits, edsGasCost, edsGasCost * EdsPriceUsd)
  }

  /** The specification of calculateGasCost. */
  function GasCostOf(estimate: GasEstimate, values: InputValues): (c: GasCost)
    ensures c.gasUnits >= estimate.baseGas
    ensures c.edsGasCost >= 0.0 && c.usdCost >= 0.0
  {
    CostOfGas(GasUnits(estimate, values))
  }

  /** calculateGasCost: accumulate from baseGas over the inputs in order, then
      convert the total to EDS and to USD. */
  method CalculateGasCost(estimate: GasEstimate, inputValues: InputValues) returns (r: GasCost)
    ensures r == GasCostOf(estimate, inputValues)
  {
    var totalGas := estimate.baseGas;
    var i := 0;
    while i < |estimate.inputs|
      invariant 0 <= i <= |estimate.inputs|
      invariant totalGas == estimate.baseGas + InputsGas(estimate.variableGas, estimate.inputs[..i], inputValues)
    {
      var input := estimate.inputs[i];
      if input.affectsGas && HasValue(inputValues, input.id) {
        var multiplier := MultiplierOf(inputValues[input.id]);
        totalGas := totalGas + VariableGasOrZero(estimate.variableGas) * multiplier;
      }
      assert estimate.inputs[..i + 1][..i] == estimate.inputs[..i];
      i := i + 1;
    }
    assert estimate.inputs[..i] == estimate.inputs;
    var edsGasCost := totalGas as real * EdsGasPrice;
    var usdCost := edsGasCost * EdsPriceUsd;
    r := GasCost(totalGas, edsGasCost, usdCost);
  }

  /** calculateEthEquivalent: a fixed Ethereum gas figure priced at 25 gwei. */
  function CalculateEthEquivalent(ethGas: nat): (r: EthCost)
    ensures r.ethCost >= 0.0 && r.usdCost >= 0.0
  {
    var ethCost := (ethGas as real * EthGasPriceGwei as real) / GweiPerEth;
    EthCost(ethCost, ethCost * EthPriceUsd)
  }

  // ---------------------------------------------------------------------
  // Properties of the gas sum

  /** The sum over a concatenation is the sum of the sums. */
  lemma {:induction false} InputsGasAppend(variableGas: Option<nat>, a: seq<InputField>, b: seq<InputField>, values: InputValues)
    ensures InputsGas(variableGas, a + b, values)
            == InputsGas(variableGas, a, values) + InputsGas(variableGas, b, values)
    decreases |b|
  {
    if b == [] {
      assert a + b == a;
    } else {
      var b' := b[..|b| - 1];
      assert (a + b)[..|a + b| - 1] == a + b';
      assert (a + b)[|a + b| - 1] == b[|b| - 1];
      InputsGasAppend(variableGas, a, b', values);
    }
  }

  /** Taking one input out of the sum subtracts exactly its contribution. */
  lemma InputsGasRemoveAt(variableGas: Option<nat>, b: seq<InputField>, j: nat, values: InputValues)
    requires j < |b|
    ensures InputsGas(variableGas, b, values)
            == InputsGas(variableGas, b[..j] + b[j + 1..], values) + Contribution(variableGas, b[j], values)
  {
    var b1, b2 := b[..j], b[j + 1..];
    assert b == (b1 + [b[j]]) + b2;
    InputsGasAppend(variableGas, b1 + [b[j]], b2, values);
    assert (b1 + [b[j]])[..|b1|] == b1;
    InputsGasAppend(variableGas, b1, b2, values);
  }

  lemma MultisetRemoveAt<T>(s: seq<T>, j: nat)
    requires j < |s|
    ensures multiset(s[..j] + s[j + 1..]) == multiset(s) - multiset{s[j]}
  {
    assert s == s[..j] + [s[j]] + s[j + 1..];
    assert multiset(s) == multiset(s[..j]) + multiset{s[j]} + multiset(s[j + 1..]);
  }

  /** Input order does not matter: any permutation of the inputs gives the same gas. */
  lemma {:induction false} InputsGasPermutation(variableGas: Option<nat>, a: seq<InputField>, b: seq<InputField>, values: InputValues)
    requires multiset(a) == multiset(b)
    ensures InputsGas(variableGas, a, values) == InputsGas(variableGas, b, values)
    decreases |a|
  {
    if a == [] {
      assert |b| == |multiset(b)| == 0;
    } else {
      var x := a[|a| - 1];
      var a' := a[..|a| - 1];
      assert x in multiset(b) by {
        assert a == a' + [x];
      }
      var j :| 0 <= j < |b| && b[j] == x;
      var rest := b[..j] + b[j + 1..];
      MultisetRemoveAt(b, j);
      MultisetRemoveAt(a, |a| - 1);
      assert a[..|a| - 1] + a[|a|..] == a';
      assert multiset(a') == multiset(rest);
      InputsGasPermutation(variableGas, a', rest, values);
      InputsGasRemoveAt(variableGas, b, j, values);
    }
  }

  /** Inputs that do not affect gas, or have no value, add nothing. */
  lemma {:induction false} InputsGasWithoutQualifyingInput(variableGas: Option<nat>, inputs: seq<InputField>, values: InputValues)
    requires forall i :: 0 <= i < |inputs| ==> !inputs[i].affectsGas || !HasValue(values, inputs[i].id)
    ensures InputsGas(variableGas, inputs, values) == 0
    decreases |inputs|
  {
    if inputs != [] {
      InputsGasWithoutQualifyingInput(variableGas, inputs[..|inputs| - 1], values);
    }
  }

  /** Without a qualifying input the total is the base gas. */
  lemma GasUnitsWithoutQualifyingInput(estimate: GasEstimate, values: InputValues)
    requires forall i :: 0 <= i < |estimate.inputs| ==>
               !estimate.inputs[i].affectsGas || !HasValue(values, estimate.inputs[i].id)
    ensures GasUnits(estimate, values) == estimate.baseGas
  {
    InputsGasWithoutQualifyingInput(estimate.variableGas, estimate.inputs, values);
  }

  /** With no values at all (the state right after an action is chosen) the
      total is the base gas. */
  lemma GasUnitsOfNoValues(estimate: GasEstimate)
    ensures GasUnits(estimate, map[]) == estimate.baseGas
  {
    GasUnitsWithoutQualifyingInput(estimate, map[]);
  }

  /** When variableGas is absent (or zero) no input changes anything. */
  lemma {:induction false} InputsGasWithoutVariableGas(variableGas: Option<nat>, inputs: seq<InputField>, values: InputValues)
    requires VariableGasOrZero(variableGas) == 0
    ensures InputsGas(variableGas, inputs, values) == 0
    decreases |inputs|
  {
    if inputs != [] {
      InputsGasWithoutVariableGas(variableGas, inputs[..|inputs| - 1], values);
    }
  }

  lemma GasUnitsWithoutVariableGas(estimate: GasEstimate, values: InputValues)
    requires VariableGasOrZero(estimate.variableGas) == 0
    ensures GasUnits(estimate, values) == estimate.baseGas
  {
    InputsGasWithoutVariableGas(estimate.variableGas, estimate.inputs, values);
  }

  /** Giving a value to an input that had none never lowers the total. */
  lemma {:induction false} InputsGasMonotone(variableGas: Option<nat>, inputs: seq<InputField>, values: InputValues, key: string, value: string)
    requires !HasValue(values, key)
    ensures InputsGas(variableGas, inputs, values[key := value]) >= InputsGas(variableGas, inputs, values)
    decreases |inputs|
  {
    if inputs != [] {
      InputsGasMonotone(variableGas, inputs[..|inputs| - 1], values, key, value);
    }
  }

  lemma GasUnitsMonotone(estimate: GasEstimate, values: InputValues, key: string, value: string)
    requires !HasValue(values, key)
    ensures GasUnits(estimate, values[key := value]) >= GasUnits(estimate, values)
  {
    InputsGasMonotone(estimate.variableGas, estimate.inputs, values, key, value);
  }

  /** Input ids are unique within an action. */
  predicate InputIdsUnique(inputs: seq<InputField>)
  {
    forall i, j :: 0 <= i < j < |inputs| ==> inputs[i].id != inputs[j].id
  }

  /** Some input with this id affects gas. */
  predicate HasGasInput(inputs: seq<InputField>, key: string)
  {
    exists i :: 0 <= i < |inputs| && inputs[i].id == key && inputs[i].affectsGas
  }

  /** Giving a non-empty value to an input that had none adds exactly
      `(variableGas || 0) * multiplier * 100` when that input affects gas,
      and nothing otherwise. */
  lemma {:induction false} InputsGasFreshValue(variableGas: Option<nat>, inputs: seq<InputField>, values: InputValues, key: string, value: string)
    requires InputIdsUnique(inputs)
    requires !HasValue(values, key) && value != ""
    ensures InputsGas(variableGas, inputs, values[key := value])
            == InputsGas(variableGas, inputs, values)
               + (if HasGasInput(inputs, key) then VariableGasOrZero(variableGas) * MultiplierOf(value) else 0)
    decreases |inputs|
  {
    if inputs != [] {
      var n := |inputs| - 1;
      var prefix := inputs[..n];
      assert InputIdsUnique(prefix);
      InputsGasFreshValue(variableGas, prefix, values, key, value);
      if inputs[n].id == key {
        assert !HasGasInput(prefix, key);
        assert HasGasInput(inputs, key) <==> inputs[n].affectsGas;
      } else {
        assert HasGasInput(inputs, key) <==> HasGasInput(prefix, key) by {
          if HasGasInput(inputs, key) {
            var i :| 0 <= i < |inputs| && inputs[i].id == key && inputs[i].affectsGas;
            assert i < n && prefix[i] == inputs[i];
          }
          if HasGasInput(prefix, key) {
            var i :| 0 <= i < |prefix| && prefix[i].id == key && prefix[i].affectsGas;
            assert inputs[i] == prefix[i];
          }
        }
      }
    }
  }

  lemma GasUnitsFreshValue(estimate: GasEstimate, values: InputValues, key: string, value: string)
    requires InputIdsUnique(estimate.inputs)
    requires !HasValue(values, key) && value != ""
    ensures GasUnits(estimate, values[key := value])
            == GasUnits(estimate, values)
               + (if HasGasInput(estimate.inputs, key)
                  then VariableGasOrZero(estimate.variableGas) * MultiplierOf(value) else 0)
  {
    InputsGasFreshValue(estimate.variableGas, estimate.inputs, values, key, value);
  }

  /** Inputs that differ only in their declared gasMultiplier. */
  predicate SameExceptWeights(a: seq<InputField>, b: seq<InputField>)
  {
    |a| == |b| && forall i :: 0 <= i < |a| ==> a[i].(gasMultiplier := b[i].gasMultiplier) == b[i]
  }

  /** gasMultiplier is never read: changing it changes no total. */
  lemma {:induction false} InputsGasIgnoresGasMultiplier(variableGas: Option<nat>, a: seq<InputField>, b: seq<InputField>, values: InputValues)
    requires SameExceptWeights(a, b)
    ensures InputsGas(variableGas, a, values) == InputsGas(variableGas, b, values)
    decreases |a|
  {
    if a != [] {
      var n := |a| - 1;
      assert SameExceptWeights(a[..n], b[..n]);
      InputsGasIgnoresGasMultiplier(variableGas, a[..n], b[..n], values);
      assert a[n].id == b[n].id && a[n].affectsGas == b[n].affectsGas;
    }
  }

  // ---------------------------------------------------------------------
  // Properties of the currency conversions

  /** EDS cost is gas times 0.000001 and USD cost is EDS cost times 0.0847;
      both are additive in the gas quantity. */
  lemma CostOfGasLinear(a: nat, b: nat)
    ensures CostOfGas(a).edsGasCost == a as real * 0.000001
    ensures CostOfGas(a).usdCost == CostOfGas(a).edsGasCost * 0.0847
    ensures CostOfGas(a + b).edsGasCost == CostOfGas(a).edsGasCost + CostOfGas(b).edsGasCost
    ensures CostOfGas(a + b).usdCost == CostOfGas(a).usdCost + CostOfGas(b).usdCost
  {
  }

  /** ETH cost is gas times 25 over 10^9, USD cost is ETH cost times 3245.67;
      doubling the gas doubles both, and both are additive. */
  lemma EthEquivalentLinear(a: nat, b: nat)
    ensures CalculateEthEquivalent(a).ethCost == a as real * 25.0 / 1000000000.0
    ensures CalculateEthEquivalent(a).usdCost == CalculateEthEquivalent(a).ethCost * 3245.67
    ensures CalculateEthEquivalent(2 * a).ethCost == 2.0 * CalculateEthEquivalent(a).ethCost
    ensures CalculateEthEquivalent(2 * a).usdCost == 2.0 * CalculateEthEquivalent(a).usdCost
    ensures CalculateEthEquivalent(a + b).ethCost
            == CalculateEthEquivalent(a).ethCost + CalculateEthEquivalent(b).ethCost
    ensures CalculateEthEquivalent(a + b).usdCost
            == CalculateEthEquivalent(a).usdCost + CalculateEthEquivalent(b).usdCost
  {
  }

  /** A plain transfer's 21000 Ethereum gas costs 0.000525 ETH. */
  lemma EthEquivalentOfTransfer()
    ensures CalculateEthEquivalent(21000).ethCost == 0.000525
    ensures CalculateEthEquivalent(21000).usdCost == 0.000525 * 3245.67
  {
  }

  /** The Ethereum USD cost is zero exactly when the Ethereum gas figure is zero. */
  lemma EthUsdZeroIff(ethGas: nat)
    ensures CalculateEthEquivalent(ethGas).usdCost == 0.0 <==> ethGas == 0
  {
  }
}
