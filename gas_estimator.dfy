/** The selection state of the GasEstimator component
    (src/components/GasEstimator.tsx) and the three values it derives from
    that state: the native gas result, the Ethereum comparison and the
    savings between them. */
module GasEstimatorState {
  import opened GasEstimates

  /** The savings shown to the user. `percent` is the unformatted percentage
      of the Ethereum USD cost saved; it is None where the source divides by
      a zero Ethereum cost (and JavaScript yields NaN or -Infinity, since the USD
      difference is then never positive). */
  datatype Savings = Savings(usd: real, percent: Option<real>)

  /** gasResult: nothing while no action is selected, otherwise the cost of
      the selected action for the current values. */
  function GasResultOf(selected: Option<GasEstimate>, values: InputValues): (r: Option<GasCost>)
    ensures r.None? <==> selected.None?
    ensures r.Some? ==> r.value == GasCostOf(selected.value, values)
    ensures r.Some? ==> r.value.gasUnits >= selected.value.baseGas
  {
    match selected
    case None => None
    case Some(action) => Some(GasCostOf(action, values))
  }

  /** ethResult: depends on the selected action only, never on the values. */
  function EthResultOf(selected: Option<GasEstimate>): (r: Option<EthCost>)
    ensures r.None? <==> selected.None?
    ensures r.Some? ==> r.value == CalculateEthEquivalent(selected.value.ethEquivalentGas)
  {
    match selected
    case None => None
    case Some(action) => Some(CalculateEthEquivalent(action.ethEquivalentGas))
  }

  /** savings: defined exactly when both results are; the USD difference and
      that difference as a percentage of the Ethereum USD cost. */
  function SavingsOf(gas: Option<GasCost>, eth: Option<EthCost>): (r: Option<Savings>)
    ensures r.None? <==> gas.None? || eth.None?
    ensures r.Some? ==> r.value.usd == eth.value.usdCost - gas.value.usdCost
    ensures r.Some? ==> (r.value.percent.None? <==> eth.value.usdCost == 0.0)
    ensures r.Some? && r.value.percent.Some? ==>
              r.value.percent.value * eth.value.usdCost == r.value.usd * 100.0
  {
    if gas.None? || eth.None? then None
    else
      var usd := eth.value.usdCost - gas.value.usdCost;
      var percent := if eth.value.usdCost == 0.0 then None else Some(usd / eth.value.usdCost * 100.0);
      Some(Savings(usd, percent))
  }

  /** With an action selected, the savings percentage is defined exactly when
      the action's Ethereum gas figure is not zero. */
  lemma SavingsPercentDefinedIff(action: GasEstimate, values: InputValues)
    ensures SavingsOf(GasResultOf(Some(action), values), EthResultOf(Some(action))).Some?
    ensures SavingsOf(GasResultOf(Some(action), values), EthResultOf(Some(action))).value.percent.Some?
            <==> action.ethEquivalentGas != 0
  {
    EthUsdZeroIff(action.ethEquivalentGas);
  }

  /** The component's state: `selectedAction`, `inputValues` and
      `isDropdownOpen`. The tooltip and documentation toggles are not modelled. */
  class GasEstimator {
    var selectedAction: Option<GasEstimate>
    var inputValues: InputValues
    var isDropdownOpen: bool

    /** The initial state: nothing selected, no values, dropdown closed. */
    constructor ()
      ensures selectedAction == None && inputValues == map[] && !isDropdownOpen
      ensures GasResultOf(selectedAction, inputValues) == None
      ensures SavingsOf(GasResultOf(selectedAction, inputValues), EthResultOf(selectedAction)) == None
    {
      selectedAction := None;
      inputValues := map[];
      isDropdownOpen := false;
    }

    /** handleInputChange: overwrite one value; the map update leaves every
        other key as it was. The selection, the dropdown and the Ethereum
        result are unchanged. */
    method HandleInputChange(inputId: string, value: string)
      modifies this
      ensures inputValues == old(inputValues)[inputId := value]
      ensures selectedAction == old(selectedAction) && isDropdownOpen == old(isDropdownOpen)
      ensures EthResultOf(selectedAction) == old(EthResultOf(selectedAction))
    {
      inputValues := inputValues[inputId := value];
    }

    /** handleActionSelect: select the action, clear every value and close the
        dropdown; the gas shown is then the action's base gas. */
    method HandleActionSelect(action: GasEstimate)
      modifies this
      ensures selectedAction == Some(action) && inputValues == map[] && !isDropdownOpen
      ensures GasResultOf(selectedAction, inputValues) == Some(CostOfGas(action.baseGas))
      ensures EthResultOf(selectedAction) == Some(CalculateEthEquivalent(action.ethEquivalentGas))
    {
      selectedAction := Some(action);
      inputValues := map[];
      isDropdownOpen := false;
      GasUnitsOfNoValues(action);
    }
  }
}
