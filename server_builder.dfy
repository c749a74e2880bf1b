/**
 * The inline server builder: the same order record and steps 1..4 as the
 * dialog, but no ticket step; its submit button hands the configuration to
 * the `onPay` callback instead, modelled as the method's result.
 */
module ServerBuilder {
  import opened Optional
  import opened ServerOrder

  class Builder {
    var step: int
    var config: ServerConfig

    /** The step never leaves the range of the four form steps. */
    ghost predicate Valid()
      reads this
    {
      1 <= step <= 4
    }

    /** What enabled buttons keep: a type is chosen from step 2 on. */
    ghost predicate Guarded()
      reads this
    {
      step >= 2 ==> config.kind != Unselected
    }

    constructor ()
      ensures Valid() && Guarded()
      ensures step == 1 && config == DefaultConfig
    {
      step := 1;
      config := DefaultConfig;
    }

    /** `handleTypeSelect`: sets the type and nothing else. */
    method HandleTypeSelect(kind: ChosenType)
      requires Valid()
      modifies this
      ensures Valid() && (old(Guarded()) ==> Guarded())
      ensures config == old(config).(kind := kind) && step == old(step)
    {
      config := config.(kind := kind);
    }

    /**
     * `handleNext`: advances below step 4 without looking at the type; only a
     * press of the enabled Next button is sure to keep Guarded.
     */
    method HandleNext()
      requires Valid()
      modifies this
      ensures Valid()
      ensures step == NextStep(old(step)) && config == old(config)
      ensures old(Guarded()) && !old(NextDisabled(step, config)) ==> Guarded()
    {
      if step < 4 {
        step := step + 1;
      }
    }

    /** `handlePrev`: goes back above step 1; on step 1 it does nothing. */
    method HandlePrev()
      requires Valid()
      modifies this
      ensures Valid() && (old(Guarded()) ==> Guarded())
      ensures step == PrevStep(old(step)) && config == old(config)
    {
      if step > 1 {
        step := step - 1;
      }
    }

    /** The four checkbox `onChange` handlers: store `checked` in that one field. */
    method HandleCheck(addon: Addon, checked: bool)
      requires Valid()
      modifies this
      ensures Valid() && (old(Guarded()) ==> Guarded())
      ensures config == SetAddon(old(config), addon, checked) && step == old(step)
    {
      config := SetAddon(config, addon, checked);
    }

    /** `handlePay`: calls `onPay` with the configuration as it stands exactly when a type is chosen. */
    method HandlePay() returns (paid: Option<ServerConfig>)
      ensures paid.Some? <==> !SubmitDisabled(config)
      ensures paid.Some? ==> paid.value == config
    {
      if config.kind != Unselected {
        paid := Some(config);
      } else {
        paid := None;
      }
    }

    /** `calculatePrice` for the current configuration: between 5 and 38. */
    method CalculatePrice() returns (price: nat)
      ensures price == Price(config)
      ensures 5 <= price <= 38
    {
      price := ServerOrder.CalculatePrice(config);
      PriceRange(config);
    }
  }
}
