/**
 * The order record shared by the two server-configuration wizards (the modal
 * dialog and the inline builder): the server type, the four add-on checkboxes,
 * the step arithmetic of the Next and Previous buttons, the button guards and
 * the price rule.
 */
module ServerOrder {

  /** The `type` field: `""` (Unselected) until one of the three kinds is picked. */
  datatype ServerType = Unselected | Community | Gaming | Other

  /** What a type button passes to `handleTypeSelect`: never `""`. */
  type ChosenType = t: ServerType | t != Unselected witness Community

  datatype ServerConfig = ServerConfig(
    kind: ServerType,
    withBot: bool,
    botManaged: bool,
    boostHelp: bool,
    promo: bool)

  /** The configuration a wizard starts with and returns to when it is closed. */
  const DefaultConfig := ServerConfig(Unselected, false, false, false, false)

  /** The four checkboxes of steps 2 and 3. */
  datatype Addon = WithBot | BotManaged | BoostHelp | Promo

  /** Every add-on, in the order the price rule visits them. */
  const Addons: seq<Addon> := [WithBot, BotManaged, BoostHelp, Promo]

  function Has(c: ServerConfig, a: Addon): bool {
    match a
    case WithBot => c.withBot
    case BotManaged => c.botManaged
    case BoostHelp => c.boostHelp
    case Promo => c.promo
  }

  /**
   * A checkbox's `onChange`: `setConfig({ ...config, [a]: checked })`.
   * Only that one field changes; in particular clearing `withBot` leaves
   * `botManaged` as it was.
   */
  function SetAddon(c: ServerConfig, a: Addon, checked: bool): (r: ServerConfig)
    ensures r.kind == c.kind
    ensures Has(r, a) == checked
    ensures forall b :: b != a ==> Has(r, b) == Has(c, b)
  {
    match a
    case WithBot => c.(withBot := checked)
    case BotManaged => c.(botManaged := checked)
    case BoostHelp => c.(boostHelp := checked)
    case Promo => c.(promo := checked)
  }

  /** The surcharge printed beside each checkbox, in euros. */
  function Surcharge(a: Addon): nat {
    match a
    case WithBot => 10
    case BotManaged => 15
    case BoostHelp => 5
    case Promo => 8
  }

  /** The sum of the surcharges of the add-ons in `addons` that `c` selects. */
  function Total(c: ServerConfig, addons: seq<Addon>): nat {
    if addons == [] then 0
    else (if Has(c, addons[0]) then Surcharge(addons[0]) else 0) + Total(c, addons[1..])
  }

  /** The price shown on the summary and the submit button: the surcharge sum, or 5 when that is 0. */
  function Price(c: ServerConfig): nat {
    var t := Total(c, Addons);
    if t == 0 then 5 else t
  }

  /** `calculatePrice`: adds each selected surcharge to `price` in turn, then `price || 5`. */
  method CalculatePrice(c: ServerConfig) returns (price: nat)
    ensures price == Price(c)
  {
    price := 0;
    if c.withBot { price := price + 10; }
    if c.botManaged { price := price + 15; }
    if c.boostHelp { price := price + 5; }
    if c.promo { price := price + 8; }
    TotalOfAllAddons(c);
    if price == 0 { price := 5; }
  }

  /** The surcharge sum over all four add-ons, written out field by field. */
  lemma TotalOfAllAddons(c: ServerConfig)
    ensures Total(c, Addons) ==
      (if c.withBot then 10 else 0) + (if c.botManaged then 15 else 0) +
      (if c.boostHelp then 5 else 0) + (if c.promo then 8 else 0)
  {
    var rest3: seq<Addon> := [Promo];
    var rest2: seq<Addon> := [BoostHelp, Promo];
    var rest1: seq<Addon> := [BotManaged, BoostHelp, Promo];
    assert rest3[1..] == [];
    assert Total(c, rest3) == if c.promo then 8 else 0;
    assert rest2[1..] == rest3;
    assert Total(c, rest2) == (if c.boostHelp then 5 else 0) + Total(c, rest3);
    assert rest1[1..] == rest2;
    assert Total(c, rest1) == (if c.botManaged then 15 else 0) + Total(c, rest2);
    assert Addons[1..] == rest1;
  }

  /** The price lies between the minimum fee 5 and 38, the price with every add-on. */
  lemma PriceRange(c: ServerConfig)
    ensures 5 <= Price(c) <= 38
    ensures Price(c) == 38 <==> c.withBot && c.botManaged && c.boostHelp && c.promo
  {
    TotalOfAllAddons(c);
  }

  /** The minimum fee: the surcharge sum is 0 exactly when no add-on is selected, and then the price is 5. */
  lemma PriceFloor(c: ServerConfig)
    ensures Total(c, Addons) == 0 <==> !c.withBot && !c.botManaged && !c.boostHelp && !c.promo
    ensures Total(c, Addons) == 0 ==> Price(c) == 5
    ensures Total(c, Addons) > 0 ==> Price(c) == Total(c, Addons)
  {
    TotalOfAllAddons(c);
  }

  /**
   * Checking an add-on that was clear never lowers the price; once some add-on
   * is selected it raises the price by exactly that add-on's surcharge.
   */
  lemma PriceOfCheckingAddon(c: ServerConfig, a: Addon)
    requires !Has(c, a)
    ensures Price(SetAddon(c, a, true)) >= Price(c)
    ensures Total(c, Addons) > 0 ==> Price(SetAddon(c, a, true)) == Price(c) + Surcharge(a)
  {
    TotalOfAllAddons(c);
    TotalOfAllAddons(SetAddon(c, a, true));
  }

  /** The managed-bot surcharge is charged on its own, whether or not `withBot` is set. */
  lemma BotManagedChargedWithoutBot(c: ServerConfig)
    requires c.botManaged && !c.withBot
    ensures Price(c) >= 15
    ensures Price(c) == 15 + (if c.boostHelp then 5 else 0) + (if c.promo then 8 else 0)
  {
    TotalOfAllAddons(c);
  }

  /** `handleNext`: one step forward, unless already on the summary step 4 or beyond. */
  function NextStep(step: int): (r: int)
    ensures step < 4 ==> r == step + 1
    ensures step >= 4 ==> r == step
    ensures 1 <= step <= 4 ==> 1 <= r <= 4
  {
    if step < 4 then step + 1 else step
  }

  /** `handlePrev`: one step back, unless already on step 1. */
  function PrevStep(step: int): (r: int)
    ensures step > 1 ==> r == step - 1
    ensures step <= 1 ==> r == step
    ensures 1 <= step <= 4 ==> 1 <= r <= 4
  {
    if step > 1 then step - 1 else step
  }

  /** The Next button's `disabled`: no type chosen while on step 1. */
  predicate NextDisabled(step: int, c: ServerConfig) {
    c.kind == Unselected && step == 1
  }

  /** The submit button's `disabled` (Finish in the modal, Pay in the builder): no type chosen. */
  predicate SubmitDisabled(c: ServerConfig) {
    c.kind == Unselected
  }
}
