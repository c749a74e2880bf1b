/**
 * The server-configuration dialog: four form steps and a fifth "ticket"
 * step. Its four state cells (step, config, ticket number, copied flag) are
 * the fields of class ConfigModal; each handler is one Event, and Apply gives
 * the state a handler leaves behind. Enabled says which events the rendered
 * dialog lets the user trigger (the buttons shown on each step and their
 * `disabled` attributes); the handlers themselves do not check it.
 */
module ServerConfigModal {
  import opened ServerOrder
  import opened Tickets

  const TicketPrefix := "SRV"

  datatype ModalState = ModalState(step: int, config: ServerConfig, ticket: string, copied: bool)

  /** The state on opening, and the state `handleClose` restores. */
  const Initial := ModalState(1, DefaultConfig, "", false)

  datatype Event =
    | SelectType(kind: ChosenType)
    | Next
    | Prev
    | Check(addon: Addon, checked: bool)
    | Finish(now: nat, rendered: string)
    | Copy
    | Close

  /** The state after one handler, as the handler is written. */
  function Apply(s: ModalState, e: Event): (r: ModalState)
    ensures r.step != s.step ==> e.Next? || e.Prev? || e.Finish? || e.Close?
    ensures r.ticket != s.ticket ==> e.Finish? || e.Close?
    ensures r.copied != s.copied ==> e.Copy? || e.Close?
    ensures !e.Close? && s.config.kind != Unselected ==> r.config.kind != Unselected
    ensures !e.SelectType? && !e.Close? ==> r.config.kind == s.config.kind
  {
    match e
    case SelectType(k) => s.(config := s.config.(kind := k))
    case Next => s.(step := NextStep(s.step))
    case Prev => s.(step := PrevStep(s.step))
    case Check(a, v) => s.(config := SetAddon(s.config, a, v))
    case Finish(now, r) =>
      if s.config.kind != Unselected then s.(ticket := Ticket(TicketPrefix, now, r), step := 5) else s
    case Copy => s.(copied := true)
    case Close => Initial
  }

  /** Step 2 shows the bot checkbox, and the managed-bot one under it only while `withBot` is set; step 3 the other two. */
  predicate CheckboxShown(s: ModalState, a: Addon) {
    match a
    case WithBot => s.step == 2
    case BotManaged => s.step == 2 && s.config.withBot
    case BoostHelp => s.step == 3
    case Promo => s.step == 3
  }

  /** Whether the dialog, in state `s`, shows an enabled control that fires `e`. */
  predicate Enabled(s: ModalState, e: Event) {
    match e
    case SelectType(_) => s.step == 1
    case Next => s.step < 4 && !NextDisabled(s.step, s.config)
    case Prev => 1 < s.step < 5
    case Check(a, _) => CheckboxShown(s, a)
    case Finish(_, _) => s.step == 4 && !SubmitDisabled(s.config)
    case Copy => s.step == 5
    case Close => true
  }

  /**
   * What holds in every state the user can reach: the step is 1 to 5, a type
   * is chosen from step 2 on, a ticket exists exactly on step 5, and the
   * copied flag is only raised there.
   */
  ghost predicate Inv(s: ModalState) {
    1 <= s.step <= 5 &&
    (s.step >= 2 ==> s.config.kind != Unselected) &&
    (s.step == 5 <==> s.ticket != "") &&
    (s.copied ==> s.step == 5)
  }

  function Run(s: ModalState, es: seq<Event>): ModalState
    decreases |es|
  {
    if es == [] then s else Run(Apply(s, es[0]), es[1..])
  }

  /** Every event of `es` is enabled in the state it is applied to. */
  predicate EnabledRun(s: ModalState, es: seq<Event>)
    decreases |es|
  {
    es == [] || (Enabled(s, es[0]) && EnabledRun(Apply(s, es[0]), es[1..]))
  }

  lemma InitialInv()
    ensures Inv(Initial)
  {
  }

  /** An enabled event keeps the invariant. */
  lemma EnabledEventKeepsInv(s: ModalState, e: Event)
    requires Inv(s) && Enabled(s, e)
    ensures Inv(Apply(s, e))
  {
    match e
    case Finish(now, r) =>
      TicketFields(TicketPrefix, now, r);
      assert |Ticket(TicketPrefix, now, r)| > 0;
    case _ =>
  }

  /** Any run of enabled events from a reachable state ends in a reachable state. */
  lemma {:induction false} EnabledRunKeepsInv(s: ModalState, es: seq<Event>)
    requires Inv(s) && EnabledRun(s, es)
    ensures Inv(Run(s, es))
    decreases |es|
  {
    if es != [] {
      EnabledEventKeepsInv(s, es[0]);
      EnabledRunKeepsInv(Apply(s, es[0]), es[1..]);
    }
  }

  /** Once a type is chosen it never reverts to `""` until the dialog is closed. */
  lemma {:induction false} TypeNeverReverts(s: ModalState, es: seq<Event>)
    requires s.config.kind != Unselected
    requires forall i :: 0 <= i < |es| ==> es[i] != Close
    ensures Run(s, es).config.kind != Unselected
    decreases |es|
  {
    if es != [] {
      TypeNeverReverts(Apply(s, es[0]), es[1..]);
    }
  }

  /** Next and Previous alone keep the step within 1..4 and touch nothing else. */
  lemma {:induction false} NavigationStaysInForm(s: ModalState, es: seq<Event>)
    requires 1 <= s.step <= 4
    requires forall i :: 0 <= i < |es| ==> es[i] == Next || es[i] == Prev
    ensures 1 <= Run(s, es).step <= 4
    ensures Run(s, es).config == s.config && Run(s, es).ticket == s.ticket && Run(s, es).copied == s.copied
    decreases |es|
  {
    if es != [] {
      NavigationStaysInForm(Apply(s, es[0]), es[1..]);
    }
  }

  /**
   * The type guard of step 1 lives only in the Next button: `handleNext`
   * itself advances to step 2 with no type chosen, while that button is
   * disabled.
   */
  lemma NextHandlerIgnoresType()
    ensures !Enabled(Initial, Next)
    ensures Apply(Initial, Next).step == 2 && Apply(Initial, Next).config.kind == Unselected
    ensures !Inv(Apply(Initial, Next))
  {
  }

  /**
   * Clearing `withBot` keeps `botManaged`, whose checkbox is merely hidden,
   * and its surcharge is still in the price.
   */
  lemma UncheckingBotKeepsManagedBot(s: ModalState)
    requires s.step == 2 && s.config.withBot && s.config.botManaged
    ensures Enabled(s, Check(WithBot, false))
    ensures Apply(s, Check(WithBot, false)).config.botManaged
    ensures Price(Apply(s, Check(WithBot, false)).config) >= 15
  {
    BotManagedChargedWithoutBot(Apply(s, Check(WithBot, false)).config);
  }

  /**
   * Choose Gaming, Next, check the bot, Next, check promotion, Next: the
   * summary shows 18; Finish then shows a ticket and the price stays 18.
   */
  lemma GamingBotPromoScenario(now: nat, rendered: string)
    ensures var es := [SelectType(Gaming), Next, Check(WithBot, true), Next, Check(Promo, true), Next];
      var s := Run(Initial, es);
      EnabledRun(Initial, es) && s.step == 4 && Price(s.config) == 18 &&
      var f := Apply(s, Finish(now, rendered));
      Enabled(s, Finish(now, rendered)) && f.step == 5 && f.ticket != "" && Price(f.config) == 18
  {
    var es := [SelectType(Gaming), Next, Check(WithBot, true), Next, Check(Promo, true), Next];
    var s1 := Apply(Initial, SelectType(Gaming));
    var s2 := Apply(s1, Next);
    var s3 := Apply(s2, Check(WithBot, true));
    var s4 := Apply(s3, Next);
    var s5 := Apply(s4, Check(Promo, true));
    var s6 := Apply(s5, Next);
    assert Run(s6, []) == s6;
    assert Run(Initial, es) == s6 by {
      assert es[1..][1..][1..][1..][1..][1..] == [];
    }
    assert EnabledRun(Initial, es) by {
      assert es[1..][1..][1..][1..][1..][1..] == [];
    }
    TotalOfAllAddons(s6.config);
    TicketFields(TicketPrefix, now, rendered);
  }

  /** The component's state cells; every handler is a method. */
  class ConfigModal {
    var step: int
    var config: ServerConfig
    var ticketNumber: string
    var copied: bool

    function State(): ModalState
      reads this
    {
      ModalState(step, config, ticketNumber, copied)
    }

    constructor ()
      ensures State() == Initial
    {
      step := 1;
      config := DefaultConfig;
      ticketNumber := "";
      copied := false;
    }

    /** `handleTypeSelect`: sets the type and nothing else. */
    method HandleTypeSelect(kind: ChosenType)
      modifies this
      ensures State() == Apply(old(State()), SelectType(kind))
      ensures config == old(config).(kind := kind)
      ensures step == old(step) && ticketNumber == old(ticketNumber) && copied == old(copied)
    {
      config := config.(kind := kind);
    }

    /** `handleNext`: advances below step 4; it does not look at the type. */
    method HandleNext()
      modifies this
      ensures State() == Apply(old(State()), Next)
      ensures step == (if old(step) < 4 then old(step) + 1 else old(step))
      ensures config == old(config) && ticketNumber == old(ticketNumber) && copied == old(copied)
    {
      if step < 4 {
        step := step + 1;
      }
    }

    /** `handlePrev`: goes back above step 1; on step 1 it does nothing. */
    method HandlePrev()
      modifies this
      ensures State() == Apply(old(State()), Prev)
      ensures step == (if old(step) > 1 then old(step) - 1 else old(step))
      ensures config == old(config) && ticketNumber == old(ticketNumber) && copied == old(copied)
    {
      if step > 1 {
        step := step - 1;
      }
    }

    /** The four checkbox `onChange` handlers: store `checked` in that one field. */
    method HandleCheck(addon: Addon, checked: bool)
      modifies this
      ensures State() == Apply(old(State()), Check(addon, checked))
      ensures Has(config, addon) == checked && config.kind == old(config).kind
      ensures forall b :: b != addon ==> Has(config, b) == Has(old(config), b)
      ensures step == old(step) && ticketNumber == old(ticketNumber) && copied == old(copied)
    {
      config := SetAddon(config, addon, checked);
    }

    /** `handleFinish`: with a type chosen, stores a fresh ticket and moves to step 5; otherwise nothing. */
    method HandleFinish(now: nat, rendered: string)
      modifies this
      ensures State() == Apply(old(State()), Finish(now, rendered))
      ensures old(config).kind != Unselected ==>
        step == 5 && ticketNumber == Ticket(TicketPrefix, now, rendered)
      ensures old(config).kind == Unselected ==>
        step == old(step) && ticketNumber == old(ticketNumber)
      ensures config == old(config) && copied == old(copied)
    {
      if config.kind != Unselected {
        ticketNumber := Ticket(TicketPrefix, now, rendered);
        step := 5;
      }
    }

    /** `copyToClipboard`, as far as this state goes: raise the copied flag. */
    method CopyToClipboard()
      modifies this
      ensures State() == Apply(old(State()), Copy)
      ensures copied
      ensures step == old(step) && config == old(config) && ticketNumber == old(ticketNumber)
    {
      copied := true;
    }

    /** `handleClose`: back to step 1, the default configuration, no ticket, not copied. */
    method HandleClose()
      modifies this
      ensures State() == Apply(old(State()), Close)
      ensures step == 1 && config == DefaultConfig && ticketNumber == "" && !copied
    {
      step := 1;
      config := DefaultConfig;
      ticketNumber := "";
      copied := false;
    }

    /** `calculatePrice` for the current configuration: between 5 and 38. */
    method CalculatePrice() returns (price: nat)
      ensures price == Price(config)
      ensures 5 <= price <= 38
    {
      price := ServerOrder.CalculatePrice(config);
      PriceRange(config);
    }
  }
}
