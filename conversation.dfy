/**
 * The order-taking conversation as pure functions: a customer's session is a
 * value, and one inbound (already normalised) text takes it to the next
 * session, a reply, and at most one confirmed order.
 */
module Conversation {
  import opened Wrappers
  import opened JsString
  import opened Menu

  // ---------------------------------------------------------------------------
  // Conversation states: the values of the STATES table
  // ---------------------------------------------------------------------------

  const INICIO: string := "inicio"
  const ESCOLHENDO_MARMITA: string := "escolhendo_marmita"
  const ESCOLHENDO_BEBIDA: string := "escolhendo_bebida"
  const COLETANDO_ENDERECO: string := "coletando_endereco"
  const CONFIRMANDO: string := "confirmando"

  predicate IsKnownState(state: string)
  {
    state == INICIO || state == ESCOLHENDO_MARMITA || state == ESCOLHENDO_BEBIDA
    || state == COLETANDO_ENDERECO || state == CONFIRMANDO
  }

  // ---------------------------------------------------------------------------
  // Sessions, orders and replies
  // ---------------------------------------------------------------------------

  /** One customer's record; `address` is null until an address is collected. */
  datatype Session = Session(state: string, cart: seq<Item>, address: Option<string>, total: nat)

  /** The record a first message from a phone creates. */
  function NewSession(): (s: Session)
    ensures s.state == INICIO && s.cart == [] && s.address == None && s.total == 0
  {
    Session(INICIO, [], None, 0)
  }

  /** The order logged on confirmation (its phone and date are not modelled). */
  datatype Order = Order(items: seq<Item>, address: Option<string>, total: nat, status: string)

  const CONFIRMADO: string := "confirmado"

  /** The reply texts, by what they say rather than by their wording. */
  datatype Reply =
    | MenuCard                       // the full catalog with prices and fee
    | Welcome                        // greeting and the five meals
    | MealChosen(meal: Item)         // the chosen meal, its description, the drink options
    | MealReprompt                   // "type a number from 1 to 5"
    | AddressRequest                 // "send your full address"
    | DrinkAdded(drink: Item)        // the added drink, then the address request
    | DrinkReprompt                  // the drink options again
    | AddressReprompt                // "send your *complete* address"
    | OrderSummary(items: seq<Item>, subtotal: nat, fee: nat, total: nat, address: string)
    | OrderConfirmed(total: nat)     // success message with the total
    | OrderCancelled
    | ConfirmReprompt                // "type confirmar or cancelar"
    | Fallback                       // the message for a state outside STATES

  /** What one message does: the next session, the reply, and the order logged, if any. */
  datatype Transition = Transition(session: Session, reply: Reply, order: Option<Order>)

  // ---------------------------------------------------------------------------
  // Keyword tests: substring containment on the normalised text
  // ---------------------------------------------------------------------------

  predicate IsMenuRequest(msg: string)
  {
    Includes(msg, "cardapio") || Includes(msg, "cardápio") || Includes(msg, "menu")
  }

  predicate IsGreeting(msg: string)
  {
    Includes(msg, "oi") || Includes(msg, "olá") || Includes(msg, "bom dia")
    || Includes(msg, "boa tarde") || Includes(msg, "boa noite")
  }

  predicate DeclinesDrink(msg: string)
  {
    Includes(msg, "nao") || Includes(msg, "não") || Includes(msg, "finalizar")
  }

  predicate IsConfirmation(msg: string)
  {
    Includes(msg, "confirmar") || Includes(msg, "confirmo") || Includes(msg, "sim")
  }

  predicate IsCancellation(msg: string)
  {
    Includes(msg, "cancelar") || Includes(msg, "alterar")
  }

  // ---------------------------------------------------------------------------
  // State handlers
  // ---------------------------------------------------------------------------

  /** handleMarmitaSelection */
  function SelectMeal(s: Session, msg: string): Transition
  {
    var number := ParseInt(msg);
    if InRange(number, 1, 5) then
      var meal := Meals[number.value - 1];
      Transition(s.(cart := [meal], state := ESCOLHENDO_BEBIDA), MealChosen(meal), None)
    else
      Transition(s, MealReprompt, None)
  }

  /** handleBebidaSelection: declining is tested before the number. */
  function SelectDrink(s: Session, msg: string): Transition
  {
    if DeclinesDrink(msg) then
      Transition(s.(state := COLETANDO_ENDERECO), AddressRequest, None)
    else
      var number := ParseInt(msg);
      if InRange(number, 1, 3) then
        var drink := Drinks[number.value - 1];
        Transition(s.(cart := s.cart + [drink], state := COLETANDO_ENDERECO), DrinkAdded(drink), None)
      else
        Transition(s, DrinkReprompt, None)
  }

  /** Messages shorter than this many UTF-16 code units are not taken as an address. */
  const MinAddressLength: nat := 10

  /** handleAddressCollection */
  function CollectAddress(s: Session, msg: string): Transition
  {
    if Utf16Length(msg) < MinAddressLength then
      Transition(s, AddressReprompt, None)
    else
      var subtotal := Subtotal(s.cart);
      var total := subtotal + DeliveryFee;
      Transition(s.(address := Some(msg), state := CONFIRMANDO, total := total),
                 OrderSummary(s.cart, subtotal, DeliveryFee, total, msg), None)
  }

  /** handleConfirmation: confirming is tested before cancelling; both reset only state and cart. */
  function Confirm(s: Session, msg: string): Transition
  {
    if IsConfirmation(msg) then
      var order := Order(s.cart, s.address, s.total, CONFIRMADO);
      Transition(s.(state := INICIO, cart := []), OrderConfirmed(s.total), Some(order))
    else if IsCancellation(msg) then
      Transition(s.(state := INICIO, cart := []), OrderCancelled, None)
    else
      Transition(s, ConfirmReprompt, None)
  }

  // ---------------------------------------------------------------------------
  // The dispatcher of the message handler
  // ---------------------------------------------------------------------------

  /**
   * Menu keyword first; then a greeting or the INICIO state restarts the flow;
   * then the handler of the current state; a state outside STATES gets the
   * fallback text.
   */
  function Step(s: Session, msg: string): Transition
  {
    if IsMenuRequest(msg) then Transition(s, MenuCard, None)
    else if IsGreeting(msg) || s.state == INICIO then
      Transition(s.(state := ESCOLHENDO_MARMITA), Welcome, None)
    else if s.state == ESCOLHENDO_MARMITA then SelectMeal(s, msg)
    else if s.state == ESCOLHENDO_BEBIDA then SelectDrink(s, msg)
    else if s.state == COLETANDO_ENDERECO then CollectAddress(s, msg)
    else if s.state == CONFIRMANDO then Confirm(s, msg)
    else Transition(s, Fallback, None)
  }

  /** The session after a sequence of messages, oldest first. */
  function Run(s: Session, msgs: seq<string>): Session
    decreases |msgs|
  {
    if msgs == [] then s else Run(Step(s, msgs[0]).session, msgs[1..])
  }

  /** Running a first message, then the rest. */
  lemma RunCons(s: Session, msg: string, rest: seq<string>)
    ensures Run(s, [msg] + rest) == Run(Step(s, msg).session, rest)
  {
    assert ([msg] + rest)[1..] == rest;
  }

  // ---------------------------------------------------------------------------
  // Reachable-state invariant
  // ---------------------------------------------------------------------------

  /**
   * Every session the bot can reach: a known state; a cart that is empty or one
   * meal with an optional drink, exactly one meal while choosing the drink, and
   * never empty from address collection on; a collected address of at least ten
   * code units; a total that is zero or an attainable order total, and that is
   * the subtotal plus the fee while confirming.
   */
  predicate Inv(s: Session)
  {
    && IsKnownState(s.state)
    && (s.cart == [] || IsOrderCart(s.cart))
    && (s.state == ESCOLHENDO_BEBIDA ==> |s.cart| == 1 && s.cart[0] in Meals)
    && (s.state == COLETANDO_ENDERECO || s.state == CONFIRMANDO ==> IsOrderCart(s.cart))
    && (s.address.Some? ==> Utf16Length(s.address.value) >= MinAddressLength)
    && (s.total == 0 || 1600 <= s.total <= 2600)
    && (s.state == CONFIRMANDO ==> s.address.Some? && s.total == Subtotal(s.cart) + DeliveryFee)
  }

  lemma NewSessionInv()
    ensures Inv(NewSession())
  {
  }

  lemma SelectMealPreservesInv(s: Session, msg: string)
    requires Inv(s) && s.state == ESCOLHENDO_MARMITA
    ensures Inv(SelectMeal(s, msg).session)
  {
  }

  lemma SelectDrinkPreservesInv(s: Session, msg: string)
    requires Inv(s) && s.state == ESCOLHENDO_BEBIDA
    ensures Inv(SelectDrink(s, msg).session)
  {
    if !DeclinesDrink(msg) && InRange(ParseInt(msg), 1, 3) {
      var drink := Drinks[ParseInt(msg).value - 1];
      assert (s.cart + [drink])[0] == s.cart[0];
    }
  }

  lemma CollectAddressPreservesInv(s: Session, msg: string)
    requires Inv(s) && s.state == COLETANDO_ENDERECO
    ensures Inv(CollectAddress(s, msg).session)
  {
    OrderTotalBounds(s.cart);
  }

  lemma ConfirmPreservesInv(s: Session, msg: string)
    requires Inv(s) && s.state == CONFIRMANDO
    ensures Inv(Confirm(s, msg).session)
  {
  }

  lemma StepPreservesInv(s: Session, msg: string)
    requires Inv(s)
    ensures Inv(Step(s, msg).session)
  {
    if !IsMenuRequest(msg) && !IsGreeting(msg) && s.state != INICIO {
      if s.state == ESCOLHENDO_MARMITA {
        SelectMealPreservesInv(s, msg);
      } else if s.state == ESCOLHENDO_BEBIDA {
        SelectDrinkPreservesInv(s, msg);
      } else if s.state == COLETANDO_ENDERECO {
        CollectAddressPreservesInv(s, msg);
      } else {
        ConfirmPreservesInv(s, msg);
      }
    }
  }

  lemma {:induction false} RunPreservesInv(s: Session, msgs: seq<string>)
    requires Inv(s)
    ensures Inv(Run(s, msgs))
    decreases |msgs|
  {
    if msgs != [] {
      StepPreservesInv(s, msgs[0]);
      RunPreservesInv(Step(s, msgs[0]).session, msgs[1..]);
    }
  }

  /** Every session reached from a fresh record satisfies the invariant. */
  lemma ReachableInv(msgs: seq<string>)
    ensures Inv(Run(NewSession(), msgs))
  {
    RunPreservesInv(NewSession(), msgs);
  }

  /** In a reachable session the fallback text is never produced. */
  lemma FallbackUnreachable(s: Session, msg: string)
    requires Inv(s)
    ensures Step(s, msg).reply != Fallback
  {
  }

  /** While confirming, the total lies between 16.00 and 26.00. */
  lemma ConfirmingTotalBounds(s: Session)
    requires Inv(s) && s.state == CONFIRMANDO
    ensures 1600 <= s.total <= 2600
    ensures s.address.Some? && Utf16Length(s.address.value) >= MinAddressLength
  {
    OrderTotalBounds(s.cart);
  }

  /** A confirmed order from a reachable session is complete and priced correctly. */
  lemma ConfirmedOrderWellFormed(s: Session, msg: string)
    requires Inv(s) && Step(s, msg).order.Some?
    ensures var o := Step(s, msg).order.value;
      && IsOrderCart(o.items)
      && o.address.Some? && Utf16Length(o.address.value) >= MinAddressLength
      && o.total == Subtotal(o.items) + DeliveryFee
      && 1600 <= o.total <= 2600
      && o.status == CONFIRMADO
  {
    OrderTotalBounds(s.cart);
  }

  // ---------------------------------------------------------------------------
  // Dispatch priority
  // ---------------------------------------------------------------------------

  /** A menu keyword shows the catalog and leaves the session alone, in any state. */
  lemma MenuLeavesSession(s: Session, msg: string)
    requires IsMenuRequest(msg)
    ensures Step(s, msg) == Transition(s, MenuCard, None)
  {
  }

  /** Asking for the menu twice gives the same catalog and still changes nothing. */
  lemma MenuRepeated(s: Session, msg: string)
    requires IsMenuRequest(msg)
    ensures Run(s, [msg, msg]) == s
    ensures Step(Step(s, msg).session, msg).reply == MenuCard
  {
    assert [msg, msg][1..] == [msg];
    assert [msg][1..] == [];
    assert Run(s, [msg]) == Run(s, []);
  }

  /** Any number of menu requests in a row leave the session exactly as it was. */
  lemma {:induction false} MenuRequestsLeaveSession(s: Session, msgs: seq<string>)
    requires forall i :: 0 <= i < |msgs| ==> IsMenuRequest(msgs[i])
    ensures Run(s, msgs) == s
    decreases |msgs|
  {
    if msgs != [] {
      MenuLeavesSession(s, msgs[0]);
      MenuRequestsLeaveSession(s, msgs[1..]);
    }
  }

  /**
   * Without a menu keyword, a greeting from any state, or any text at all in
   * INICIO, restarts meal selection and keeps cart, address and total.
   */
  lemma GreetingRestarts(s: Session, msg: string)
    requires !IsMenuRequest(msg)
    requires IsGreeting(msg) || s.state == INICIO
    ensures Step(s, msg).session == Session(ESCOLHENDO_MARMITA, s.cart, s.address, s.total)
    ensures Step(s, msg).reply == Welcome && Step(s, msg).order == None
  {
  }

  /** A state handler runs only when neither the menu nor the greeting branch fires. */
  lemma HandlerDispatch(s: Session, msg: string)
    requires !IsMenuRequest(msg) && !IsGreeting(msg)
    ensures s.state == ESCOLHENDO_MARMITA ==> Step(s, msg) == SelectMeal(s, msg)
    ensures s.state == ESCOLHENDO_BEBIDA ==> Step(s, msg) == SelectDrink(s, msg)
    ensures s.state == COLETANDO_ENDERECO ==> Step(s, msg) == CollectAddress(s, msg)
    ensures s.state == CONFIRMANDO ==> Step(s, msg) == Confirm(s, msg)
    ensures !IsKnownState(s.state) ==> Step(s, msg) == Transition(s, Fallback, None)
  {
  }

  // ---------------------------------------------------------------------------
  // The four handlers
  // ---------------------------------------------------------------------------

  /**
   * Choosing a meal: a number 1..5 at the front of the text makes the cart
   * exactly that meal and moves on to the drink; anything else changes nothing.
   */
  lemma MealSelection(s: Session, msg: string)
    ensures var t := SelectMeal(s, msg);
      && t.order == None
      && (InRange(ParseInt(msg), 1, 5) ==>
            var meal := Meals[ParseInt(msg).value - 1];
            && t.session.cart == [meal] && meal.id == ParseInt(msg).value
            && t.session.state == ESCOLHENDO_BEBIDA
            && t.session.address == s.address && t.session.total == s.total
            && t.reply == MealChosen(meal))
      && (!InRange(ParseInt(msg), 1, 5) ==> t.session == s && t.reply == MealReprompt)
  {
  }

  /**
   * Choosing a drink: a refusal moves on with the cart as it was; otherwise a
   * number 1..3 appends that drink, keeping the meal in front; anything else
   * changes nothing.
   */
  lemma DrinkSelection(s: Session, msg: string)
    ensures var t := SelectDrink(s, msg);
      && t.order == None
      && t.session.address == s.address && t.session.total == s.total
      && (DeclinesDrink(msg) ==>
            t.session.cart == s.cart && t.session.state == COLETANDO_ENDERECO && t.reply == AddressRequest)
      && (!DeclinesDrink(msg) && InRange(ParseInt(msg), 1, 3) ==>
            var drink := Drinks[ParseInt(msg).value - 1];
            && |t.session.cart| == |s.cart| + 1
            && t.session.cart[..|s.cart|] == s.cart && t.session.cart[|s.cart|] == drink
            && drink.id == ParseInt(msg).value + 5
            && t.session.state == COLETANDO_ENDERECO && t.reply == DrinkAdded(drink))
      && (!DeclinesDrink(msg) && !InRange(ParseInt(msg), 1, 3) ==>
            t.session == s && t.reply == DrinkReprompt)
  {
  }

  /**
   * Collecting the address: a text of fewer than ten code units changes
   * nothing; a longer one becomes the address, and the total is the price of
   * every item in the cart plus the delivery fee.
   */
  lemma AddressCollection(s: Session, msg: string)
    ensures var t := CollectAddress(s, msg);
      && t.order == None
      && (Utf16Length(msg) < MinAddressLength ==> t.session == s && t.reply == AddressReprompt)
      && (Utf16Length(msg) >= MinAddressLength ==>
            && t.session.address == Some(msg) && t.session.state == CONFIRMANDO
            && t.session.cart == s.cart
            && t.session.total == SumPrices(s.cart) + DeliveryFee
            && t.reply == OrderSummary(s.cart, SumPrices(s.cart), DeliveryFee, t.session.total, msg))
  {
    SubtotalIsSum(s.cart);
  }

  /**
   * Confirming: a confirm keyword wins over a cancel keyword; either resets
   * state and cart but not address or total; only confirming logs an order,
   * which carries the session's cart, address and total as they were.
   */
  lemma Confirmation(s: Session, msg: string)
    ensures var t := Confirm(s, msg);
      && (IsConfirmation(msg) ==>
            && t.session == Session(INICIO, [], s.address, s.total)
            && t.order == Some(Order(s.cart, s.address, s.total, CONFIRMADO))
            && t.reply == OrderConfirmed(s.total))
      && (!IsConfirmation(msg) && IsCancellation(msg) ==>
            t.session == Session(INICIO, [], s.address, s.total) && t.order == None
            && t.reply == OrderCancelled)
      && (!IsConfirmation(msg) && !IsCancellation(msg) ==>
            t.session == s && t.order == None && t.reply == ConfirmReprompt)
  {
  }

  /** Only a confirmation while confirming logs an order. */
  lemma OrderOnlyOnConfirmation(s: Session, msg: string)
    ensures Step(s, msg).order.Some? <==>
      !IsMenuRequest(msg) && !IsGreeting(msg) && s.state == CONFIRMANDO && IsConfirmation(msg)
  {
  }
}
