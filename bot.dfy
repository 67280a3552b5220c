/**
 * The bot as it runs: each customer record is an object whose fields the
 * handlers assign, and the bot keeps the `customerData` map from phone to
 * record. Every method is proved against the pure model of the conversation.
 */
module Bot {
  import opened Wrappers
  import opened JsString
  import opened Menu
  import opened Conversation
  import opened Store

  /** A record of `customerData`: `{state, cart, address, total}`. */
  class Customer {
    var state: string
    var cart: seq<Item>
    var address: Option<string>
    var total: nat

    /** The record's fields as a session value. */
    function Snapshot(): Session
      reads this
    {
      Session(state, cart, address, total)
    }

    /** The record created for a phone's first message. */
    constructor ()
      ensures Snapshot() == NewSession()
    {
      state := INICIO;
      cart := [];
      address := None;
      total := 0;
    }

    /**
     * The dispatcher of the message handler, in its fixed order: the menu
     * keyword; a greeting or the INICIO state; the handler of the current
     * state; the fallback text for a state outside STATES.
     */
    method Dispatch(msg: string) returns (reply: Reply, order: Option<Order>)
      modifies this
      ensures var t := Step(old(Snapshot()), msg);
        Snapshot() == t.session && reply == t.reply && order == t.order
    {
      order := None;
      if IsMenuRequest(msg) {
        reply := MenuCard;
      } else if IsGreeting(msg) || state == INICIO {
        reply := Welcome;
        state := ESCOLHENDO_MARMITA;
      } else if state == ESCOLHENDO_MARMITA {
        reply := HandleMarmitaSelection(msg);
      } else if state == ESCOLHENDO_BEBIDA {
        reply := HandleBebidaSelection(msg);
      } else if state == COLETANDO_ENDERECO {
        reply := HandleAddressCollection(msg);
      } else if state == CONFIRMANDO {
        reply, order := HandleConfirmation(msg);
      } else {
        reply := Fallback;
      }
    }

    /** handleMarmitaSelection: a number 1..5 replaces the cart with that meal. */
    method HandleMarmitaSelection(msg: string) returns (reply: Reply)
      modifies this
      ensures Snapshot() == SelectMeal(old(Snapshot()), msg).session
      ensures reply == SelectMeal(old(Snapshot()), msg).reply
    {
      var number := ParseInt(msg);
      if InRange(number, 1, 5) {
        var marmita := Meals[number.value - 1];
        cart := [marmita];
        state := ESCOLHENDO_BEBIDA;
        return MealChosen(marmita);
      }
      return MealReprompt;
    }

    /** handleBebidaSelection: a refusal first, then a number 1..3 appends that drink. */
    method HandleBebidaSelection(msg: string) returns (reply: Reply)
      modifies this
      ensures Snapshot() == SelectDrink(old(Snapshot()), msg).session
      ensures reply == SelectDrink(old(Snapshot()), msg).reply
    {
      if DeclinesDrink(msg) {
        state := COLETANDO_ENDERECO;
        return AddressRequest;
      }
      var number := ParseInt(msg);
      if InRange(number, 1, 3) {
        var bebida := Drinks[number.value - 1];
        cart := cart + [bebida];
        state := COLETANDO_ENDERECO;
        return DrinkAdded(bebida);
      }
      return DrinkReprompt;
    }

    /**
     * handleAddressCollection: a text of ten code units or more is stored as
     * the address, and the total is the cart's subtotal plus the delivery fee.
     */
    method HandleAddressCollection(msg: string) returns (reply: Reply)
      modifies this
      ensures Snapshot() == CollectAddress(old(Snapshot()), msg).session
      ensures reply == CollectAddress(old(Snapshot()), msg).reply
      ensures Utf16Length(msg) >= MinAddressLength ==> total == SumPrices(cart) + DeliveryFee
    {
      if Utf16Length(msg) < MinAddressLength {
        return AddressReprompt;
      }
      address := Some(msg);
      state := CONFIRMANDO;
      var subtotal := SubtotalOf(cart);
      var taxa := DeliveryFee;
      total := subtotal + taxa;
      SubtotalIsSum(cart);
      return OrderSummary(cart, subtotal, taxa, total, msg);
    }

    /**
     * handleConfirmation: a confirmation logs the order and resets state and
     * cart; a cancellation only resets them; address and total are kept.
     */
    method HandleConfirmation(msg: string) returns (reply: Reply, order: Option<Order>)
      modifies this
      ensures Snapshot() == Confirm(old(Snapshot()), msg).session
      ensures reply == Confirm(old(Snapshot()), msg).reply
      ensures order == Confirm(old(Snapshot()), msg).order
      ensures address == old(address) && total == old(total)
    {
      if IsConfirmation(msg) {
        order := Some(Order(cart, address, total, CONFIRMADO));
        state := INICIO;
        cart := [];
        return OrderConfirmed(total), order;
      }
      order := None;
      if IsCancellation(msg) {
        state := INICIO;
        cart := [];
        return OrderCancelled, order;
      }
      return ConfirmReprompt, order;
    }
  }

  /**
   * `cart.reduce((sum, item) => sum + item.preco, 0)` as the loop it performs:
   * the running sum over the items seen so far.
   */
  method SubtotalOf(cart: seq<Item>) returns (sum: nat)
    ensures sum == Subtotal(cart)
  {
    sum := 0;
    var i := 0;
    while i < |cart|
      invariant 0 <= i <= |cart|
      invariant sum == Subtotal(cart[..i])
    {
      assert cart[..i + 1] == cart[..i] + [cart[i]];
      SubtotalAppend(cart[..i], cart[i]);
      sum := sum + cart[i].price;
      i := i + 1;
    }
    assert cart[..i] == cart;
  }

  /** The bot's in-memory store: phone to customer record. */
  class OrderBot {
    var customerData: map<string, Customer>

    /** Each phone has its own record object. */
    ghost predicate Valid()
      reads this
    {
      forall p, q :: p in customerData && q in customerData && p != q ==> customerData[p] != customerData[q]
    }

    ghost function Records(): set<Customer>
      reads this
    {
      set p | p in customerData :: customerData[p]
    }

    /** The records' fields, phone by phone. */
    ghost function Sessions(): Store.Sessions
      reads this, Records()
    {
      map p | p in customerData :: customerData[p].Snapshot()
    }

    constructor ()
      ensures Valid() && Sessions() == map[]
    {
      customerData := map[];
    }

    /**
     * The `message` handler: ignored senders get no reply; otherwise the
     * body is lower-cased and trimmed and handed to the sender's record.
     */
    method HandleMessage(from: string, body: string) returns (reply: Option<Reply>, order: Option<Order>)
      requires Valid()
      modifies this, Records()
      ensures Valid()
      ensures Outcome(Sessions(), reply, order) == Deliver(old(Sessions()), from, body)
      ensures forall p :: p in old(customerData) ==> p in customerData && customerData[p] == old(customerData[p])
    {
      if IsIgnoredSender(from) {
        return None, None;
      }
      var msg := Normalize(body);
      var response;
      response, order := HandleFrom(from, msg);
      reply := Some(response);
    }

    /**
     * The sender's record is created if missing and the dispatcher runs on it.
     * Only the sender's record changes, and an existing record is updated in
     * place rather than replaced.
     */
    method HandleFrom(phone: string, msg: string) returns (reply: Reply, order: Option<Order>)
      requires Valid()
      modifies this, Records()
      ensures Valid()
      ensures var t := Step(SessionOf(old(Sessions()), phone), msg);
        Sessions() == old(Sessions())[phone := t.session] && reply == t.reply && order == t.order
      ensures forall p :: p in old(customerData) ==> p in customerData && customerData[p] == old(customerData[p])
    {
      var customer := RecordOf(phone);
      label Found:
      reply, order := customer.Dispatch(msg);
      OnlyRecordChanged@Found(phone);
    }

    /** When only one phone's record changed, only that phone's session did. */
    twostate lemma OnlyRecordChanged(phone: string)
      requires unchanged(this) && phone in customerData
      requires forall p :: p in customerData && p != phone ==> unchanged(customerData[p])
      ensures Sessions() == old(Sessions())[phone := customerData[phone].Snapshot()]
    {
    }

    /** `customerData.get(phone)`, after storing a fresh record for a new phone. */
    method RecordOf(phone: string) returns (customer: Customer)
      requires Valid()
      modifies this
      ensures Valid()
      ensures phone in customerData && customer == customerData[phone]
      ensures forall p :: p in customerData && p != phone ==> customerData[p] != customer
      ensures customer in old(Records()) || fresh(customer)
      ensures customer.Snapshot() == SessionOf(old(Sessions()), phone)
      ensures Sessions() == old(Sessions())[phone := SessionOf(old(Sessions()), phone)]
      ensures forall p :: p in old(customerData) ==> p in customerData && customerData[p] == old(customerData[p])
    {
      ghost var before := Sessions();
      if phone !in customerData {
        var record := new Customer();
        customerData := customerData[phone := record];
        assert Sessions() == before[phone := NewSession()] by {
          forall p | p in customerData && p != phone
            ensures customerData[p].Snapshot() == before[p]
          {
          }
        }
      }
      customer := customerData[phone];
    }
  }
}
