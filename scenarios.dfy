/**
 * Concrete conversations: the behaviour the bot shows on particular texts,
 * including the two quirks of its keyword matching and of its reset.
 */
module Scenarios {
  import opened Wrappers
  import opened JsString
  import opened Menu
  import opened Conversation

  // Keyword absence, shown by naming a character of each keyword that the text lacks.

  lemma NotMenu(msg: string, a: char, b: char, c: char)
    requires a in "cardapio" && a !in msg && b in "cardápio" && b !in msg && c in "menu" && c !in msg
    ensures !IsMenuRequest(msg)
  {
    NotIncludesMissingChar(msg, "cardapio", a);
    NotIncludesMissingChar(msg, "cardápio", b);
    NotIncludesMissingChar(msg, "menu", c);
  }

  lemma NotGreeting(msg: string, a: char, b: char, c: char, d: char, e: char)
    requires a in "oi" && a !in msg && b in "olá" && b !in msg && c in "bom dia" && c !in msg
    requires d in "boa tarde" && d !in msg && e in "boa noite" && e !in msg
    ensures !IsGreeting(msg)
  {
    NotIncludesMissingChar(msg, "oi", a);
    NotIncludesMissingChar(msg, "olá", b);
    NotIncludesMissingChar(msg, "bom dia", c);
    NotIncludesMissingChar(msg, "boa tarde", d);
    NotIncludesMissingChar(msg, "boa noite", e);
  }

  /** Every greeting contains an 'o' and every menu keyword a 'c' or an 'm'. */
  lemma PlainText(msg: string)
    requires 'c' !in msg && 'm' !in msg && 'o' !in msg
    ensures !IsMenuRequest(msg) && !IsGreeting(msg)
  {
    NotMenu(msg, 'c', 'c', 'm');
    NotGreeting(msg, 'o', 'o', 'o', 'o', 'o');
  }

  /** Every refusal of a drink contains an 'n'. */
  lemma NotDecline(msg: string)
    requires 'n' !in msg
    ensures !DeclinesDrink(msg)
  {
    NotIncludesMissingChar(msg, "nao", 'n');
    NotIncludesMissingChar(msg, "não", 'n');
    NotIncludesMissingChar(msg, "finalizar", 'n');
  }

  // Facts about particular texts, each shown on its own so that no proof has
  // to unfold the keyword tests on several literal texts at once.

  lemma ThreePorFavorMenu(msg: string)
    requires msg == "3 por favor"
    ensures !IsMenuRequest(msg)
  {
    NotMenu(msg, 'c', 'c', 'm');
  }

  lemma ThreePorFavorGreeting(msg: string)
    requires msg == "3 por favor"
    ensures !IsGreeting(msg)
  {
    NotGreeting(msg, 'i', 'l', 'b', 'b', 'b');
  }

  lemma ThreePorFavorNumber(msg: string)
    requires msg == "3 por favor"
    ensures ParseInt(msg) == Some(3)
  {
    assert DecimalString(3) + " por favor" == msg;
    ParseIntDecimal(3, " por favor");
  }

  /** "3 por favor" picks the third meal, Vegana at 13.00. */
  lemma NumberWithWords(s: Session)
    requires s.state == ESCOLHENDO_MARMITA
    ensures Step(s, "3 por favor").session == Session(ESCOLHENDO_BEBIDA, [Meals[2]], s.address, s.total)
    ensures Meals[2].name == "Vegana" && Meals[2].price == 1300
  {
    ThreePorFavorMenu("3 por favor");
    ThreePorFavorGreeting("3 por favor");
    ThreePorFavorNumber("3 por favor");
  }

  lemma SeisFacts(msg: string)
    requires msg == "seis"
    ensures !IsMenuRequest(msg) && !IsGreeting(msg) && ParseInt(msg) == None
  {
    PlainText(msg);
    ParseIntNaN(msg);
  }

  /**
   * Any integer numeral outside 1..5 (zero, a negative number, a number above
   * 5), or a number written in words, keeps the customer choosing a meal.
   */
  lemma MealOutOfRange(s: Session, n: int)
    requires s.state == ESCOLHENDO_MARMITA && (n < 1 || n > 5)
    ensures Step(s, SignedString(n)) == Transition(s, MealReprompt, None)
    ensures Step(s, "seis") == Transition(s, MealReprompt, None)
  {
    var msg := SignedString(n);
    assert 'c' !in msg && 'm' !in msg && 'o' !in msg by {
      var z := DecimalString(if n < 0 then -n else n);
      assert forall i :: 0 <= i < |z| ==> '0' <= z[i] <= '9';
      assert msg == z || msg == "-" + z;
    }
    PlainText(msg);
    assert msg + "" == msg;
    ParseIntSigned(n, "");
    SeisFacts("seis");
  }

  /** "confirmar" is no greeting: its only 'o' is followed by an 'n'. */
  lemma ConfirmarGreeting(msg: string)
    requires msg == "confirmar"
    ensures !IsGreeting(msg)
  {
    NotIncludesMissingChar(msg[2..], "oi", 'o');
    assert msg[1..][1..] == msg[2..];
    assert msg[1..][1] == 'n' && msg[0] == 'c';
    IncludesScan(msg[1..], "oi");
    IncludesScan(msg, "oi");
    NotIncludesMissingChar(msg, "olá", 'l');
    NotIncludesMissingChar(msg, "bom dia", 'b');
    NotIncludesMissingChar(msg, "boa tarde", 'b');
    NotIncludesMissingChar(msg, "boa noite", 'b');
  }

  lemma ConfirmarKeywords(msg: string)
    requires msg == "confirmar"
    ensures !IsMenuRequest(msg) && !IsGreeting(msg) && IsConfirmation(msg)
  {
    NotMenu(msg, 'p', 'p', 'e');
    ConfirmarGreeting(msg);
    IncludesAt(msg, "confirmar", 0);
  }

  const Address: string := "rua das flores, 123"

  lemma AddressMenu(msg: string)
    requires msg == Address
    ensures !IsMenuRequest(msg)
  {
    NotMenu(msg, 'c', 'c', 'm');
  }

  lemma AddressGreeting(msg: string)
    requires msg == Address
    ensures !IsGreeting(msg)
  {
    NotGreeting(msg, 'i', 'á', 'm', 't', 'i');
  }

  lemma OiFacts(msg: string)
    requires msg == "oi"
    ensures !IsMenuRequest(msg) && IsGreeting(msg)
  {
    NotMenu(msg, 'c', 'c', 'm');
    IncludesAt(msg, "oi", 0);
  }

  lemma TwoFacts(msg: string)
    requires msg == "2"
    ensures !IsMenuRequest(msg) && !IsGreeting(msg) && !DeclinesDrink(msg) && ParseInt(msg) == Some(2)
  {
    PlainText(msg);
    NotDecline(msg);
    assert DecimalString(2) + "" == msg;
    ParseIntDecimal(2, "");
  }

  /** The session after Frango and a Suco Natural are chosen and the address given. */
  const FrangoWithJuiceToConfirm: Session :=
    Session(CONFIRMANDO, [Meals[1], Drinks[1]], Some(Address), 2200)

  lemma FrangoWithJuiceGreeting()
    ensures Step(NewSession(), "oi").session == Session(ESCOLHENDO_MARMITA, [], None, 0)
  {
    OiFacts("oi");
  }

  lemma MealTwo(s: Session, msg: string)
    requires s == Session(ESCOLHENDO_MARMITA, [], None, 0) && msg == "2"
    ensures Step(s, msg).session == Session(ESCOLHENDO_BEBIDA, [Meals[1]], None, 0)
  {
    TwoFacts(msg);
    assert InRange(ParseInt(msg), 1, 5);
    assert Meals[ParseInt(msg).value - 1] == Meals[1];
    assert SelectMeal(s, msg).session == Session(ESCOLHENDO_BEBIDA, [Meals[1]], None, 0);
    assert Step(s, msg) == SelectMeal(s, msg);
  }

  lemma DrinkTwo(s: Session, msg: string)
    requires s == Session(ESCOLHENDO_BEBIDA, [Meals[1]], None, 0) && msg == "2"
    ensures Step(s, msg).session == Session(COLETANDO_ENDERECO, [Meals[1], Drinks[1]], None, 0)
  {
    TwoFacts(msg);
    assert InRange(ParseInt(msg), 1, 3);
    assert Drinks[ParseInt(msg).value - 1] == Drinks[1];
    assert SelectDrink(s, msg).session == s.(cart := s.cart + [Drinks[1]], state := COLETANDO_ENDERECO);
    assert [Meals[1]] + [Drinks[1]] == [Meals[1], Drinks[1]];
    assert Step(s, msg) == SelectDrink(s, msg);
  }

  lemma AddressLength(msg: string)
    requires msg == Address
    ensures Utf16Length(msg) >= MinAddressLength
  {
    assert forall i :: 0 <= i < |msg| ==> msg[i] as int < 0x1_0000;
    Utf16LengthBmp(msg);
  }

  lemma FrangoWithJuiceSubtotal()
    ensures Subtotal([Meals[1], Drinks[1]]) == 1900
  {
    SubtotalAppend([], Meals[1]);
    assert [Meals[1]] + [Drinks[1]] == [Meals[1], Drinks[1]];
    SubtotalAppend([Meals[1]], Drinks[1]);
  }

  lemma FrangoWithJuiceAddress()
    ensures Step(Session(COLETANDO_ENDERECO, [Meals[1], Drinks[1]], None, 0), Address).session
         == FrangoWithJuiceToConfirm
  {
    var s := Session(COLETANDO_ENDERECO, [Meals[1], Drinks[1]], None, 0);
    AddressMenu(Address);
    AddressGreeting(Address);
    HandlerDispatch(s, Address);
    AddressLength(Address);
    FrangoWithJuiceSubtotal();
    assert CollectAddress(s, Address).session == FrangoWithJuiceToConfirm;
  }

  /**
   * Frango with a Suco Natural: the total is 14.00 + 5.00 + 3.00 = 22.00, the
   * order logged carries it, and the session goes back to INICIO with an empty
   * cart while the address and the total stay behind.
   */
  lemma FrangoWithJuice()
    ensures Run(NewSession(), ["oi", "2", "2", Address]) == FrangoWithJuiceToConfirm
    ensures Step(FrangoWithJuiceToConfirm, "confirmar")
         == Transition(Session(INICIO, [], Some(Address), 2200), OrderConfirmed(2200),
                       Some(Order([Meals[1], Drinks[1]], Some(Address), 2200, CONFIRMADO)))
  {
    FrangoWithJuiceGreeting();
    MealTwo(Session(ESCOLHENDO_MARMITA, [], None, 0), "2");
    DrinkTwo(Session(ESCOLHENDO_BEBIDA, [Meals[1]], None, 0), "2");
    FrangoWithJuiceAddress();
    RunCons(NewSession(), "oi", ["2", "2", Address]);
    RunCons(Session(ESCOLHENDO_MARMITA, [], None, 0), "2", ["2", Address]);
    RunCons(Session(ESCOLHENDO_BEBIDA, [Meals[1]], None, 0), "2", [Address]);
    RunCons(Session(COLETANDO_ENDERECO, [Meals[1], Drinks[1]], None, 0), Address, []);
    ConfirmarKeywords("confirmar");
  }

  lemma CancelarKeywords(msg: string)
    requires msg == "cancelar"
    ensures !IsMenuRequest(msg) && !IsGreeting(msg) && !IsConfirmation(msg) && IsCancellation(msg)
  {
    NotMenu(msg, 'd', 'd', 'm');
    NotGreeting(msg, 'o', 'o', 'o', 'o', 'o');
    NotIncludesMissingChar(msg, "confirmar", 'o');
    NotIncludesMissingChar(msg, "confirmo", 'o');
    NotIncludesMissingChar(msg, "sim", 's');
    IncludesAt(msg, "cancelar", 0);
  }

  /**
   * Cancelling clears only state and cart: the next order starts with the old
   * address and total, and until a new address is collected the total no
   * longer matches the cart.
   */
  lemma CancelLeavesStaleTotal()
    ensures var s := Run(Session(CONFIRMANDO, [Meals[1], Drinks[1]], Some(Address), 2200),
                         ["cancelar", "3"]);
      && s == Session(ESCOLHENDO_MARMITA, [], Some(Address), 2200)
      && s.total != Subtotal(s.cart) + DeliveryFee
  {
    var s4 := Session(CONFIRMANDO, [Meals[1], Drinks[1]], Some(Address), 2200);
    CancelarKeywords("cancelar");
    var s5 := Session(INICIO, [], Some(Address), 2200);
    assert Step(s4, "cancelar").session == s5;
    PlainText("3");
    var s6 := Session(ESCOLHENDO_MARMITA, [], Some(Address), 2200);
    assert Step(s5, "3").session == s6;
    RunCons(s4, "cancelar", ["3"]);
    RunCons(s5, "3", []);
  }

  lemma OiapoqueFacts(msg: string)
    requires msg == "rua oiapoque, 45"
    ensures !IsMenuRequest(msg) && IsGreeting(msg)
  {
    NotMenu(msg, 'c', 'c', 'm');
    assert msg[4..6] == "oi";
    IncludesAt(msg, "oi", 4);
  }

  /**
   * An address that happens to contain "oi" is taken as a greeting: the
   * customer is sent back to meal selection and the address is not stored.
   */
  lemma AddressWithOiRestarts(s: Session)
    requires s.state == COLETANDO_ENDERECO
    ensures Step(s, "rua oiapoque, 45") == Transition(s.(state := ESCOLHENDO_MARMITA), Welcome, None)
  {
    OiapoqueFacts("rua oiapoque, 45");
    GreetingRestarts(s, "rua oiapoque, 45");
  }

  /** "boa noite" restarts the flow whatever state the customer is in. */
  lemma GoodEveningRestarts(s: Session)
    ensures Step(s, "boa noite").session == s.(state := ESCOLHENDO_MARMITA)
  {
    NotMenu("boa noite", 'c', 'c', 'm');
    IncludesAt("boa noite", "boa noite", 0);
    GreetingRestarts(s, "boa noite");
  }

  lemma MenuAndGreetingFacts(msg: string)
    requires msg == "oi, qual o menu?"
    ensures IsMenuRequest(msg) && IsGreeting(msg)
  {
    assert msg[11..15] == "menu";
    IncludesAt(msg, "menu", 11);
    IncludesAt(msg, "oi", 0);
  }

  /** A menu keyword wins over a greeting in the same message. */
  lemma MenuBeatsGreeting(s: Session)
    ensures Step(s, "oi, qual o menu?") == Transition(s, MenuCard, None)
  {
    MenuAndGreetingFacts("oi, qual o menu?");
    MenuLeavesSession(s, "oi, qual o menu?");
  }

  lemma SimCancelarNoRestart(msg: string)
    requires msg == "sim, cancelar"
    ensures !IsMenuRequest(msg) && !IsGreeting(msg)
  {
    NotMenu(msg, 'd', 'd', 'u');
    NotGreeting(msg, 'o', 'o', 'o', 'o', 'o');
  }

  lemma SimCancelarFacts(msg: string)
    requires msg == "sim, cancelar"
    ensures !IsMenuRequest(msg) && !IsGreeting(msg) && IsConfirmation(msg) && IsCancellation(msg)
  {
    SimCancelarNoRestart(msg);
    IncludesAt(msg, "sim", 0);
    assert msg[5..13] == "cancelar";
    IncludesAt(msg, "cancelar", 5);
  }

  /** "sim, cancelar" confirms: the confirm keywords are tested first. */
  lemma ConfirmBeatsCancel(s: Session)
    requires s.state == CONFIRMANDO
    ensures Step(s, "sim, cancelar").order == Some(Order(s.cart, s.address, s.total, CONFIRMADO))
  {
    SimCancelarFacts("sim, cancelar");
    HandlerDispatch(s, "sim, cancelar");
    Confirmation(s, "sim, cancelar");
  }

  lemma HexParse(msg: string)
    requires msg == "0x3"
    ensures ParseInt(msg) == Some(3)
  {
    var t := TrimStart(msg);
    assert t == msg by {
      assert !IsJsSpace(msg[0]);
    }
    assert ParseInt(msg) == ParseMagnitude(msg);
    var z := LeadingDigits(msg[2..], 16);
    assert z == "3" by {
      assert msg[2..] == "3" && msg[2..][1..] == [];
      assert LeadingDigits(msg[2..], 16) == [msg[2]] + LeadingDigits(msg[2..][1..], 16);
    }
    assert DigitsValue(z, 16) == 3;
  }

  lemma HexFacts(msg: string)
    requires msg == "0x3"
    ensures !IsMenuRequest(msg) && !IsGreeting(msg) && ParseInt(msg) == Some(3)
  {
    PlainText(msg);
    HexParse(msg);
  }

  /** With no radix, parseInt reads "0x3" as hexadecimal 3, so it picks the third meal. */
  lemma HexNumberPicksMeal(s: Session)
    requires s.state == ESCOLHENDO_MARMITA
    ensures Step(s, "0x3").session.cart == [Meals[2]]
  {
    HexFacts("0x3");
    HandlerDispatch(s, "0x3");
    MealSelection(s, "0x3");
  }
}
