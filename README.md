# Sabor Caseiro order bot — a verified model

This project models the core of `index.js`, a WhatsApp bot that takes lunch-box
orders (marmitas) for the "Sabor Caseiro" kitchen. Each phone has a customer
record in an in-memory map. Every inbound text runs one step of a five-state
conversation:

- INICIO: the first contact;
- ESCOLHENDO_MARMITA: choosing a meal;
- ESCOLHENDO_BEBIDA: choosing a drink;
- COLETANDO_ENDERECO: collecting the delivery address;
- CONFIRMANDO: confirming the order.

A confirmed order is logged with its items, address and total.

The model is organised in modules:

- `Menu` (`menu.dfy`): the catalog of five meals and three drinks, the delivery
  fee, and the subtotal computed by `cart.reduce`. Prices are integer cents.
- `JsString` (`jsstring.dfy`): the JavaScript built-ins the bot relies on.
  These are `includes`, `length` in UTF-16 code units, `toLowerCase`, `trim`
  and the global `parseInt`. `parseInt` skips white space, reads a sign and
  then the longest run of digits. A `0x` prefix switches it to hexadecimal,
  and NaN is modelled as `None`.
- `Conversation` (`conversation.dfy`): the conversation as pure functions:
  - a session value, and the four state handlers;
  - `Step`, the dispatcher, with its fixed priority: menu keyword first, then a
    greeting or the INICIO state, then the current state's handler, then the
    fallback text;
  - `Run`, which applies a sequence of messages;
  - `Inv`, the invariant of every reachable session.
- `Store` (`store.dfy`): the `message` event handler as a function over the map
  from phone to session:
  - group chats and status broadcasts are ignored;
  - the body is normalised;
  - a record is created lazily;
  - only the sender's session changes.
- `Bot` (`bot.dfy`): the same code in its imperative form:
  - a `Customer` object whose fields the handlers assign;
  - an `OrderBot` object holding the `customerData` map.

  Every method is proved against the pure functions above.
- `Scenarios` (`scenarios.dfy`): concrete conversations and quirks of the
  keyword matching, proved on literal texts.

Replies are an abstract datatype. Each reply records what the text says, such
as the chosen meal or the order summary with its subtotal, fee, total and
address. It does not record the wording or the emoji.

Behaviours the code has that are easy to miss:

- A message asking for the menu never moves the conversation on, even when it
  is the very first message. The session then stays in INICIO, and the next
  message that is not a menu request welcomes the customer
  (`Store.FirstMessageWelcomes`).
- Keyword tests are substring tests. An address such as "rua oiapoque, 45"
  contains "oi", so it restarts the flow instead of being stored as the
  address (`Scenarios.AddressWithOiRestarts`).
- "sim, cancelar" confirms the order, because the confirm keywords are tested
  first (`Scenarios.ConfirmBeatsCancel`).
- Confirming and cancelling reset only the state and the cart. The old address
  and total stay in the record (`Scenarios.CancelLeavesStaleTotal`).
- `parseInt` reads "3 por favor" as 3 and "0x3" as 3. It reads "seis" as NaN,
  and "0" or "-3" as numbers outside 1..5, so all of these except the first
  two re-prompt for a meal (`Scenarios.NumberWithWords`,
  `Scenarios.HexNumberPicksMeal`, `Scenarios.MealOutOfRange`).
- The length check on the address counts UTF-16 code units, so a character
  outside the Basic Multilingual Plane counts twice.

## Model

| member | source | states |
|---|---|---|
| Menu.SubtotalIsSum | index.js:229 | the left fold `reduce` computes equals the plain sum of the item prices |
| Menu.SubtotalAppend | index.js:184 | appending a drink raises the subtotal by exactly its price |
| Menu.OrderTotalBounds | index.js:12-25 | any order of one catalog meal and at most one catalog drink, plus the R$ 3,00 fee, costs between R$ 16,00 and R$ 26,00 |
| Bot.SubtotalOf | index.js:229 | the loop over the cart returns the subtotal of the whole cart |
| JsString.IncludesScan | index.js:76 | `includes` holds exactly when the keyword is a prefix of the text or is contained in the text's tail |
| JsString.IncludesAt | index.js:76 | a window of the text that spells the keyword makes `includes` true |
| JsString.NotIncludesMissingChar | index.js:79 | a text lacking one character of a keyword does not include that keyword |
| JsString.IncludesInContext | index.js:79 | a keyword contained in a text is still contained after text is added on either side |
| JsString.Utf16LengthBounds | index.js:215 | `length` counts between one and two code units per character |
| JsString.Utf16LengthBmp | index.js:215 | text inside the Basic Multilingual Plane has one code unit per character |
| JsString.LowerChar | index.js:58 | lower-casing yields no upper-case letter and changes exactly the upper-case letters |
| JsString.ToLowerAt | index.js:58 | `toLowerCase` keeps the length and lower-cases each character in place |
| JsString.TrimStartShape | index.js:58 | trimming the start leaves a suffix that begins with a non-space and cuts only white space |
| JsString.TrimEndShape | index.js:58 | trimming the end leaves a prefix that ends with a non-space and cuts only white space |
| JsString.TrimShape | index.js:58 | `trim` returns the slice between the leading and the trailing white space, and the slice neither starts nor ends with white space |
| JsString.NormalizeShape | index.js:58 | the normalised body has no upper-case letter and no white space at either end |
| JsString.TrimOfTrimmed | index.js:58 | `trim` leaves unchanged a text that does not start or end with white space |
| JsString.ToLowerOfLower | index.js:58 | `toLowerCase` leaves unchanged a text with no upper-case letter |
| JsString.NormalizeIdempotent | index.js:58 | normalising a body twice is the same as normalising it once |
| JsString.LeadingDigitsShape | index.js:146 | `parseInt` reads the longest prefix of digits: all of them are digits and the next character is not |
| JsString.DigitChar | index.js:146 | the numeral character of a digit has that digit's value |
| JsString.DecimalString | index.js:146 | the decimal numeral is non-empty, all digits, and has no leading zero unless it is 0 |
| JsString.DecimalStringValue | index.js:146 | the decimal numeral of n has the value n |
| JsString.LeadingDigitsOfNumeral | index.js:146 | the digit prefix of a numeral followed by a non-digit is exactly that numeral |
| JsString.ParseIntUnsigned | index.js:146 | a text starting with a decimal digit and no hex prefix parses to the value of its leading digits |
| JsString.ParseIntDecimal | index.js:146 | `parseInt` applied to the decimal numeral of n followed by a non-digit returns n |
| JsString.PositiveMagnitude | index.js:146 | after a sign, the numeral of a positive number followed by a non-digit is read back as that number |
| JsString.ParseIntSigned | index.js:146 | `parseInt` applied to the signed decimal numeral of any integer n, followed by a non-digit, returns n |
| JsString.ParseIntPlus | index.js:146 | a '+' sign before a positive numeral is read and dropped |
| JsString.ParseIntNaN | index.js:146 | a text whose first character is not white space, a sign or a digit parses to NaN |
| Conversation.NewSession | index.js:61-69 | a new record is in INICIO with an empty cart, no address and total 0 |
| Conversation.MenuLeavesSession | index.js:76-78 | a menu keyword shows the catalog and changes nothing, in any state |
| Conversation.MenuRequestsLeaveSession | index.js:76-78 | any number of menu requests in a row leave the session exactly as it was |
| Conversation.MenuRepeated | index.js:76-78 | asking for the menu twice still changes nothing and shows the catalog again |
| Conversation.GreetingRestarts | index.js:79-82 | without a menu keyword, a greeting, or any text in INICIO, moves to meal selection and keeps cart, address and total |
| Conversation.HandlerDispatch | index.js:83-97 | without a menu keyword or a greeting, each known state runs its own handler and any other state gets the fallback text |
| Conversation.MealSelection | index.js:145-173 | a number 1..5 makes the cart exactly the meal with that id and moves to drink selection; anything else changes nothing and reprompts |
| Conversation.DrinkSelection | index.js:175-197 | a refusal moves on with the cart unchanged; otherwise a number 1..3 appends the drink with id number + 5 after the meal; anything else changes nothing |
| Conversation.AddressCollection | index.js:214-250 | text shorter than ten code units changes nothing; longer text becomes the address, and the total is the sum of the cart's prices plus the fee |
| Conversation.Confirmation | index.js:252-291 | a confirm keyword logs the order with the cart, address and total and resets state and cart; a cancel keyword only resets them; anything else changes nothing |
| Conversation.OrderOnlyOnConfirmation | index.js:76-97 | an order is logged if and only if a confirmation arrives in CONFIRMANDO without a menu keyword or greeting |
| Conversation.RunCons | index.js:54-97 | running a message list is running its first message and then the rest |
| Conversation.NewSessionInv | index.js:61-69 | a new record satisfies the reachable-session invariant |
| Conversation.SelectMealPreservesInv | index.js:145-173 | meal selection keeps the invariant |
| Conversation.SelectDrinkPreservesInv | index.js:175-197 | drink selection keeps the invariant |
| Conversation.CollectAddressPreservesInv | index.js:214-250 | address collection keeps the invariant |
| Conversation.ConfirmPreservesInv | index.js:252-291 | confirmation and cancellation keep the invariant |
| Conversation.StepPreservesInv | index.js:76-97 | every message keeps the invariant: a known state; a cart that is empty or one catalog meal with an optional catalog drink, exactly one meal while choosing a drink and never empty from address collection on; an address, once set, of ten or more code units; a total of 0 or between 1600 and 2600 cents, equal to the subtotal plus the fee while confirming |
| Conversation.RunPreservesInv | index.js:54-97 | any sequence of messages keeps the invariant |
| Conversation.ReachableInv | index.js:54-97 | every session reached from a new record satisfies the invariant |
| Conversation.FallbackUnreachable | index.js:95-97 | in a reachable session the fallback text is never sent |
| Conversation.ConfirmingTotalBounds | index.js:226-232 | while confirming, the total is between R$ 16,00 and R$ 26,00 and an address of ten or more code units is set |
| Conversation.ConfirmedOrderWellFormed | index.js:253-262 | a logged order from a reachable session has a catalog cart, an address, a total equal to subtotal plus fee in the 16,00..26,00 range, and status 'confirmado' |
| Store.IgnoredSenderChangesNothing | index.js:55 | messages from groups or status broadcasts change no session and get no reply |
| Store.SenderSessionOnly | index.js:57-71 | any other message creates the sender's record if missing, stores the step's result only under the sender, and gets a reply |
| Store.DeliverOne | index.js:57-71 | one message changes only its sender's session |
| Store.Isolation | index.js:9 | however senders' messages interleave, each sender's session is the result of that sender's own messages alone |
| Store.FirstMessageWelcomes | index.js:61-82 | a new sender is welcomed into meal selection unless the first message asks for the menu, which leaves the record in INICIO |
| Store.AllInvUpdate | index.js:61-69 | storing a reachable session keeps every stored session reachable |
| Store.DeliverPreservesInv | index.js:54-97 | every message keeps every stored session reachable |
| Store.DeliverAllPreservesInv | index.js:54-97 | any sequence of messages keeps every stored session reachable |
| Store.FallbackNeverSent | index.js:95-97 | starting from an empty store, no sequence of messages leads to the fallback reply |
| Bot.Customer.constructor | index.js:62-68 | a new record object is in INICIO with an empty cart, no address and total 0 |
| Bot.Customer.Dispatch | index.js:75-97 | the record's fields, the reply and the logged order are exactly the pure dispatcher's result |
| Bot.Customer.HandleMarmitaSelection | index.js:145-173 | the fields and the reply are exactly the meal handler's result |
| Bot.Customer.HandleBebidaSelection | index.js:175-197 | the fields and the reply are exactly the drink handler's result, with the drink appended to the cart |
| Bot.Customer.HandleAddressCollection | index.js:214-250 | the fields and the reply are exactly the address handler's result, and an accepted address sets the total to the sum of prices plus the fee |
| Bot.Customer.HandleConfirmation | index.js:252-291 | the fields, reply and order are exactly the confirmation handler's result, and address and total are left as they were |
| Bot.OrderBot.constructor | index.js:9 | the store starts empty |
| Bot.OrderBot.HandleMessage | index.js:54-110 | the records after a message, the reply and the logged order are exactly the pure message handler's result, and existing records keep their identity |
| Bot.OrderBot.HandleFrom | index.js:71-97 | only the sender's record changes, to the dispatcher's result, and existing records are updated in place |
| Bot.OrderBot.OnlyRecordChanged | index.js:71-97 | if only one phone's record changed, only that phone's session changed |
| Bot.OrderBot.RecordOf | index.js:61-71 | the sender's record is the stored one, or a new INICIO record stored under the sender; no other phone shares it and no other record changes |
| Scenarios.NumberWithWords | index.js:145-151 | "3 por favor" picks the Vegana meal at R$ 13,00 |
| Scenarios.MealOutOfRange | index.js:145-148 | the numeral of any integer outside 1..5 (zero, negative or above 5), or "seis", leaves the session unchanged and re-prompts for a meal |
| Scenarios.FrangoWithJuice | index.js:79-262 | "oi", "2", "2" and an address lead to a R$ 22,00 order of Frango and Suco Natural, and confirming logs that order and returns to INICIO |
| Scenarios.CancelLeavesStaleTotal | index.js:282-285 | after cancelling, the next conversation starts with the old address and a total that no longer matches the cart |
| Scenarios.AddressWithOiRestarts | index.js:79-82 | while collecting the address, "rua oiapoque, 45" restarts meal selection instead of being stored |
| Scenarios.GoodEveningRestarts | index.js:79-82 | "boa noite" restarts meal selection from any state |
| Scenarios.MenuBeatsGreeting | index.js:76-79 | a text with both a menu keyword and a greeting shows the menu and changes nothing |
| Scenarios.ConfirmBeatsCancel | index.js:253 | while confirming, "sim, cancelar" logs the order |
| Scenarios.HexNumberPicksMeal | index.js:146-149 | `parseInt` reads "0x3" as hexadecimal 3, so the third meal is chosen |
| Scenarios.HexParse | index.js:146 | "0x3" parses to 3 |
| Scenarios.FrangoWithJuiceSubtotal | index.js:229 | Frango plus Suco Natural has subtotal R$ 19,00 |

## Left out

- WhatsApp connection and I/O: the `whatsapp-web.js` client, the QR code, the `ready` event and `client.initialize()` (index.js:4-6, 37-52, 294-297) are not modelled. The model starts where a message's sender and body are available.
- Sending and logging: `message.reply`, the `console.log` lines and the order log (index.js:99-104, 268) are not modelled. The reply is returned as a value, and the logged order is the `order` result of a step.
- Error handling: the `try`/`catch` that apologises on an exception (index.js:106-109) is not modelled. None of the modelled operations can fail.
- Reply texts: the strings built by `getWelcomeMessage`, `getMenu`, `getAddressRequest` and the summary and confirmation texts (index.js:112-143, 153-172, 187-196, 199-212, 216-222, 234-249, 270-290) become the `Reply` datatype. The `forEach` loops that only build those texts, and `toFixed` formatting, are therefore not modelled.
- Floating point: prices are exact integer cents instead of JavaScript numbers. The sums involved are small, so nothing is rounded either way.
- `toLowerCase` maps only the upper-case letters of the ASCII and Latin-1 blocks. Other scripts and the special cases of Unicode case mapping are not modelled.
- Strings are sequences of Unicode scalar values. `length` is computed as the UTF-16 code-unit count. Lone surrogates cannot occur in the model.
- `parseInt` returns an exact integer. Doubles lose precision only far beyond the 1..5 range the bot compares against.
- The order's `phone` field (always undefined, since the record has no `phone`) and its `date` field (a clock read) are not modelled.
- The record's `name` field is never read or written after creation and is not modelled.
- `activeOrders` (index.js:10) and the `node-cron` import are never used by the code and are not modelled.
- The meal descriptions (`desc`, index.js:14-18) only appear in reply texts, so they are not part of `Menu.Item`.
- Bot.OrderBot.HandleMessage: concurrency between the asynchronous handlers is not modelled. Messages are handled one at a time, in arrival order.
