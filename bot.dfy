/**
 * The conversation router of bot.py: the entry point `start`, the four state
 * handlers, the `idle` fallback and the state table, driven by a `Session`
 * that holds the chat's conversation position and the stored auth token.
 *
 * A handler is a pure function of the event payload, the stored token and the
 * commerce API's answers (`Backend`, an abstract input). Its `Outcome` lists,
 * in order, what it does to the outside world (`Effect`s) and the label it
 * returns, or the routing error where the Python code would raise.
 */
module Bot {
  import opened Wrappers
  import opened PyText
  import opened Interfaces

  // ---------------------------------------------------------------------------
  // Inputs
  // ---------------------------------------------------------------------------

  datatype EventKind =
    | Command(name: string)          // "/start", "/cancel"
    | CallbackQuery(data: string)    // a tap on an inline button
    | TextMessage(text: string)      // free text typed into the chat

  /** An inbound update: the chat, the message that carries it, and its kind. */
  datatype Event = Event(chatId: int, messageId: int, kind: EventKind)

  /** How a customer creation ends: created, HTTP 409, or an invalid email. */
  datatype CustomerOutcome = Created | UserExists | InvalidEmail

  /**
   * The commerce API's answers, as functions of the request arguments (the
   * first argument of each is the token, the int one the cart name).
   */
  datatype Backend = Backend(
    accessToken: string -> string,                   // fetch_authorization_token(client_id)['access_token']
    products: string -> seq<Product>,                // fetch_products(token)['data']
    productById: (string, string) -> Product,        // fetch_product_by_id(token, id)['data']
    imageUrl: (string, string) -> string,            // fetch_image_by_id(token, id)['data']['link']['href']
    cartItems: (string, int) -> Cart,                // fetch_cart_items(token, cart_name)
    addToCart: (string, int, string, int) -> Cart,   // add_product_to_cart(token, cart_name, id, quantity)
    removeCartItem: (string, int, string) -> Cart,   // remove_cart_item_by_id(token, cart_name, item_id)
    createCustomer: (string, string) -> CustomerOutcome)  // create_customer(token, email)

  // ---------------------------------------------------------------------------
  // Outputs
  // ---------------------------------------------------------------------------

  datatype Request =
    | FetchToken(clientId: string)
    | FetchProducts(token: string)
    | FetchProduct(token: string, productId: string)
    | FetchImage(token: string, imageId: string)
    | FetchCart(token: string, cartName: int)
    | AddToCart(token: string, cartName: int, productId: string, quantity: int)
    | RemoveCartItem(token: string, cartName: int, itemId: string)
    | CreateCustomer(token: string, email: string)

  datatype Effect =
    | DeleteMessage(chatId: int, messageId: int)
    | Call(request: Request)
    | StoreToken(authToken: string)      // context.bot_data['auth_token'] = ...
    | Send(reply: Reply)

  /** A handler's return value: a state label, ConversationHandler.END, or None. */
  datatype Next = Goto(state: string) | EndConversation | NoLabel

  /** Where the Python handler raises on a malformed quantity payload. */
  datatype RoutingError =
    | WrongPartCount(payload: string, parts: nat)   // the tuple unpacking of query.split(';')
    | BadQuantity(quantity: string)                 // int(quantity)

  datatype Outcome = Outcome(effects: seq<Effect>, next: Result<Next, RoutingError>)

  // ---------------------------------------------------------------------------
  // The state table
  // ---------------------------------------------------------------------------

  const HandleMenuState: string := "HANDLE_MENU"
  const HandleDescriptionState: string := "HANDLE_DESCRIPTION"
  const HandleCartState: string := "HANDLE_CART"
  const WaitingEmailState: string := "WAITING_EMAIL"

  datatype Handler = MenuHandler | DescriptionHandler | CartHandler | EmailHandler

  /** The `states` of the ConversationHandler: label to the handler that serves it. */
  const StateTable: map<string, Handler> := map[
    HandleMenuState := MenuHandler,
    HandleDescriptionState := DescriptionHandler,
    HandleCartState := CartHandler,
    WaitingEmailState := EmailHandler]

  /** A returned label the router can look up: a key of the table, END or None. */
  predicate Known(n: Next)
  {
    n.Goto? ==> n.state in StateTable
  }

  // ---------------------------------------------------------------------------
  // What every callback handler promises
  // ---------------------------------------------------------------------------

  predicate IsCartRequest(r: Request)
  {
    r.FetchCart? || r.AddToCart? || r.RemoveCartItem?
  }

  /** The cart the API returns for a cart request. */
  function CartAnswer(b: Backend, r: Request): Cart
    requires IsCartRequest(r)
  {
    match r
    case FetchCart(t, c) => b.cartItems(t, c)
    case AddToCart(t, c, p, q) => b.addToCart(t, c, p, q)
    case RemoveCartItem(t, c, i) => b.removeCartItem(t, c, i)
  }

  predicate DeletesTrigger(o: Outcome, chatId: int, messageId: int)
  {
    |o.effects| > 0 && o.effects[0] == DeleteMessage(chatId, messageId)
  }

  /** Every API call carries the stored token, and every cart call names the chat's cart. */
  predicate RequestsFor(o: Outcome, chatId: int, token: string)
  {
    forall e :: e in o.effects && e.Call? ==>
      && !e.request.FetchToken?
      && e.request.token == token
      && (IsCartRequest(e.request) ==> e.request.cartName == chatId)
  }

  predicate StoresNoToken(effects: seq<Effect>)
  {
    forall e :: e in effects ==> !e.StoreToken?
  }

  /** Reaching HANDLE_MENU shows the catalog the API has just returned. */
  predicate ShowsReturnedCatalog(o: Outcome, b: Backend)
  {
    o.next == Success(Goto(HandleMenuState)) ==>
      && |o.effects| == 3 && o.effects[1].Call? && o.effects[1].request.FetchProducts?
      && o.effects[2] == Send(CatalogView(b.products(o.effects[1].request.token)))
  }

  /** Reaching HANDLE_CART shows the cart the API has just returned. */
  predicate ShowsReturnedCart(o: Outcome, b: Backend)
  {
    o.next == Success(Goto(HandleCartState)) ==>
      && |o.effects| == 3 && o.effects[1].Call? && IsCartRequest(o.effects[1].request)
      && o.effects[2] == Send(CartView(CartAnswer(b, o.effects[1].request)))
  }

  predicate CallbackHandlerContract(o: Outcome, chatId: int, messageId: int, token: string, b: Backend)
  {
    && DeletesTrigger(o, chatId, messageId)
    && RequestsFor(o, chatId, token)
    && StoresNoToken(o.effects)
    && ShowsReturnedCatalog(o, b)
    && ShowsReturnedCart(o, b)
    && (o.next.Success? ==> Known(o.next.value))
  }

  /** Delete the trigger, fetch the catalog, show it, and return HANDLE_MENU. */
  function ShowCatalog(chatId: int, messageId: int, token: string, b: Backend): (o: Outcome)
    ensures CallbackHandlerContract(o, chatId, messageId, token, b)
    ensures o.next == Success(Goto(HandleMenuState)) && o.effects[1] == Call(FetchProducts(token))
  {
    Outcome(
      [DeleteMessage(chatId, messageId), Call(FetchProducts(token)), Send(CatalogView(b.products(token)))],
      Success(Goto(HandleMenuState)))
  }

  /** Delete the trigger, make the cart request, show the cart it returns, and return HANDLE_CART. */
  function ShowCart(chatId: int, messageId: int, r: Request, b: Backend): (o: Outcome)
    requires IsCartRequest(r) && r.cartName == chatId
    ensures CallbackHandlerContract(o, chatId, messageId, r.token, b)
    ensures o.next == Success(Goto(HandleCartState)) && o.effects[1] == Call(r)
  {
    Outcome(
      [DeleteMessage(chatId, messageId), Call(r), Send(CartView(CartAnswer(b, r)))],
      Success(Goto(HandleCartState)))
  }

  /**
   * Delete the trigger, fetch the product and then its main image, show
   * them, and return HANDLE_DESCRIPTION.
   */
  function ShowProduct(chatId: int, messageId: int, productId: string, token: string, b: Backend): (o: Outcome)
    ensures CallbackHandlerContract(o, chatId, messageId, token, b)
    ensures o.next == Success(Goto(HandleDescriptionState))
    ensures
      var p := b.productById(token, productId);
      o.effects[1..] == [
        Call(FetchProduct(token, productId)),
        Call(FetchImage(token, p.imageId)),
        Send(ProductView(p, b.imageUrl(token, p.imageId)))]
  {
    var p := b.productById(token, productId);
    var effects := [
      DeleteMessage(chatId, messageId),
      Call(FetchProduct(token, productId)),
      Call(FetchImage(token, p.imageId)),
      Send(ProductView(p, b.imageUrl(token, p.imageId)))];
    assert effects[1..] == [effects[1], effects[2], effects[3]];
    Outcome(effects, Success(Goto(HandleDescriptionState)))
  }

  // ---------------------------------------------------------------------------
  // Handlers
  // ---------------------------------------------------------------------------

  /** The token the effects leave stored: the last one written, else `token`. */
  function StoredToken(token: Option<string>, effects: seq<Effect>): Option<string>
    decreases |effects|
  {
    if effects == [] then token
    else StoredToken(if effects[0].StoreToken? then Some(effects[0].authToken) else token, effects[1..])
  }

  lemma {:induction false} StoredTokenUnchanged(token: Option<string>, effects: seq<Effect>)
    requires StoresNoToken(effects)
    ensures StoredToken(token, effects) == token
  {
    if effects != [] {
      assert effects[0] in effects;
      StoredTokenUnchanged(token, effects[1..]);
    }
  }

  /** `start`: fetch a fresh token, store it, and show the catalog fetched with it. */
  function Start(chatId: int, messageId: int, clientId: string, b: Backend): (o: Outcome)
    ensures DeletesTrigger(o, chatId, messageId)
    ensures o.next == Success(Goto(HandleMenuState))
    ensures |o.effects| == 5 && o.effects[1] == Call(FetchToken(clientId))
    ensures forall t :: StoredToken(t, o.effects) == Some(b.accessToken(clientId))
    ensures o.effects[3] == Call(FetchProducts(b.accessToken(clientId)))
    ensures o.effects[4] == Send(CatalogView(b.products(b.accessToken(clientId))))
  {
    var token := b.accessToken(clientId);
    var effects := [
      DeleteMessage(chatId, messageId),
      Call(FetchToken(clientId)),
      StoreToken(token),
      Call(FetchProducts(token)),
      Send(CatalogView(b.products(token)))];
    forall t
      ensures StoredToken(t, effects) == Some(token)
    {
      assert effects[1..][1..] == effects[2..] && effects[2..][1..] == effects[3..];
      assert StoredToken(t, effects) == StoredToken(t, effects[1..]);
      assert StoredToken(t, effects[1..]) == StoredToken(t, effects[2..]);
      assert StoredToken(t, effects[2..]) == StoredToken(Some(token), effects[3..]);
      StoredTokenUnchanged(Some(token), effects[3..]);
    }
    Outcome(effects, Success(Goto(HandleMenuState)))
  }

  /** `handle_menu`: `'Cart'` shows the cart; any other payload is a product id. */
  function HandleMenu(chatId: int, messageId: int, data: string, token: string, b: Backend): (o: Outcome)
    ensures CallbackHandlerContract(o, chatId, messageId, token, b)
    ensures o.next == Success(Goto(if data == CartPayload then HandleCartState else HandleDescriptionState))
    ensures data == CartPayload ==> o.effects[1] == Call(FetchCart(token, chatId))
    ensures data != CartPayload ==>
      var p := b.productById(token, data);
      o.effects[1..] == [
        Call(FetchProduct(token, data)),
        Call(FetchImage(token, p.imageId)),
        Send(ProductView(p, b.imageUrl(token, p.imageId)))]
  {
    if data == CartPayload then
      ShowCart(chatId, messageId, FetchCart(token, chatId), b)
    else
      ShowProduct(chatId, messageId, data, token, b)
  }

  /**
   * `product_id, quantity = query.split(';')` followed by `int(quantity)`:
   * the payload must hold exactly one `;` and an int after it.
   */
  function ParseQuantityPayload(data: string): (r: Result<(string, int), RoutingError>)
    ensures r.Success? <==> |Split(data, ';')| == 2 && ParseInt(Split(data, ';')[1]).Some?
    ensures r.Success? ==>
      && ';' !in r.value.0
      && data == r.value.0 + ";" + Split(data, ';')[1]
      && ParseInt(Split(data, ';')[1]) == Some(r.value.1)
  {
    var parts := Split(data, ';');
    if |parts| != 2 then Failure(WrongPartCount(data, |parts|))
    else
      assert Join(parts, ';') == parts[0] + ";" + parts[1];
      match ParseInt(parts[1])
      case None => Failure(BadQuantity(parts[1]))
      case Some(q) => Success((parts[0], q))
  }

  /** Parsing a rendered quantity payload gives back the product id and quantity. */
  lemma QuantityPayloadRoundTrip(productId: string, quantity: int)
    requires ';' !in productId
    ensures ParseQuantityPayload(productId + ";" + IntToDecimal(quantity)) == Success((productId, quantity))
  {
    var q := IntToDecimal(quantity);
    assert ';' !in q by {
      if quantity < 0 {
        assert forall i :: 1 <= i < |q| ==> q[i] == q[1..][i - 1];
      }
    }
    assert Join([productId, q], ';') == productId + ";" + q;
    SplitOfJoin([productId, q], ';');
    ParseIntOfDecimal(quantity);
  }

  /**
   * `handle_description`: back to the catalog, to the cart, or add the
   * `id;quantity` selection to the chat's cart and show it.
   */
  function HandleDescription(chatId: int, messageId: int, data: string, token: string, b: Backend): (o: Outcome)
    ensures CallbackHandlerContract(o, chatId, messageId, token, b)
    ensures data == BackToMenuPayload ==>
      o.next == Success(Goto(HandleMenuState)) && o.effects[1] == Call(FetchProducts(token))
    ensures data == CartPayload ==>
      o.next == Success(Goto(HandleCartState)) && o.effects[1] == Call(FetchCart(token, chatId))
    ensures data != BackToMenuPayload && data != CartPayload ==>
      match ParseQuantityPayload(data)
      case Failure(e) => o == Outcome([DeleteMessage(chatId, messageId)], Failure(e))
      case Success(pq) =>
        o.next == Success(Goto(HandleCartState)) && o.effects[1] == Call(AddToCart(token, chatId, pq.0, pq.1))
    ensures o.next.Failure? <==>
      data != BackToMenuPayload && data != CartPayload && ParseQuantityPayload(data).Failure?
  {
    if data == BackToMenuPayload then
      ShowCatalog(chatId, messageId, token, b)
    else if data == CartPayload then
      ShowCart(chatId, messageId, FetchCart(token, chatId), b)
    else
      match ParseQuantityPayload(data)
      case Failure(e) => Outcome([DeleteMessage(chatId, messageId)], Failure(e))
      case Success((productId, quantity)) =>
        ShowCart(chatId, messageId, AddToCart(token, chatId, productId, quantity), b)
  }

  const EmailPrompt: string := "Enter your email:"

  /** `handle_cart`: back to the catalog, ask for an email, or remove an item by id. */
  function HandleCart(chatId: int, messageId: int, data: string, token: string, b: Backend): (o: Outcome)
    ensures CallbackHandlerContract(o, chatId, messageId, token, b)
    ensures o.next.Success?
    ensures data == BackToMenuPayload ==>
      o.next.value == Goto(HandleMenuState) && o.effects[1] == Call(FetchProducts(token))
    ensures data == PayPayload ==>
      o.next.value == Goto(WaitingEmailState) && o.effects[1..] == [Send(Text("Enter your email:"))]
    ensures data != BackToMenuPayload && data != PayPayload ==>
      o.next.value == Goto(HandleCartState) && o.effects[1] == Call(RemoveCartItem(token, chatId, data))
  {
    if data == BackToMenuPayload then
      ShowCatalog(chatId, messageId, token, b)
    else if data == PayPayload then
      Outcome([DeleteMessage(chatId, messageId), Send(Text(EmailPrompt))], Success(Goto(WaitingEmailState)))
    else
      ShowCart(chatId, messageId, RemoveCartItem(token, chatId, data), b)
  }

  /** The reply to a submitted email, one per way customer creation can end. */
  function EmailReply(email: string, c: CustomerOutcome): (r: string)
    ensures Contains(r, email)
  {
    var affixes := match c
      case InvalidEmail => ("Email ", " is incorrect.\nEnter your email:")
      case UserExists => ("User with email ", " exists already.")
      case Created => ("User with email ", " added to the DB.");
    var pre, post := affixes.0, affixes.1;
    assert OccursAt(pre + email + post, email, |pre|);
    pre + email + post
  }

  /** The reply tells the three outcomes apart, whatever the email. */
  lemma EmailReplyDetermines(email: string, c1: CustomerOutcome, c2: CustomerOutcome)
    requires EmailReply(email, c1) == EmailReply(email, c2)
    ensures c1 == c2
  {
    var r1, r2 := EmailReply(email, c1), EmailReply(email, c2);
    if c1 == InvalidEmail || c2 == InvalidEmail {
      assert r1[0] == r2[0];
    } else {
      var k := |"User with email "| + |email| + 1;
      assert r1[k] == r2[k];
    }
  }

  /** `wait_email`: try to create the customer, report how it went, and end. */
  function WaitEmail(chatId: int, messageId: int, email: string, token: string, b: Backend): (o: Outcome)
    ensures DeletesTrigger(o, chatId, messageId)
    ensures RequestsFor(o, chatId, token) && StoresNoToken(o.effects)
    ensures o.next == Success(EndConversation)
    ensures o.effects[1..] == [
      Call(CreateCustomer(token, email)),
      Send(Text(EmailReply(email, b.createCustomer(token, email))))]
  {
    Outcome(
      [DeleteMessage(chatId, messageId),
       Call(CreateCustomer(token, email)),
       Send(Text(EmailReply(email, b.createCustomer(token, email))))],
      Success(EndConversation))
  }

  /** `idle`, the `/cancel` fallback: does nothing visible and returns None. */
  function Idle(): (o: Outcome)
    ensures o.effects == [] && o.next == Success(NoLabel)
  {
    Outcome([], Success(NoLabel))
  }

  // ---------------------------------------------------------------------------
  // Routing an event to its handler
  // ---------------------------------------------------------------------------

  /** The chat's conversation position: not in a conversation, or at a label. */
  datatype Position = Outside | In(state: string)

  /**
   * Inside a conversation the label is one the table knows, and `start` has
   * already stored a token for the handlers to read.
   */
  predicate SessionInvariant(pos: Position, token: Option<string>)
  {
    pos.In? ==> pos.state in StateTable && token.Some?
  }

  function NextPosition(pos: Position, o: Outcome): Position
  {
    match o.next
    case Failure(_) => pos
    case Success(Goto(s)) => In(s)
    case Success(EndConversation) => Outside
    case Success(NoLabel) => pos
  }

  /**
   * The handler an event reaches, run: `/start` outside a conversation; inside
   * one, the handler the table gives for the current label when the event has
   * the kind it accepts, or the `/cancel` fallback. `None` when nothing matches.
   */
  function Route(pos: Position, token: Option<string>, clientId: string, ev: Event, b: Backend): (r: Option<Outcome>)
    requires SessionInvariant(pos, token)
    ensures r.Some? ==> SessionInvariant(NextPosition(pos, r.value), StoredToken(token, r.value.effects))
    ensures r.Some? && pos.In? && ev.kind != Command("cancel") ==>
      && DeletesTrigger(r.value, ev.chatId, ev.messageId)
      && RequestsFor(r.value, ev.chatId, token.value)
      && StoredToken(token, r.value.effects) == token
  {
    match pos
    case Outside =>
      if ev.kind == Command("start") then Some(Start(ev.chatId, ev.messageId, clientId, b)) else None
    case In(s) =>
      var t := token.value;
      var r := match (StateTable[s], ev.kind)
        case (MenuHandler, CallbackQuery(d)) => Some(HandleMenu(ev.chatId, ev.messageId, d, t, b))
        case (DescriptionHandler, CallbackQuery(d)) => Some(HandleDescription(ev.chatId, ev.messageId, d, t, b))
        case (CartHandler, CallbackQuery(d)) => Some(HandleCart(ev.chatId, ev.messageId, d, t, b))
        case (EmailHandler, TextMessage(x)) => Some(WaitEmail(ev.chatId, ev.messageId, x, t, b))
        case (_, Command(n)) => if n == "cancel" then Some(Idle()) else None
        case _ => None;
      if r.Some? then
        StoredTokenUnchanged(token, r.value.effects);
        r
      else r
  }

  /** Outside a conversation only `/start` is handled, by `start`. */
  lemma RouteOutside(token: Option<string>, clientId: string, ev: Event, b: Backend)
    ensures Route(Outside, token, clientId, ev, b)
         == if ev.kind == Command("start") then Some(Start(ev.chatId, ev.messageId, clientId, b)) else None
  {
  }

  /**
   * Inside a conversation each label hands the event kind it accepts to its
   * own handler, and `/cancel` reaches `idle` whatever the label.
   */
  lemma RouteDispatch(pos: Position, token: Option<string>, clientId: string, ev: Event, b: Backend)
    requires SessionInvariant(pos, token) && pos.In?
    ensures var r := Route(pos, token, clientId, ev, b);
      && (pos.state == HandleMenuState && ev.kind.CallbackQuery? ==>
            r == Some(HandleMenu(ev.chatId, ev.messageId, ev.kind.data, token.value, b)))
      && (pos.state == HandleDescriptionState && ev.kind.CallbackQuery? ==>
            r == Some(HandleDescription(ev.chatId, ev.messageId, ev.kind.data, token.value, b)))
      && (pos.state == HandleCartState && ev.kind.CallbackQuery? ==>
            r == Some(HandleCart(ev.chatId, ev.messageId, ev.kind.data, token.value, b)))
      && (pos.state == WaitingEmailState && ev.kind.TextMessage? ==>
            r == Some(WaitEmail(ev.chatId, ev.messageId, ev.kind.text, token.value, b)))
      && (ev.kind == Command("cancel") ==> r == Some(Idle()))
  {
    if ev.kind.Command? {
    } else if pos.state == HandleMenuState {
    } else if pos.state == HandleDescriptionState {
    } else if pos.state == HandleCartState {
    }
  }

  /**
   * Inside a conversation an event goes unhandled exactly when it is a command
   * other than `/cancel`, a button press while waiting for the e-mail, or a
   * text message at any other label.
   */
  lemma RouteUnmatched(pos: Position, token: Option<string>, clientId: string, ev: Event, b: Backend)
    requires SessionInvariant(pos, token) && pos.In?
    ensures Route(pos, token, clientId, ev, b).None? <==>
      || (ev.kind.Command? && ev.kind.name != "cancel")
      || (ev.kind.CallbackQuery? && pos.state == WaitingEmailState)
      || (ev.kind.TextMessage? && pos.state != WaitingEmailState)
  {
  }

  // ---------------------------------------------------------------------------
  // The stored state
  // ---------------------------------------------------------------------------

  /** One chat's conversation position together with the bot-wide `bot_data`. */
  class Session {
    const clientId: string          // bot_data['client_id']
    var position: Position
    var authToken: Option<string>   // bot_data['auth_token']

    ghost predicate Valid()
      reads this
    {
      SessionInvariant(position, authToken)
    }

    constructor (clientId: string)
      ensures Valid()
      ensures this.clientId == clientId && position == Outside && authToken == None
    {
      this.clientId := clientId;
      position := Outside;
      authToken := None;
    }

    /** Handle one event: run the handler it reaches, then store its label and token. */
    method Step(ev: Event, b: Backend) returns (handled: Option<Outcome>)
      requires Valid()
      modifies this
      ensures Valid()
      ensures handled == Route(old(position), old(authToken), clientId, ev, b)
      ensures handled.None? ==> position == old(position) && authToken == old(authToken)
      ensures handled.Some? ==>
        && position == NextPosition(old(position), handled.value)
        && authToken == StoredToken(old(authToken), handled.value.effects)
      ensures old(position).Outside? && ev.kind == Command("start") ==>
        position == In(HandleMenuState) && authToken == Some(b.accessToken(clientId))
    {
      handled := Route(position, authToken, clientId, ev, b);
      if handled.Some? {
        position := NextPosition(position, handled.value);
        authToken := StoredToken(authToken, handled.value.effects);
      }
    }
  }

  // ---------------------------------------------------------------------------
  // Rendered payloads are routed as intended
  // ---------------------------------------------------------------------------

  /** A catalog button opens its product; the last row opens the cart. */
  lemma CatalogButtonsRoute(products: seq<Product>, chatId: int, messageId: int, token: string, b: Backend)
    requires forall i :: 0 <= i < |products| ==> products[i].id != CartPayload
    ensures forall i :: 0 <= i < |products| ==>
      var o := HandleMenu(chatId, messageId, CatalogKeyboard(products)[i][0].payload, token, b);
      o.next == Success(Goto(HandleDescriptionState)) && o.effects[1] == Call(FetchProduct(token, products[i].id))
    ensures
      var o := HandleMenu(chatId, messageId, CatalogKeyboard(products)[|products|][0].payload, token, b);
      o.next == Success(Goto(HandleCartState)) && o.effects[1] == Call(FetchCart(token, chatId))
  {
  }

  /**
   * A quantity button adds its product and quantity to the chat's cart; the
   * second row goes back to the catalog or to the cart.
   */
  lemma QuantityButtonRoutes(p: Product, q: int, chatId: int, messageId: int, token: string, b: Backend)
    requires ';' !in p.id
    ensures
      var o := HandleDescription(chatId, messageId, QuantityButton(p.id, q).payload, token, b);
      o.next == Success(Goto(HandleCartState)) && o.effects[1] == Call(AddToCart(token, chatId, p.id, q))
  {
    var payload := QuantityButton(p.id, q).payload;
    assert payload == p.id + ";" + IntToDecimal(q);
    assert payload != BackToMenuPayload && payload != CartPayload by {
      assert payload[|p.id|] == ';';
      assert ';' in payload && ';' !in BackToMenuPayload && ';' !in CartPayload;
    }
    assert ParseQuantityPayload(payload) == Success((p.id, q)) by {
      QuantityPayloadRoundTrip(p.id, q);
    }
    var o := HandleDescription(chatId, messageId, payload, token, b);
    assert o.next == Success(Goto(HandleCartState)) && o.effects[1] == Call(AddToCart(token, chatId, p.id, q));
  }

  lemma ProductButtonsRoute(p: Product, chatId: int, messageId: int, token: string, b: Backend)
    requires ';' !in p.id
    ensures forall j :: 0 <= j < 3 ==>
      var o := HandleDescription(chatId, messageId, ProductKeyboard(p)[0][j].payload, token, b);
      o.next == Success(Goto(HandleCartState))
      && o.effects[1] == Call(AddToCart(token, chatId, p.id, Quantities[j]))
    ensures HandleDescription(chatId, messageId, ProductKeyboard(p)[1][0].payload, token, b).next
         == Success(Goto(HandleMenuState))
    ensures HandleDescription(chatId, messageId, ProductKeyboard(p)[1][1].payload, token, b).next
         == Success(Goto(HandleCartState))
  {
    var kb: Keyboard := ProductKeyboard(p);
    forall j | 0 <= j < 3
      ensures
        var o := HandleDescription(chatId, messageId, kb[0][j].payload, token, b);
        o.next == Success(Goto(HandleCartState))
        && o.effects[1] == Call(AddToCart(token, chatId, p.id, Quantities[j]))
    {
      QuantityButtonRoutes(p, Quantities[j], chatId, messageId, token, b);
    }
  }

  /** A remove button removes its item from the chat's cart; Pay and Back to menu lead on. */
  lemma CartButtonsRoute(items: seq<CartItem>, chatId: int, messageId: int, token: string, b: Backend)
    requires forall i :: 0 <= i < |items| ==> items[i].id != PayPayload && items[i].id != BackToMenuPayload
    ensures forall i :: 0 <= i < |items| ==>
      var o := HandleCart(chatId, messageId, CartKeyboard(items)[i][0].payload, token, b);
      o.next == Success(Goto(HandleCartState)) && o.effects[1] == Call(RemoveCartItem(token, chatId, items[i].id))
    ensures HandleCart(chatId, messageId, CartKeyboard(items)[|items|][0].payload, token, b).next
         == Success(Goto(WaitingEmailState))
    ensures HandleCart(chatId, messageId, CartKeyboard(items)[|items| + 1][0].payload, token, b).next
         == Success(Goto(HandleMenuState))
  {
  }
}
