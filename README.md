# fish-shop-bot: conversation router and chat rendering

This project models the two pieces of logic in the fish-shop Telegram bot:

- **The conversation router** (`bot.py`). `start` fetches a fresh auth token
  and stores it in `bot_data`. Four handlers serve the conversation states
  `HANDLE_MENU`, `HANDLE_DESCRIPTION`, `HANDLE_CART` and `WAITING_EMAIL`, and
  `idle` is the `/cancel` fallback. Each of the four handlers first deletes
  the message that triggered it; `idle` only returns `None`. A handler then
  branches on the callback payload (`'Cart'`, `'Back to menu'`, `'Pay'`, a
  `product_id;quantity` pair, or an id), makes the commerce-API calls its
  branch needs, renders the answer, and returns the next state label. `start`
  makes two calls (the token, then the catalog); a product id makes two (the
  product, then its main image); `'Pay'` makes none; every other branch makes
  one.
- **The chat rendering** (`handle_interfaces.py`). This covers the catalog
  keyboard, the product caption with its quantity keyboard, the cart-item
  lines, and the cart text and keyboard.

Files:

- `bot.dfy` (module `Bot`). The handlers are pure functions. Each one returns an
  `Outcome`: the ordered list of `Effect`s (delete the message, call the API,
  store the token, send a reply) plus the returned label, or a `RoutingError`
  where the Python code would raise. `StateTable` is the table of states.
  `Route` dispatches an event, and the `Session` class stores the chat's
  position and the auth token.
- `interfaces.dfy` (module `Interfaces`). The renderer, as functions from API
  records to replies and keyboards.
- `pytext.dfy` (module `PyText`). The Python built-ins the two files rely on:
  `str.split(';')`, `str(int)` inside f-strings, `int(str)` with the
  whitespace trimming it does, and substring search.
- `wrappers.dfy` (module `Wrappers`). `Option` and `Result`.

API answers are abstract inputs. The `Backend` value gives, as total functions
of the request arguments, the token, products, product, image URL, cart, and
the outcome of creating a customer. Every request a handler makes appears
explicitly among its effects.

Proved across the two files:

- The payloads the renderer emits are routed as intended (`CatalogButtonsRoute`,
  `ProductButtonsRoute`, `CartButtonsRoute`).
- `'{id};{q}'` parses back to `(id, q)` whenever the id has no `;`
  (`QuantityPayloadRoundTrip`). This rests on `int(str(q)) == q`
  (`ParseIntOfDecimal`) and on split undoing join (`SplitOfJoin`).
- A session only ever holds a label the table knows, and it holds a token
  whenever it is inside a conversation (`Session.Step`).

Three behaviours of the code worth stating, because a reader might expect otherwise:

- `wait_email` returns `END` in all three branches (bot.py:126-137), including
  for an email that already exists.
- The quantity buttons say `kg` (handle_interfaces.py:50).
- Only a malformed `id;quantity` payload in `HANDLE_DESCRIPTION` is a routing
  error (bot.py:79-84). `HANDLE_MENU` takes any other payload as a product id
  (bot.py:54-55), and `HANDLE_CART` takes any other payload as an item id
  (bot.py:108-112).

## Model

| member | source | states |
|---|---|---|
| `PyText.Split` | bot.py:79 | `query.split(';')`: at least one piece, no piece contains the separator, and joining the pieces with it gives back the payload |
| `PyText.SplitOfJoin` | bot.py:79 | splitting undoes joining when no part contains the separator |
| `PyText.NatToDecimal` | handle_interfaces.py:50-51 | `str(n)` of a non-negative int is a non-empty digit string with no leading zero except for 0 |
| `PyText.IntToDecimal` | handle_interfaces.py:50-51 | `f'{q}'` is non-empty: digits, or `-` followed by digits |
| `PyText.DigitsValueOfDecimal` | handle_interfaces.py:51 | the digits written for n read back as n |
| `PyText.ParseIntOfDecimal` | bot.py:84 | `int(str(i)) == i` for every int |
| `PyText.StripLeft` | bot.py:84 | the part of the text after the leading whitespace `int()` skips: a suffix, every dropped character is such whitespace, and the first kept one is not |
| `PyText.StripRight` | bot.py:84 | the part of the text before the trailing whitespace `int()` skips: a prefix, every dropped character is such whitespace, and the last kept one is not |
| `PyText.Strip` | bot.py:84 | trimming both ends never lengthens the text and leaves no skippable whitespace at either end |
| `PyText.StripLeftSkips` | bot.py:84 | any run of skippable whitespace in front is dropped completely |
| `PyText.StripRightSkips` | bot.py:84 | any run of skippable whitespace at the end is dropped completely |
| `PyText.ParseInt` | bot.py:84 | `int(quantity)`: when it yields a value, the trimmed text is non-empty and ends with a digit, and a negative value had a leading `-` |
| `PyText.ParseStripped` | bot.py:84 | on trimmed text: a value only for non-empty text ending in a digit, negative only after a leading `-` |
| `PyText.ParseIntSkipsSpace` | bot.py:84 | whitespace `int()` skips around a text does not change what it parses to, e.g. `int(' 5\n') == int('5')` |
| `PyText.ParseIntKeepsSeparator` | bot.py:84 | `int()` raises on every text that starts with one of U+001C..U+001F, such as `'\x1c5'`: those are whitespace to `str.isspace()` but `int()` does not skip them |
| `PyText.ParseIntNeedsDigit` | bot.py:84 | `int()` raises on any string without a decimal digit, the empty string included |
| `Interfaces.ProductRows` | handle_interfaces.py:13-16 | one row per product, in input order, labelled with its name and carrying its id |
| `Interfaces.CatalogView` | handle_interfaces.py:13-19 | the catalog reply is the text `Catalog` with one row per product (its name and id) and a final `Cart` row |
| `Interfaces.CatalogKeyboard` | handle_interfaces.py:13-19 | the catalog keyboard is the product rows followed by exactly one final `Cart` row |
| `Interfaces.QuantityButton` | handle_interfaces.py:49-52 | a quantity button's payload starts with the product id followed by `;`, and its label is the text after that `;` followed by ` kg` |
| `Interfaces.QuantityButtonParses` | handle_interfaces.py:49-52 | the text after a quantity button's `;` is what `int()` reads back as its quantity, for every quantity |
| `Interfaces.ProductCaption` | handle_interfaces.py:40-45 | the caption starts with the product name followed by a blank line |
| `Interfaces.ProductKeyboard` | handle_interfaces.py:47-59 | first row is exactly `1 kg`, `5 kg`, `10 kg` with payloads `id;1`, `id;5`, `id;10`; second row is `Back to menu` then `Cart` |
| `Interfaces.ProductCaptionLines` | handle_interfaces.py:40-45 | the caption's lines are the name, the price per kg and the stock in kg, each followed by a blank line, then the description |
| `Interfaces.ProductView` | handle_interfaces.py:61-66 | the product message is a photo of the image URL with the caption and the two-row quantity keyboard |
| `Interfaces.FormatCartItem` | handle_interfaces.py:78-88 | a formatted cart item is never empty and ends with a blank line |
| `Interfaces.CartItemLines` | handle_interfaces.py:84-88 | a formatted item's lines are the name, the unit price per kg, and the quantity with the line price, followed by the closing blank line |
| `Interfaces.JoinedItems` | handle_interfaces.py:98-100 | the joined item text is empty exactly when the cart has no items |
| `Interfaces.JoinedItemsAppend` | handle_interfaces.py:98-100 | the items are concatenated in order: joining `a + b` is joining `a` then joining `b` |
| `Interfaces.CartText` | handle_interfaces.py:98-106 | an empty cart gives exactly `Your cart is empty` and the total is not read; otherwise the text is `Your cart:\n\n`, the items in order, then `Total: ` and the total |
| `Interfaces.CartRows` | handle_interfaces.py:108-116 | one `Remove {name} from Cart` row per item, in order, carrying the item id |
| `Interfaces.CartKeyboard` | handle_interfaces.py:108-120 | the remove rows are followed by `Pay`, then `Back to menu`; for an empty cart these are the only two rows |
| `Interfaces.CartView` | handle_interfaces.py:98-125 | the cart message: an empty cart gives `Your cart is empty` with only the `Pay` and `Back to menu` rows; otherwise the item text with its total, one `Remove {name} from Cart` row per item in order carrying the item id, then `Pay`, then `Back to menu` |
| `Bot.ShowCatalog` | bot.py:69-72 | deletes the trigger, fetches the catalog with the stored token, shows exactly what it returned, and returns `HANDLE_MENU` |
| `Bot.ShowCart` | bot.py:74-77 | deletes the trigger, makes the given cart request for the chat's own cart, shows the cart it returns, and returns `HANDLE_CART` |
| `Bot.ShowProduct` | bot.py:55-58 | deletes the trigger, fetches the product and then its main image with the stored token, shows them, and returns `HANDLE_DESCRIPTION` |
| `Bot.Start` | bot.py:28-39 | deletes the command message, fetches a token with the client id, stores that token, fetches the catalog with it and shows it, then returns `HANDLE_MENU` |
| `Bot.HandleMenu` | bot.py:42-58 | `Cart` fetches the chat's cart and returns `HANDLE_CART`; any other payload is fetched as a product id, its image is fetched, the product is shown, and the handler returns `HANDLE_DESCRIPTION`; the message is deleted first and the stored token is used |
| `Bot.ParseQuantityPayload` | bot.py:79-84 | succeeds exactly when the payload splits into two parts and `int()` reads the second; the id is then the part before the single `;`, and the value is what `int()` reads from the text after it (so `p; 05` gives `("p", 5)`) |
| `Bot.QuantityPayloadRoundTrip` | handle_interfaces.py:51 | parsing `'{id};{q}'` the way the router does gives back `(id, q)` for any id without `;` |
| `Bot.HandleDescription` | bot.py:61-89 | `Back to menu` shows the catalog and returns `HANDLE_MENU`; `Cart` shows the cart and returns `HANDLE_CART`; an `id;qty` payload adds that id and qty to the chat's cart and shows the returned cart; otherwise it fails with a routing error after deleting the message and making no call |
| `Bot.HandleCart` | bot.py:92-116 | `Back to menu` returns `HANDLE_MENU`; `Pay` replies `Enter your email:` and returns `WAITING_EMAIL`; any other payload is removed from the chat's cart as an item id, and the returned cart is shown with `HANDLE_CART` |
| `Bot.EmailReply` | bot.py:126-133 | each of the three replies embeds the submitted text |
| `Bot.EmailReplyDetermines` | bot.py:128-133 | the three replies differ for every email, so the reply tells invalid, exists-already and added apart |
| `Bot.WaitEmail` | bot.py:119-137 | deletes the message, asks the API to create the customer with the text, sends the reply matching the outcome, and always ends the conversation |
| `Bot.Idle` | bot.py:140-142 | the fallback does nothing and returns None |
| `Bot.StoredTokenUnchanged` | bot.py:45 | effects that store no token leave the stored token as it was |
| `Bot.Route` | bot.py:156-165 | every dispatch keeps the position a known state label with a stored token; inside a conversation, every handler except the fallback deletes the trigger first, uses the stored token and the chat's cart, and leaves the token unchanged |
| `Bot.RouteOutside` | bot.py:157 | outside a conversation, `/start` runs `start` and every other event is ignored |
| `Bot.RouteDispatch` | bot.py:158-164 | inside a conversation, a button press at `HANDLE_MENU`, `HANDLE_DESCRIPTION` or `HANDLE_CART` runs that label's handler with its payload, a text at `WAITING_EMAIL` runs `wait_email` with the text, and `/cancel` runs `idle` at every label |
| `Bot.RouteUnmatched` | bot.py:156-165 | inside a conversation an event goes unhandled exactly when it is a command other than `/cancel`, a button press at `WAITING_EMAIL`, or a text at another label |
| `Bot.Session.constructor` | bot.py:154 | a new session is outside any conversation, holds the client id, and holds no token |
| `Bot.Session.Step` | bot.py:32-34 | one event runs the routed handler and stores its label and token; `/start` outside a conversation stores the freshly fetched token and moves to `HANDLE_MENU`; the session invariant is preserved |
| `Bot.CatalogButtonsRoute` | handle_interfaces.py:13-17 | each catalog button, routed by `handle_menu`, fetches its own product and returns `HANDLE_DESCRIPTION`; the final row reaches the cart |
| `Bot.QuantityButtonRoutes` | handle_interfaces.py:49-52 | a quantity button, routed by `handle_description`, adds its own product and quantity to the chat's cart and returns `HANDLE_CART` |
| `Bot.ProductButtonsRoute` | handle_interfaces.py:47-59 | each quantity button, routed by `handle_description`, adds its product and quantity to the chat's cart; the second row leads to the menu and to the cart |
| `Bot.CartButtonsRoute` | handle_interfaces.py:108-120 | each remove button, routed by `handle_cart`, removes its item from the chat's cart; `Pay` leads to `WAITING_EMAIL` and `Back to menu` to `HANDLE_MENU` |

## Left out

- HTTP calls and their failures: the `requests` calls and `raise_for_status` in handle_API_requests.py and the helper scripts are not modelled. `Backend` gives every answer, and a transport error, which the source leaves fatal for the event, is not represented. The one local rule, a 409 raising `UserExistsError`, is the `UserExists` outcome.
- Server-side cart semantics and price arithmetic: carts and totals come from the API as given.
- Email validation: `InvalidEmail` is imported from handle_API_requests.py (bot.py:18), which does not define it, so it is only an abstract outcome.
- Telegram transport: delivery, photo sending and `print('idle')` are not modelled. Replies and deletions are effects.
- The image lookup in `send_product_details`: the image URL is a `Backend` input.
- The `__main__` bootstrap (environment, `Updater`, polling) is not modelled. Only the state table and the `client_id` held in `bot_data` are.
- `Bot.Route`: it keeps only as much of `ConversationHandler` as the stored state needs. `END` leaves the conversation, `None` keeps the label, and a handler that raises keeps the label. `/start` is not re-entered inside a conversation. Commands reach only the `/cancel` fallback, although the text filter of the library would also pass them to `wait_email`. Position is kept for one chat.
- Source defects not reproduced: bot.py imports `send_*_interface_to_chat` names that handle_interfaces.py does not define, so the model calls the renderers that are defined. bot.py:162 registers a bare list, so the model uses the evident text handler for `wait_email`.
- `PyText.ParseInt`: it accepts ASCII digits, an optional sign, single underscores between digits, and the whitespace `int()` skips at both ends (ASCII tab to carriage return, space, and the non-ASCII `str.isspace()` characters). It does not accept the non-ASCII Unicode decimal digits that Python's `int()` also accepts. It also does not model the 4300-digit limit on `int(str)` conversion that CPython applies from 3.11 on; quantities from the bot's own buttons have at most two digits.
