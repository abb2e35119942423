# Internet-cafe order bot: the order session

This project models the order session of a Telegram ordering bot for an
internet café. Each user has a session (`context.user_data`). It holds a
category, a list of selected items with their prices, a list of delivery
dates, a final price, an email and an `awaiting_email` flag. Each button
press or text message is handled by one handler, which updates the session
in place:

- a text names a category. It is matched approximately against the
  catalog; on a match the category is stored and the item list emptied;
- an item button appends `{name, price}`;
- "next" shows the daily total, or refuses when nothing was selected;
- a date button appends a date that is not in the list yet;
- "confirm dates" stores `final_price = daily total × number of dates`;
- "confirm order" raises the flag; "cancel" clears the session;
- while the flag is up, the next text is the email. The client is saved,
  and one order row per delivery date is written, each priced
  `final_price / len(dates)`.

The model keeps the form of the code:

- `Bot.Session` is a class whose fields are the session keys, with one
  method per handler;
- `Persistence.OrderSink` is a class standing for the `clients` and
  `orders` tables;
- the pure parts are functions with lemmas about them. These are
  `str.strip`, `str.replace` and `startswith` (module `Text`), the totals
  and the per-date rows (module `Order`), and the offered delivery days
  (module `Dates`).

The catalog is a constant map `category -> item -> int price`, given to the
session when it is created. The fuzzy category matcher (`difflib.get_close_matches`)
is a function parameter of `HandleText`; its only required property is that
it answers with a catalog key or with nothing. The current day is a
parameter of `Dates.DatesForMonth`.

Four scenario methods in `session.dfy` are clients of these contracts. They
follow the catalog `{"Drinks": {"Tea": 50, "Coffee": 80}}` through a whole
order: choose, select, go on, pick dates, confirm, send an email.

Which step the user is in is not stored anywhere. It follows from which
fields are set; only `awaitingEmail` is explicit. The model keeps this, and
it also keeps the following behaviours of the code:

- no handler checks that the session is at the right step. "confirm order"
  can be pressed before the dates are confirmed. The rows are then priced
  from a missing final price, which reads as 0;
- pressing "confirm dates" again recomputes the final price;
- a date added after confirmation is not refused. The rows then split the
  old final price over the new number of dates. Their prices still add up
  to the stored final price (`Order.OrderRowsForTotal`);
- a chosen date is not checked against the 30 offered days;
- the email is not checked for an `@`, and may even be empty;
- an item priced 0 is handled like an unknown item (`if price:`);
- a category whose name is the empty string counts as "no category";
- the item name is taken from the callback data by `replace`, not by
  cutting off the prefix. An item whose own name contains `test_item_` gets
  the wrong name (`Bot.ItemTokenRoundTrip`);
- after an order is completed the session keeps its items, dates and price.

## Model

| member | source | states |
|---|---|---|
| Text.LeadingSpaces | tg-bot.py:205 | the count of leading whitespace characters: every character before it is whitespace and the one at it (if any) is not, so `strip()` starts its result there |
| Text.ContentEnd | tg-bot.py:205 | the end of the text without its trailing whitespace: every character from it on is whitespace and the one before it (if any) is not |
| Text.StripIsTrimmedSlice | tg-bot.py:205 | `strip()` returns the contiguous slice of the input between a run of leading and a run of trailing whitespace |
| Text.StripEnds | tg-bot.py:237 | the stripped text neither starts nor ends with whitespace |
| Text.StripEmpty | tg-bot.py:205 | the stripped text is empty exactly when the input is all whitespace |
| Text.StripIdempotent | tg-bot.py:237 | stripping an already stripped text changes nothing |
| Text.RemoveAllAbsent | tg-bot.py:270 | `replace(p, "")` leaves a string in which `p` does not occur unchanged |
| Text.TokenRoundTrip | tg-bot.py:359 | callback data built as prefix + payload starts with the prefix, and `replace(prefix, "")` gives back the payload whenever the payload does not contain the prefix |
| Bot.ItemTokenRoundTrip | tg-bot.py:269-270 | the item button data `test_item_<name>` passes the `startswith` test and yields the name back for every name without the marker; for the name `test_item_x` it yields `x` |
| Order.SumAppend | tg-bot.py:285 | appending an entry adds exactly its price to the daily total |
| Order.OrderRowsForTotal | tg-bot.py:219-222 | the rows of a completed order follow the delivery dates in order, carry one client id and one item list, share one price, and their prices add up to the final price (no rows when there is no date) |
| Dates.DatesForMonthWindow | tg-bot.py:91-97 | exactly 30 days are offered, strictly increasing; a day is offered exactly when it lies 1 to 30 days after today, so today is not offered |
| Persistence.OrderSink.SaveClient | tg-bot.py:36-42 | upsert by email: a known email keeps its id and the table is unchanged; a new email gets an id no other client has; ids stay distinct |
| Persistence.SaveOrderRows | tg-bot.py:219-222 | the completion loop appends exactly the rows of `Order.OrderRowsFor`, one per date in list order, and leaves the clients alone |
| Persistence.OrderSink.SaveOrder | tg-bot.py:44-53 | exactly one row `(client, date, items, price)` is appended to the orders; clients are untouched |
| Bot.Session.HandleText | tg-bot.py:202-260 | while the flag is up the email branch runs, otherwise the category branch runs and the sink is untouched |
| Bot.Session.SubmitEmail | tg-bot.py:204-234 | the stripped text becomes the email, the flag is cleared, the client is upserted, and the orders grow by one row per delivery date, in order, each with the session's items and the final price (missing: 0) divided by the number of dates; category, items, dates and final price are kept |
| Bot.Session.ChooseCategory | tg-bot.py:237-260 | on a match of the stripped text the category becomes the matched catalog key and the item list is emptied; without a match nothing changes; dates, final price, email and flag are kept either way |
| Bot.Session.HandleItemSelection | tg-bot.py:265-305 | an entry is appended exactly when the data is an item token, a non-empty category is set, and the item has a non-zero price in it; the entry is (name, price), added at the end after the earlier entries; the reported total is the sum of all entries; in every other case (not a token, no category, unknown or zero-priced item) the list is unchanged |
| Bot.Session.HandleNextStep | tg-bot.py:309-334 | changes nothing; goes on exactly when some item is selected, and then shows the sum of their prices |
| Bot.Session.HandleDateSelection | tg-bot.py:354-367 | a date already chosen leaves the list unchanged, a new one is appended at the end; the list never holds a date twice |
| Bot.Session.HandleConfirmDates | tg-bot.py:371-408 | with at least one date and one item the final price becomes the daily total times the number of dates; otherwise nothing changes |
| Bot.Session.HandleConfirmOrder | tg-bot.py:412-421 | raises the flag and changes nothing else |
| Bot.Session.HandleCancelOrder | tg-bot.py:425-432 | empties every field of the session, which is then equal to a freshly created one |

## Left out

- Telegram transport and rendering are not modelled: updates, keyboards, `reply_text`, `start`, `handle_choice`, `handle_choose_dates` (which only shows the date buttons) and handler registration. Message texts are not modelled either; only the branch a handler takes, and the totals it reports, are returned.
- The database connection (`connect_to_db`, the pool) is not modelled. The SQL statements are modelled only by their effect on `OrderSink`. `get_categories_and_products` and `startup` are represented by the catalog given to the session's constructor.
- Client ids are abstract: a new email gets the next unused id. The database's sequence behaviour on conflicts is not modelled.
- The JSON encoding of the item list in `save_order` is not modelled; a row holds the item list itself.
- `generate_pdf_receipt` (reportlab) and `send_email_with_pdf` (SMTP) are foreign I/O. They are not modelled, and neither is their position after the database writes.
- Failures are not modelled. A database, PDF or SMTP exception aborts the handler after the flag has been cleared and the email stored, possibly after some rows were written; the model has no failing path.
- Bot.Session.ChooseCategory: the similarity ratio and 0.6 cutoff of `get_close_matches` are floating-point library logic. The matcher is a parameter that returns either nothing or one catalog key.
- Dates are day numbers in `Dates` and opaque strings in the session. `strftime` in `generate_dates_for_month` and `strptime` in the completion loop are not modelled, so a malformed date string, which would raise at completion, has no counterpart.
- Bot.Session.SubmitEmail: the per-date price is the exact rational `final_price / len(dates)`, not a floating-point division.
- Prices are unbounded integers, as Python integers are.
- `handle_email_input` is not modelled. It is registered after `handle_text` on the same message filter in the same group, so it never runs.
- Concurrent updates and the global `CATEGORIES` variable are not modelled; the model handles one update at a time.
