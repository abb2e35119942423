/** The per-user order session (`context.user_data`) and the Telegram
    handlers that change it. Which step the user is in is not stored: it
    follows from which fields happen to be set, and only `awaitingEmail` is
    an explicit flag. */
module Bot {
  import opened Order
  import opened Text
  import opened Persistence

  /** The callback-data prefix of an item button. */
  const ItemPrefix: string := "test_item_"
  /** The callback-data prefix of a date button. */
  const DatePrefix: string := "date_"

  /** The callback data of the button for an item, and of the button for a date. */
  function ItemToken(name: string): string { ItemPrefix + name }
  function DateToken(date: string): string { DatePrefix + date }

  /** The fuzzy category matcher only ever answers with a catalog key. */
  ghost predicate MatchesIntoCatalog(closestMatch: string -> Option<string>, catalog: Catalog)
  {
    forall s :: closestMatch(s).Some? ==> closestMatch(s).value in catalog
  }

  /** Item tokens round-trip for every item name that does not contain the
      marker; a name that does loses it, so the button of an item called
      "test_item_x" selects "x". */
  lemma ItemTokenRoundTrip(name: string)
    ensures !Occurs(ItemPrefix, name) ==>
      StartsWith(ItemToken(name), ItemPrefix) && RemoveAll(ItemToken(name), ItemPrefix) == name
    ensures RemoveAll(ItemToken(ItemPrefix + "x"), ItemPrefix) == "x"
  {
    if !Occurs(ItemPrefix, name) {
      TokenRoundTrip(ItemPrefix, name);
    }
    var t := ItemToken(ItemPrefix + "x");
    assert t[..|ItemPrefix|] == ItemPrefix;
    var rest := t[|ItemPrefix|..];
    assert rest == ItemPrefix + "x";
    assert rest[..|ItemPrefix|] == ItemPrefix;
    assert rest[|ItemPrefix|..] == "x";
    assert RemoveAll("x", ItemPrefix) == "x";
    assert RemoveAll(rest, ItemPrefix) == "x";
    assert RemoveAll(t, ItemPrefix) == RemoveAll(rest, ItemPrefix);
  }

  /** What a text message led to. */
  datatype TextOutcome =
    | OrderSaved(clientId: int)
    | CategoryChosen(category: string)
    | NoMatch

  /** What an item button led to. */
  datatype ItemOutcome =
    | Added(total: int)     // entry appended; reported running total
    | UnknownItem           // the item has no (non-zero) price in the category
    | NoCategory            // no category chosen yet
    | NotAnItem             // the callback data is not an item token

  /** A session counts as having a category only when it holds a non-empty
      name (the handler tests the stored value for truthiness). */
  predicate HasCategory(category: Option<string>)
  {
    category.Some? && category.value != ""
  }

  class Session {
    const catalog: Catalog
    var category: Option<string>
    var selectedItems: seq<Item>
    var deliveryDates: seq<string>
    var finalPrice: Option<int>
    var email: Option<string>
    var awaitingEmail: bool

    /** The chosen category is a catalog key, and no date was chosen twice. */
    ghost predicate Valid()
      reads this
    {
      && (category.Some? ==> category.value in catalog)
      && Distinct(deliveryDates)
    }

    /** Every key of `user_data` is absent. */
    ghost predicate IsPristine()
      reads this
    {
      && category == None
      && selectedItems == []
      && deliveryDates == []
      && finalPrice == None
      && email == None
      && !awaitingEmail
    }

    constructor (catalog: Catalog)
      ensures Valid() && IsPristine() && this.catalog == catalog
    {
      this.catalog := catalog;
      category := None;
      selectedItems := [];
      deliveryDates := [];
      finalPrice := None;
      email := None;
      awaitingEmail := false;
    }

    /** `handle_text`: the email branch while an email is awaited, the
        category branch otherwise. */
    method HandleText(text: string, closestMatch: string -> Option<string>, sink: OrderSink)
      returns (outcome: TextOutcome)
      requires Valid() && sink.Valid() && MatchesIntoCatalog(closestMatch, catalog)
      modifies this, sink
      ensures Valid() && sink.Valid()
      ensures old(awaitingEmail) ==> EmailSubmitted(text, outcome, sink)
      ensures !old(awaitingEmail) ==> unchanged(sink) && CategoryHandled(text, closestMatch, outcome)
    {
      if awaitingEmail {
        outcome := SubmitEmail(text, sink);
      } else {
        outcome := ChooseCategory(text, closestMatch);
      }
    }

    /** The state after the email branch of `handle_text`: the stripped text
        is the email, the flag is cleared, the client was upserted and one
        order row per delivery date appended; the selection is kept. */
    twostate predicate EmailSubmitted(text: string, outcome: TextOutcome, sink: OrderSink)
      reads this, sink
    {
      && outcome.OrderSaved?
      && email == Some(Strip(text))
      && !awaitingEmail
      && category == old(category)
      && selectedItems == old(selectedItems)
      && deliveryDates == old(deliveryDates)
      && finalPrice == old(finalPrice)
      && sink.clients == old(sink.clients)[Strip(text) := outcome.clientId]
      && (Strip(text) in old(sink.clients) ==> outcome.clientId == old(sink.clients)[Strip(text)])
      && sink.orders == old(sink.orders)
           + OrderRowsFor(outcome.clientId, deliveryDates, selectedItems, finalPrice.GetOr(0))
    }

    /** The state after the category branch of `handle_text`: on a match the
        category is set and the item list emptied; dates, final price, email
        and flag are kept. */
    twostate predicate CategoryHandled(text: string, closestMatch: string -> Option<string>, outcome: TextOutcome)
      reads this
    {
      && email == old(email)
      && awaitingEmail == old(awaitingEmail)
      && deliveryDates == old(deliveryDates)
      && finalPrice == old(finalPrice)
      && (closestMatch(Strip(text)).Some? ==>
            && outcome == CategoryChosen(closestMatch(Strip(text)).value)
            && category == closestMatch(Strip(text))
            && selectedItems == [])
      && (closestMatch(Strip(text)).None? ==>
            && outcome == NoMatch
            && category == old(category)
            && selectedItems == old(selectedItems))
    }

    /** The email branch of `handle_text`. The text is not checked for
        looking like an address. */
    method SubmitEmail(text: string, sink: OrderSink) returns (outcome: TextOutcome)
      requires Valid() && sink.Valid()
      modifies this`email, this`awaitingEmail, sink
      ensures Valid() && sink.Valid()
      ensures EmailSubmitted(text, outcome, sink)
    {
      var address := Strip(text);
      email := Some(address);
      awaitingEmail := false;
      var clientId := sink.SaveClient(address);
      SaveOrderRows(sink, clientId, deliveryDates, selectedItems, finalPrice.GetOr(0));
      outcome := OrderSaved(clientId);
    }

    /** The category branch of `handle_text`. */
    method ChooseCategory(text: string, closestMatch: string -> Option<string>) returns (outcome: TextOutcome)
      requires Valid() && MatchesIntoCatalog(closestMatch, catalog)
      modifies this`category, this`selectedItems
      ensures Valid()
      ensures CategoryHandled(text, closestMatch, outcome)
    {
      var found := closestMatch(Strip(text));
      if found.Some? {
        category := found;
        selectedItems := [];
        outcome := CategoryChosen(found.value);
      } else {
        outcome := NoMatch;
      }
    }

    /** `handle_item_selection`. With an item token, a category set and a
        non-zero price for the item in that category, one entry is appended
        and the running total reported; otherwise nothing changes. */
    method HandleItemSelection(data: string) returns (outcome: ItemOutcome)
      requires Valid()
      modifies this`selectedItems
      ensures Valid()
      ensures !StartsWith(data, ItemPrefix) <==> outcome == NotAnItem
      ensures StartsWith(data, ItemPrefix) && !HasCategory(category) <==> outcome == NoCategory
      ensures outcome.Added? <==>
        && StartsWith(data, ItemPrefix)
        && HasCategory(category)
        && RemoveAll(data, ItemPrefix) in catalog[category.value]
        && catalog[category.value][RemoveAll(data, ItemPrefix)] != 0
      ensures outcome.Added? ==>
        var name := RemoveAll(data, ItemPrefix);
        && selectedItems == old(selectedItems) + [Item(name, catalog[category.value][name])]
        && outcome.total == Sum(selectedItems)
        && outcome.total == Sum(old(selectedItems)) + catalog[category.value][name]
      ensures !outcome.Added? ==> selectedItems == old(selectedItems)
    {
      if !StartsWith(data, ItemPrefix) {
        return NotAnItem;
      }
      var name := RemoveAll(data, ItemPrefix);
      if !HasCategory(category) {
        return NoCategory;
      }
      var prices := catalog[category.value];
      if name !in prices || prices[name] == 0 {
        return UnknownItem;
      }
      var entry := Item(name, prices[name]);
      SumAppend(selectedItems, entry);
      selectedItems := selectedItems + [entry];
      outcome := Added(Sum(selectedItems));
    }

    /** `handle_next_step`: changes nothing; goes on to the date choice, with
        the daily total, exactly when some item was selected. */
    method HandleNextStep() returns (proceed: bool, total: int)
      ensures proceed <==> selectedItems != []
      ensures proceed ==> total == Sum(selectedItems)
    {
      proceed := selectedItems != [];
      total := if proceed then Sum(selectedItems) else 0;
    }

    /** `handle_date_selection`: the date taken from the callback is appended
        unless it is already in the list. The date is not checked against the
        offered window. */
    method HandleDateSelection(data: string) returns (added: bool)
      requires Valid()
      modifies this`deliveryDates
      ensures Valid()
      ensures added <==> RemoveAll(data, DatePrefix) !in old(deliveryDates)
      ensures deliveryDates ==
        if added then old(deliveryDates) + [RemoveAll(data, DatePrefix)] else old(deliveryDates)
    {
      var date := RemoveAll(data, DatePrefix);
      added := date !in deliveryDates;
      if added {
        deliveryDates := deliveryDates + [date];
      }
    }

    /** `handle_confirm_dates`: with at least one date and one item, the final
        price becomes the daily total times the number of dates (pressing the
        button again recomputes it); otherwise nothing changes. */
    method HandleConfirmDates() returns (confirmed: bool)
      requires Valid()
      modifies this`finalPrice
      ensures Valid()
      ensures confirmed <==> deliveryDates != [] && selectedItems != []
      ensures finalPrice ==
        if confirmed then Some(Sum(selectedItems) * |deliveryDates|) else old(finalPrice)
    {
      confirmed := deliveryDates != [] && selectedItems != [];
      if confirmed {
        finalPrice := Some(Sum(selectedItems) * |deliveryDates|);
      }
    }

    /** `handle_confirm_order`: the next text message is taken as the email.
        Nothing is checked first. */
    method HandleConfirmOrder()
      requires Valid()
      modifies this`awaitingEmail
      ensures Valid() && awaitingEmail
    {
      awaitingEmail := true;
    }

    /** `handle_cancel_order`: `user_data.clear()`; the session is as new. */
    method HandleCancelOrder()
      modifies this
      ensures Valid() && IsPristine()
    {
      category := None;
      selectedItems := [];
      deliveryDates := [];
      finalPrice := None;
      email := None;
      awaitingEmail := false;
    }
  }

  /** The catalog {"Drinks": {"Tea": 50, "Coffee": 80}} used by the scenarios. */
  function DrinksCatalog(): Catalog
  {
    map["Drinks" := map["Tea" := 50, "Coffee" := 80]]
  }

  /** The user writes "Drinks" (with any surrounding whitespace), picks "Tea" and goes on: the session holds one
      entry and the daily total is 50. */
  method DrinksSelectionScenario(text: string)
    requires Strip(text) == "Drinks"
  {
    var catalog := DrinksCatalog();
    var session := new Session(catalog);
    var sink := new OrderSink();
    var closestMatch := (s: string) => if s in catalog then Some(s) else None;

    assert closestMatch(Strip(text)) == Some("Drinks");
    var t := session.HandleText(text, closestMatch, sink);
    assert session.category == Some("Drinks") && session.selectedItems == [];

    var token := ItemToken("Tea");
    TokenRoundTrip(ItemPrefix, "Tea");
    assert StartsWith(token, ItemPrefix) && RemoveAll(token, ItemPrefix) == "Tea";
    assert catalog["Drinks"]["Tea"] == 50;
    var item := session.HandleItemSelection(token);
    assert item.Added? && session.selectedItems == [Item("Tea", 50)];

    var proceed, daily := session.HandleNextStep();
    assert proceed && daily == 50;
  }

  /** With "Tea" selected, the user picks two dates, the second one twice:
      the list holds both dates once. */
  method DrinksDatesScenario(first: string, second: string)
    requires first != second && !Occurs(DatePrefix, first) && !Occurs(DatePrefix, second)
  {
    var session := new Session(DrinksCatalog());
    session.selectedItems := [Item("Tea", 50)];
    var firstToken, secondToken := DateToken(first), DateToken(second);
    TokenRoundTrip(DatePrefix, first);
    TokenRoundTrip(DatePrefix, second);
    assert RemoveAll(firstToken, DatePrefix) == first;
    assert RemoveAll(secondToken, DatePrefix) == second;

    var added := session.HandleDateSelection(firstToken);
    assert session.deliveryDates == [first];
    added := session.HandleDateSelection(secondToken);
    assert second !in [first];
    assert session.deliveryDates == [first, second];
    added := session.HandleDateSelection(secondToken);
    assert second in [first, second];
    assert !added && session.deliveryDates == [first, second];
  }

  /** With "Tea" selected and two dates chosen, confirming the dates sets the
      final price to 100; confirming with no date changes nothing. */
  method DrinksConfirmScenario(first: string, second: string)
    requires first != second
  {
    var session := new Session(DrinksCatalog());
    session.selectedItems := [Item("Tea", 50)];
    var confirmed := session.HandleConfirmDates();
    assert !confirmed && session.finalPrice == None;

    session.deliveryDates := [first, second];
    confirmed := session.HandleConfirmDates();
    assert confirmed && session.finalPrice == Some(100);
  }

  /** With two dates and a final price of 100, the user confirms and sends an
      address: two rows are written whose prices add up to 100. */
  method DrinksEmailScenario(first: string, second: string, text: string)
    requires first != second
  {
    var session := new Session(DrinksCatalog());
    var sink := new OrderSink();
    var closestMatch: string -> Option<string> := (s: string) => None;
    session.selectedItems := [Item("Tea", 50)];
    session.deliveryDates := [first, second];
    session.finalPrice := Some(100);

    session.HandleConfirmOrder();
    var t := session.HandleText(text, closestMatch, sink);
    ghost var rows := OrderRowsFor(t.clientId, [first, second], [Item("Tea", 50)], 100);
    assert sink.orders == rows;
    OrderRowsForTotal(t.clientId, [first, second], [Item("Tea", 50)], 100);
    assert |rows| == 2 && TotalPrice(rows) == 100.0;
  }
}
