/**
 * The event-driven stock example: an `EventBus` keeping, per event type, the
 * list of subscribed investors; `Stock` and `News` publish through it, and
 * `InvestorImpl.update` reacts to the event type. Every console line becomes
 * a `Line`; the double price is a `real` whose printed form is left out.
 */
module EventDriven {
  import opened Common
  import opened JavaList

  const PRICE_CHANGED := "PRICE_CHANGED"
  const NEWS_UPDATE := "NEWS_UPDATE"

  /** One console line of the example. */
  datatype Line =
    | PriceUpdate(investor: string, symbol: string, price: real)
    | NewsUpdate(investor: string)
    | UnknownEvent(investor: string)
    | NewsHeadline(headline: string)

  /** What `update` reads from the stock argument: nothing when it is null. */
  datatype Quote = Quote(symbol: string, price: real)

  /** The line `InvestorImpl.update` prints; a price event with a null stock throws. */
  function UpdateLine(name: string, eventType: string, stock: Option<Quote>): (r: Result<Line>)
    ensures r.Fail? <==> eventType == PRICE_CHANGED && stock.None?
    ensures r.Fail? ==> r.fault == NullPointer
    ensures r.Ok? ==> !r.value.NewsHeadline? && r.value.investor == name
    ensures r.Ok? && eventType == PRICE_CHANGED ==> r.value == PriceUpdate(name, stock.value.symbol, stock.value.price)
    ensures eventType == NEWS_UPDATE ==> r == Ok(NewsUpdate(name))
    ensures eventType != PRICE_CHANGED && eventType != NEWS_UPDATE ==> r == Ok(UnknownEvent(name))
  {
    if eventType == PRICE_CHANGED then
      if stock.None? then Fail(NullPointer) else Ok(PriceUpdate(name, stock.value.symbol, stock.value.price))
    else if eventType == NEWS_UPDATE then Ok(NewsUpdate(name))
    else Ok(UnknownEvent(name))
  }

  /** `InvestorImpl`: its name is fixed; equality is identity, as Java's default `equals`. */
  class InvestorImpl {
    const name: string

    constructor (name: string)
      ensures this.name == name
    {
      this.name := name;
    }

    /** `update`: one line, chosen by an exact match on the event type. */
    method Update(eventType: string, stock: Stock?) returns (r: Result<Line>)
      ensures r == UpdateLine(name, eventType, QuoteOf(stock))
    {
      if eventType == PRICE_CHANGED {
        if stock == null {
          return Fail(NullPointer);
        }
        return Ok(PriceUpdate(name, stock.symbol, stock.price));
      } else if eventType == NEWS_UPDATE {
        return Ok(NewsUpdate(name));
      }
      r := Ok(UnknownEvent(name));
    }
  }

  /** What a stock argument shows to `update` at the moment it is read. */
  function QuoteOf(stock: Stock?): Option<Quote>
    reads stock
  {
    if stock == null then None else Some(Quote(stock.symbol, stock.price))
  }

  /**
   * What `publish` produces for a list of subscribers: the lines printed, in
   * subscription order, and whether an `update` threw (which ends the loop).
   */
  function Published(investors: seq<InvestorImpl>, eventType: string, stock: Option<Quote>): (r: (seq<Line>, Outcome))
    ensures r.1.Threw? <==> investors != [] && eventType == PRICE_CHANGED && stock.None?
    ensures r.1.Threw? ==> r.0 == [] && r.1 == Threw(NullPointer)
    ensures r.1 == Done ==> |r.0| == |investors|
    ensures r.1 == Done ==> forall i :: 0 <= i < |investors| ==> Ok(r.0[i]) == UpdateLine(investors[i].name, eventType, stock)
    decreases |investors|
  {
    if investors == [] then ([], Done)
    else
      var (lines, o) := Published(investors[..|investors| - 1], eventType, stock);
      if o.Threw? then (lines, o)
      else
        var u := UpdateLine(investors[|investors| - 1].name, eventType, stock);
        if u.Fail? then (lines, Threw(u.fault)) else (lines + [u.value], Done)
  }

  /** The subscribers of a type: `subscribers.get`, with an absent type read as no one. */
  function Lookup(m: map<string, seq<InvestorImpl>>, eventType: string): seq<InvestorImpl>
  {
    if eventType in m then m[eventType] else []
  }

  /** The map after `subscribe`: the investor appended to that type's list, created on first use. */
  function Subscribed(m: map<string, seq<InvestorImpl>>, eventType: string, investor: InvestorImpl): (r: map<string, seq<InvestorImpl>>)
    ensures eventType in r && r[eventType] == Lookup(m, eventType) + [investor]
    ensures forall t :: t != eventType ==> Lookup(r, t) == Lookup(m, t)
  {
    m[eventType := Lookup(m, eventType) + [investor]]
  }

  /** The map after `unsubscribe`: one occurrence fewer in that type's list; an unknown type is left alone. */
  function Unsubscribed(m: map<string, seq<InvestorImpl>>, eventType: string, investor: InvestorImpl): (r: map<string, seq<InvestorImpl>>)
    ensures eventType !in m ==> r == m
    ensures multiset(Lookup(r, eventType)) == multiset(Lookup(m, eventType)) - multiset{investor}
    ensures forall t :: t != eventType ==> Lookup(r, t) == Lookup(m, t)
  {
    if eventType in m then m[eventType := RemoveFirst(m[eventType], investor)] else m
  }

  class EventBus {
    var subscribers: map<string, seq<InvestorImpl>>

    constructor ()
      ensures subscribers == map[]
    {
      subscribers := map[];
    }

    method Subscribe(eventType: string, investor: InvestorImpl)
      modifies this
      ensures subscribers == Subscribed(old(subscribers), eventType, investor)
    {
      var investors := if eventType in subscribers then subscribers[eventType] else [];
      subscribers := subscribers[eventType := investors + [investor]];
    }

    method Unsubscribe(eventType: string, investor: InvestorImpl)
      modifies this
      ensures subscribers == Unsubscribed(old(subscribers), eventType, investor)
    {
      if eventType in subscribers {
        subscribers := subscribers[eventType := RemoveFirst(subscribers[eventType], investor)];
      }
    }

    /** `publish`: every subscriber of the type, in order; the map is not touched. */
    method Publish(eventType: string, stock: Stock?) returns (lines: seq<Line>, o: Outcome)
      ensures (lines, o) == Published(Lookup(subscribers, eventType), eventType, QuoteOf(stock))
    {
      lines, o := [], Done;
      if eventType !in subscribers {
        return;
      }
      var investors := subscribers[eventType];
      for i := 0 to |investors|
        invariant (lines, o) == Published(investors[..i], eventType, QuoteOf(stock))
        invariant o == Done
      {
        assert investors[..i + 1][..i] == investors[..i];
        var r := investors[i].Update(eventType, stock);
        if r.Fail? {
          return lines, Threw(r.fault);
        }
        lines := lines + [r.value];
      }
      assert investors[..|investors|] == investors;
    }
  }

  /** `Stock`: its symbol is fixed; the price is stored before the event goes out. */
  class Stock {
    const symbol: string
    var price: real
    const eventBus: EventBus

    constructor (symbol: string, price: real, eventBus: EventBus)
      ensures this.symbol == symbol && this.price == price && this.eventBus == eventBus
    {
      this.symbol := symbol;
      this.price := price;
      this.eventBus := eventBus;
    }

    /** `setPrice`: one PRICE_CHANGED event carrying this stock, whose price subscribers read as the new one. */
    method SetPrice(price: real) returns (lines: seq<Line>)
      modifies this
      ensures this.price == price
      ensures (lines, Done) == Published(Lookup(eventBus.subscribers, PRICE_CHANGED), PRICE_CHANGED, Some(Quote(symbol, price)))
    {
      this.price := price;
      var o;
      lines, o := eventBus.Publish(PRICE_CHANGED, this);
    }
  }

  /** `News`: a fixed headline, announced after the subscribers are told. */
  class News {
    const headline: string
    const eventBus: EventBus

    constructor (headline: string, eventBus: EventBus)
      ensures this.headline == headline && this.eventBus == eventBus
    {
      this.headline := headline;
      this.eventBus := eventBus;
    }

    /** `announceNews`: one NEWS_UPDATE event with a null stock, then the headline line. */
    method AnnounceNews() returns (lines: seq<Line>)
      ensures lines == Published(Lookup(eventBus.subscribers, NEWS_UPDATE), NEWS_UPDATE, None).0 + [NewsHeadline(headline)]
      ensures Published(Lookup(eventBus.subscribers, NEWS_UPDATE), NEWS_UPDATE, None).1 == Done
    {
      var o;
      lines, o := eventBus.Publish(NEWS_UPDATE, null);
      lines := lines + [NewsHeadline(headline)];
    }
  }

  /** Only a price event with no stock can make `publish` throw; news events never do. */
  lemma NewsNeverThrows(investors: seq<InvestorImpl>, stock: Option<Quote>)
    ensures Published(investors, NEWS_UPDATE, stock).1 == Done
  {
  }

  /** An investor subscribed twice is told twice. */
  lemma DuplicateSubscriptionTwice(m: map<string, seq<InvestorImpl>>, eventType: string, investor: InvestorImpl, stock: Option<Quote>)
    requires eventType !in m
    requires UpdateLine(investor.name, eventType, stock).Ok?
    ensures Published(Lookup(Subscribed(Subscribed(m, eventType, investor), eventType, investor), eventType), eventType, stock).0
      == [UpdateLine(investor.name, eventType, stock).value, UpdateLine(investor.name, eventType, stock).value]
  {
    var s := Lookup(Subscribed(Subscribed(m, eventType, investor), eventType, investor), eventType);
    assert s == [investor, investor];
  }

  /** Subscribing a new investor and unsubscribing it again leaves every type's list as it was. */
  lemma {:induction false} SubscribeThenUnsubscribe(m: map<string, seq<InvestorImpl>>, eventType: string, investor: InvestorImpl, t: string)
    requires investor !in Lookup(m, eventType)
    ensures Lookup(Unsubscribed(Subscribed(m, eventType, investor), eventType, investor), t) == Lookup(m, t)
  {
    if t == eventType {
      AddThenRemove(Lookup(m, eventType), investor);
    }
  }

  /** An investor subscribed once to a type hears nothing more of it after unsubscribing. */
  lemma UnsubscribeSilences(m: map<string, seq<InvestorImpl>>, eventType: string, investor: InvestorImpl)
    requires multiset(Lookup(m, eventType))[investor] == 1
    ensures investor !in Lookup(Unsubscribed(m, eventType, investor), eventType)
  {
    var s: seq<InvestorImpl> := Lookup(Unsubscribed(m, eventType, investor), eventType);
    assert multiset(s)[investor] == 0;
  }

  /** Publishing to two investors in order. */
  lemma PublishedToTwo(a: InvestorImpl, b: InvestorImpl, eventType: string, stock: Option<Quote>)
    requires UpdateLine(a.name, eventType, stock).Ok?
    ensures Published([a, b], eventType, stock)
      == ([UpdateLine(a.name, eventType, stock).value, UpdateLine(b.name, eventType, stock).value], Done)
  {
    var r := Published([a, b], eventType, stock);
    assert r.1 == Done && |r.0| == 2;
    assert Ok(r.0[0]) == UpdateLine(a.name, eventType, stock);
    assert Ok(r.0[1]) == UpdateLine(b.name, eventType, stock);
    assert r.0 == [r.0[0], r.0[1]];
  }

  /** Publishing to one investor. */
  lemma PublishedToOne(a: InvestorImpl, eventType: string, stock: Option<Quote>)
    requires UpdateLine(a.name, eventType, stock).Ok?
    ensures Published([a], eventType, stock) == ([UpdateLine(a.name, eventType, stock).value], Done)
  {
    var r := Published([a], eventType, stock);
    assert r.1 == Done && |r.0| == 1;
    assert Ok(r.0[0]) == UpdateLine(a.name, eventType, stock);
    assert r.0 == [r.0[0]];
  }

  /** The example's subscriptions: both investors to both event types, Alice first. */
  method ExampleSubscriptions(alice: string, bob: string) returns (bus: EventBus, a: InvestorImpl, b: InvestorImpl)
    ensures fresh(bus) && a != b && a.name == alice && b.name == bob
    ensures Lookup(bus.subscribers, PRICE_CHANGED) == [a, b] && Lookup(bus.subscribers, NEWS_UPDATE) == [a, b]
  {
    bus := new EventBus();
    a := new InvestorImpl(alice);
    b := new InvestorImpl(bob);
    bus.Subscribe(PRICE_CHANGED, a);
    bus.Subscribe(PRICE_CHANGED, b);
    bus.Subscribe(NEWS_UPDATE, a);
    bus.Subscribe(NEWS_UPDATE, b);
  }

  /** A price change and a news item with both investors subscribed to both types. */
  method ExampleBothSubscribed(stock: Stock, news: News, a: InvestorImpl, b: InvestorImpl, price: real) returns (lines: seq<Line>)
    requires news.eventBus == stock.eventBus
    requires Lookup(stock.eventBus.subscribers, PRICE_CHANGED) == [a, b]
    requires Lookup(stock.eventBus.subscribers, NEWS_UPDATE) == [a, b]
    modifies stock
    ensures lines == [PriceUpdate(a.name, stock.symbol, price), PriceUpdate(b.name, stock.symbol, price),
      NewsUpdate(a.name), NewsUpdate(b.name), NewsHeadline(news.headline)]
  {
    PublishedToTwo(a, b, PRICE_CHANGED, Some(Quote(stock.symbol, price)));
    PublishedToTwo(a, b, NEWS_UPDATE, None);
    var first := stock.SetPrice(price);
    var second := news.AnnounceNews();
    lines := first + second;
  }

  /** Bob leaves both types: only Alice remains subscribed. */
  method ExampleUnsubscribe(bus: EventBus, a: InvestorImpl, b: InvestorImpl)
    requires a != b
    requires Lookup(bus.subscribers, PRICE_CHANGED) == [a, b] && Lookup(bus.subscribers, NEWS_UPDATE) == [a, b]
    modifies bus
    ensures Lookup(bus.subscribers, PRICE_CHANGED) == [a] && Lookup(bus.subscribers, NEWS_UPDATE) == [a]
  {
    bus.Unsubscribe(PRICE_CHANGED, b);
    bus.Unsubscribe(NEWS_UPDATE, b);
    assert RemoveFirst([a, b], b) == [a];
  }

  /**
   * The example's run, with the investors' names, the symbol and the headline
   * as parameters: Alice and Bob follow prices and news; after Bob
   * unsubscribes from both, only Alice hears the last price and the last news.
   */
  method Example(alice: string, bob: string, symbol: string, headline: string) returns (lines: seq<Line>)
    ensures lines == [
      PriceUpdate(alice, symbol, 155.0), PriceUpdate(bob, symbol, 155.0),
      NewsUpdate(alice), NewsUpdate(bob), NewsHeadline(headline),
      PriceUpdate(alice, symbol, 160.0), PriceUpdate(bob, symbol, 160.0),
      PriceUpdate(alice, symbol, 170.0),
      NewsUpdate(alice), NewsHeadline(headline)]
  {
    var bus, a, b := ExampleSubscriptions(alice, bob);
    var stock := new Stock(symbol, 150.0, bus);
    var news := new News(headline, bus);

    var first := ExampleBothSubscribed(stock, news, a, b, 155.0);
    PublishedToTwo(a, b, PRICE_CHANGED, Some(Quote(symbol, 160.0)));
    var third := stock.SetPrice(160.0);

    ExampleUnsubscribe(bus, a, b);
    PublishedToOne(a, PRICE_CHANGED, Some(Quote(symbol, 170.0)));
    PublishedToOne(a, NEWS_UPDATE, None);
    var fourth := stock.SetPrice(170.0);
    var fifth := news.AnnounceNews();
    lines := first + third + fourth + fifth;
  }
}
