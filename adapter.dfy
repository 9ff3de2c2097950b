/**
 * The adapter example: a client that displays customer data through the
 * `CustomerDataProvider` interface, a database provider that already speaks it,
 * and an adapter that turns the legacy service's XML into the expected string
 * with a naive `indexOf`/`substring` extraction.
 */
module Adapter {
  import opened Common
  import opened JavaText

  const LEGACY_NAME := "Jane Smith (Legacy)"
  const LEGACY_CONTACT := "jane.legacy@example.net"

  /** `XMLUserData`: a wrapper whose content may be null. */
  datatype XmlUserData = XmlUserData(content: Option<string>)

  /** The two implementations of `CustomerDataProvider`. */
  datatype Provider = DatabaseCustomerProvider | UserServiceAdapter

  /** What `displayCustomer` shows. */
  datatype Screen = Displaying(data: string) | NoDataFound(customerId: int)

  /** `DatabaseCustomerProvider.getCustomerDataById`. */
  function DatabaseData(customerId: int): (r: string)
    ensures |r| > 22 && r[..22] == "DB Customer Data {ID: "
  {
    "DB Customer Data {ID: " + Decimal(customerId) + ", Name: 'John Doe (DB)', Email: 'john.db@example.com'}"
  }

  /** `LegacyUserService.getUserData`: the id's decimal form inside a fixed XML template. */
  function GetUserData(userId: int): (x: XmlUserData)
    ensures x.content.Some?
  {
    XmlUserData(Some("<User><ID>" + Decimal(userId) + LEGACY_TAIL))
  }

  /** The text between the first `open` tag and the first `close` tag, as one `substring` call extracts it. */
  function Extract(xml: string, open: string, close: string): (r: Result<string>)
    ensures IndexOf(xml, close) == -1 ==> r == Fail(IndexOutOfBounds)
    ensures r.Ok? ==> var b := IndexOf(xml, open) + |open|;
      0 <= b && b + |r.value| == IndexOf(xml, close) && xml[b..b + |r.value|] == r.value
  {
    Substring(xml, IndexOf(xml, open) + |open|, IndexOf(xml, close))
  }

  /** The string the adapter builds from the three extracted fields. */
  function Adapted(id: string, name: string, contact: string): string
  {
    "Adapted Legacy Data {ID: " + id + ", Name: '" + name + "', Contact: '" + contact + "'}"
  }

  /** What the `catch` block returns. */
  function ErrorText(xml: string): string
  {
    "Error processing legacy data: " + xml
  }

  /** Whether every one of the three extractions succeeds. */
  predicate Parses(xml: string)
  {
    Extract(xml, "<ID>", "</ID>").Ok? && Extract(xml, "<Name>", "</Name>").Ok?
    && Extract(xml, "<Contact>", "</Contact>").Ok?
  }

  /** `UserServiceAdapter.convertXmlToString`. */
  function ConvertXmlToString(x: Option<XmlUserData>): (r: string)
    ensures r == "" <==> x.None? || x.value.content.None?
    ensures x.Some? && x.value.content.Some? && Parses(x.value.content.value) ==>
      var xml := x.value.content.value;
      r == Adapted(Extract(xml, "<ID>", "</ID>").value, Extract(xml, "<Name>", "</Name>").value,
                   Extract(xml, "<Contact>", "</Contact>").value)
    ensures x.Some? && x.value.content.Some? && !Parses(x.value.content.value) ==>
      r == ErrorText(x.value.content.value)
  {
    if x.None? || x.value.content.None? then ""
    else
      var xml := x.value.content.value;
      var id := Extract(xml, "<ID>", "</ID>");
      if id.Fail? then ErrorText(xml)
      else
        var name := Extract(xml, "<Name>", "</Name>");
        if name.Fail? then ErrorText(xml)
        else
          var contact := Extract(xml, "<Contact>", "</Contact>");
          if contact.Fail? then ErrorText(xml)
          else Adapted(id.value, name.value, contact.value)
  }

  /** `getCustomerDataById` of each provider. */
  function GetCustomerDataById(p: Provider, customerId: int): (r: string)
    ensures r != ""
    ensures p.DatabaseCustomerProvider? ==> r == DatabaseData(customerId)
    ensures p.UserServiceAdapter? ==> r == ConvertXmlToString(Some(GetUserData(customerId)))
  {
    match p
    case DatabaseCustomerProvider => DatabaseData(customerId)
    case UserServiceAdapter => ConvertXmlToString(Some(GetUserData(customerId)))
  }

  /** The branch of `displayCustomer` for the string the provider returned (None for null). */
  function Show(data: Option<string>, customerId: int): (s: Screen)
    ensures s.NoDataFound? <==> data.None? || data.value == ""
    ensures s.Displaying? ==> s.data == data.value
    ensures s.NoDataFound? ==> s.customerId == customerId
  {
    if data.Some? && data.value != "" then Displaying(data.value) else NoDataFound(customerId)
  }

  predicate NoLt(s: string)
  {
    forall k :: 0 <= k < |s| ==> s[k] != '<'
  }

  /** A tag starting with `<` occurs only where the text has a `<`. */
  lemma OccursAtLt(s: string, p: string, j: int)
    requires |p| > 0 && p[0] == '<' && OccursAt(s, p, j)
    ensures s[j] == '<'
  {
    assert s[j..j + |p|][0] == s[j];
  }

  /** A tag does not occur where one of its characters differs. */
  lemma Mismatch(s: string, p: string, j: int, k: nat)
    requires 0 <= j && k < |p| && j + k < |s| && s[j + k] != p[k]
    ensures !OccursAt(s, p, j)
  {
  }

  /** The part of the legacy XML after the id. */
  const LEGACY_TAIL := "</ID><Name>" + LEGACY_NAME + "</Name><Contact>" + LEGACY_CONTACT + "</Contact></User>"

  /** Where the `<` characters of the fixed tail are. */
  lemma TailLt()
    ensures |LEGACY_TAIL| == 86
    ensures forall k :: 0 <= k < 86 && LEGACY_TAIL[k] == '<' ==> k in {0, 5, 30, 37, 69, 79}
  {
    assert NoLt(LEGACY_NAME) && NoLt(LEGACY_CONTACT);
  }

  /** Where the tags and fields of the fixed tail are. */
  lemma TailLayout()
    ensures |LEGACY_TAIL| == 86
    ensures forall k :: 0 <= k < 86 && LEGACY_TAIL[k] == '<' ==> k in {0, 5, 30, 37, 69, 79}
    ensures LEGACY_TAIL[1] == '/' && LEGACY_TAIL[2] == 'I' && LEGACY_TAIL[6] == 'N'
    ensures LEGACY_TAIL[31] == '/' && LEGACY_TAIL[32] == 'N' && LEGACY_TAIL[38] == 'C'
    ensures LEGACY_TAIL[..5] == "</ID>" && LEGACY_TAIL[5..11] == "<Name>"
    ensures LEGACY_TAIL[11..30] == LEGACY_NAME && LEGACY_TAIL[30..37] == "</Name>"
    ensures LEGACY_TAIL[37..46] == "<Contact>" && LEGACY_TAIL[46..69] == LEGACY_CONTACT
    ensures LEGACY_TAIL[69..79] == "</Contact>"
  {
    TailLt();
  }

  /** The `<` characters of the legacy XML for an id text `d` open its eight tags. */
  lemma LegacyLts(s: string, d: string)
    requires NoLt(d)
    requires s == "<User><ID>" + d + LEGACY_TAIL
    ensures forall j :: 0 <= j < |s| && s[j] == '<' ==>
      j in {0, 6, 10 + |d|, 15 + |d|, 40 + |d|, 47 + |d|, 79 + |d|, 89 + |d|}
  {
    var n := |d|;
    TailLayout();
    var t := LEGACY_TAIL;
    assert forall k :: 0 <= k < 86 ==> s[10 + n + k] == t[k];
    forall j | 0 <= j < |s| && s[j] == '<'
      ensures j in {0, 6, 10 + n, 15 + n, 40 + n, 47 + n, 79 + n, 89 + n}
    {
      if j >= 10 + n {
        assert t[j - 10 - n] == '<';
      }
    }
  }

  /** The legacy XML for an id text `d`: the positions of its `<` characters and of its fields. */
  lemma LegacyLayout(s: string, d: string)
    requires NoLt(d)
    requires s == "<User><ID>" + d + LEGACY_TAIL
    ensures |s| == 96 + |d|
    ensures forall j :: 0 <= j < |s| && s[j] == '<' ==>
      j in {0, 6, 10 + |d|, 15 + |d|, 40 + |d|, 47 + |d|, 79 + |d|, 89 + |d|}
    ensures s[1] == 'U' && s[7] == 'I' && s[11 + |d|] == '/' && s[16 + |d|] == 'N'
    ensures s[41 + |d|] == '/' && s[48 + |d|] == 'C'
    ensures s[12 + |d|] == 'I' && s[42 + |d|] == 'N'
    ensures s[6..10] == "<ID>" && s[10 + |d|..15 + |d|] == "</ID>"
    ensures s[15 + |d|..21 + |d|] == "<Name>" && s[40 + |d|..47 + |d|] == "</Name>"
    ensures s[47 + |d|..56 + |d|] == "<Contact>" && s[79 + |d|..89 + |d|] == "</Contact>"
    ensures s[10..10 + |d|] == d && s[21 + |d|..40 + |d|] == LEGACY_NAME
    ensures s[56 + |d|..79 + |d|] == LEGACY_CONTACT
  {
    var n := |d|;
    LegacyLts(s, d);
    TailLayout();
    var t := LEGACY_TAIL;
    assert s[10 + n..] == t;
    assert s[10 + n..15 + n] == t[..5];
    assert s[15 + n..21 + n] == t[5..11];
    assert s[21 + n..40 + n] == t[11..30];
    assert s[40 + n..47 + n] == t[30..37];
    assert s[47 + n..56 + n] == t[37..46];
    assert s[56 + n..79 + n] == t[46..69];
    assert s[79 + n..89 + n] == t[69..79];
  }

  /** Every field of the legacy XML is found between its own tags. */
  lemma LegacyFields(s: string, d: string)
    requires NoLt(d)
    requires s == "<User><ID>" + d + LEGACY_TAIL
    ensures Extract(s, "<ID>", "</ID>") == Ok(d)
    ensures Extract(s, "<Name>", "</Name>") == Ok(LEGACY_NAME)
    ensures Extract(s, "<Contact>", "</Contact>") == Ok(LEGACY_CONTACT)
  {
    LegacyLayout(s, d);
    IdField(s, d);
    NameField(s, d);
    ContactField(s, d);
  }

  /** The id sits between the first `<ID>` and the first `</ID>`. */
  lemma IdField(s: string, d: string)
    requires NoLt(d)
    requires s == "<User><ID>" + d + LEGACY_TAIL
    ensures Extract(s, "<ID>", "</ID>") == Ok(d)
  {
    var n := |d|;
    LegacyLayout(s, d);
    forall j | 0 <= j < 6 ensures !OccursAt(s, "<ID>", j) {
      if OccursAt(s, "<ID>", j) { OccursAtLt(s, "<ID>", j); Mismatch(s, "<ID>", j, 1); }
    }
    IndexOfAt(s, "<ID>", 6);
    forall j | 0 <= j < 10 + n ensures !OccursAt(s, "</ID>", j) {
      if OccursAt(s, "</ID>", j) { OccursAtLt(s, "</ID>", j); Mismatch(s, "</ID>", j, 1); }
    }
    IndexOfAt(s, "</ID>", 10 + n);
  }

  /** The name sits between the first `<Name>` and the first `</Name>`. */
  lemma NameField(s: string, d: string)
    requires NoLt(d)
    requires s == "<User><ID>" + d + LEGACY_TAIL
    ensures Extract(s, "<Name>", "</Name>") == Ok(LEGACY_NAME)
  {
    var n := |d|;
    LegacyLayout(s, d);
    forall j | 0 <= j < 15 + n ensures !OccursAt(s, "<Name>", j) {
      if OccursAt(s, "<Name>", j) { OccursAtLt(s, "<Name>", j); Mismatch(s, "<Name>", j, 1); }
    }
    IndexOfAt(s, "<Name>", 15 + n);
    forall j | 0 <= j < 40 + n ensures !OccursAt(s, "</Name>", j) {
      if OccursAt(s, "</Name>", j) {
        OccursAtLt(s, "</Name>", j);
        if j == 10 + n { Mismatch(s, "</Name>", j, 2); } else { Mismatch(s, "</Name>", j, 1); }
      }
    }
    IndexOfAt(s, "</Name>", 40 + n);
  }

  /** The contact sits between the first `<Contact>` and the first `</Contact>`. */
  lemma ContactField(s: string, d: string)
    requires NoLt(d)
    requires s == "<User><ID>" + d + LEGACY_TAIL
    ensures Extract(s, "<Contact>", "</Contact>") == Ok(LEGACY_CONTACT)
  {
    var n := |d|;
    LegacyLayout(s, d);
    forall j | 0 <= j < 47 + n ensures !OccursAt(s, "<Contact>", j) {
      if OccursAt(s, "<Contact>", j) { OccursAtLt(s, "<Contact>", j); Mismatch(s, "<Contact>", j, 1); }
    }
    IndexOfAt(s, "<Contact>", 47 + n);
    forall j | 0 <= j < 79 + n ensures !OccursAt(s, "</Contact>", j) {
      if OccursAt(s, "</Contact>", j) {
        OccursAtLt(s, "</Contact>", j);
        if j == 10 + n || j == 40 + n { Mismatch(s, "</Contact>", j, 2); } else { Mismatch(s, "</Contact>", j, 1); }
      }
    }
    IndexOfAt(s, "</Contact>", 79 + n);
  }

  /** The rendered id never contains `<`. */
  lemma DecimalNoLt(n: int)
    ensures NoLt(Decimal(n))
  {
  }

  /** Round trip: for every id, the adapter returns the legacy record's three fields. */
  lemma AdapterRoundTrip(customerId: int)
    ensures GetCustomerDataById(UserServiceAdapter, customerId)
         == Adapted(Decimal(customerId), LEGACY_NAME, LEGACY_CONTACT)
  {
    DecimalNoLt(customerId);
    LegacyFields(GetUserData(customerId).content.value, Decimal(customerId));
  }

  /** Error path: a missing closing tag makes `substring` throw, whatever else the text holds. */
  lemma MissingCloseTag(xml: string)
    requires IndexOf(xml, "</ID>") == -1 || IndexOf(xml, "</Name>") == -1 || IndexOf(xml, "</Contact>") == -1
    ensures ConvertXmlToString(Some(XmlUserData(Some(xml)))) == ErrorText(xml)
  {
  }

  /** Neither provider ever leads `displayCustomer` to the "No data found" branch. */
  lemma ProvidersAlwaysDisplay(p: Provider, customerId: int)
    ensures Show(Some(GetCustomerDataById(p, customerId)), customerId).Displaying?
  {
  }

  lemma DecimalOfLiteral(k: nat, c: char)
    requires k < 10 && c == DigitChar(k)
    ensures Decimal(200 + k) == ['2', '0', c]
  {
    assert Digits(20) == ['2', '0'];
  }

  /** `CustomerInfoDisplay`: the client, holding a provider that may be swapped. */
  class CustomerInfoDisplay {
    var dataProvider: Option<Provider>

    constructor (provider: Option<Provider>)
      ensures dataProvider == provider
    {
      dataProvider := provider;
    }

    /** `displayCustomer`: asks the current provider and picks the branch; a null provider throws. */
    method DisplayCustomer(customerId: int) returns (r: Result<Screen>)
      ensures dataProvider.None? ==> r == Fail(NullPointer)
      ensures dataProvider.Some? ==>
        r == Ok(Show(Some(GetCustomerDataById(dataProvider.value, customerId)), customerId))
    {
      if dataProvider.None? {
        return Fail(NullPointer);
      }
      var data := GetCustomerDataById(dataProvider.value, customerId);
      r := Ok(Show(Some(data), customerId));
    }

    /** `setDataProvider`: replaces the provider; a null one throws at `getClass` before the assignment. */
    method SetDataProvider(provider: Option<Provider>) returns (o: Outcome)
      modifies this
      ensures provider.None? ==> o == Threw(NullPointer) && dataProvider == old(dataProvider)
      ensures provider.Some? ==> o == Done && dataProvider == provider
    {
      if provider.None? {
        return Threw(NullPointer);
      }
      dataProvider := provider;
      o := Done;
    }
  }

  /** The two legacy records the demo in `PostAdapterMain.main` asks for. */
  lemma DemoRecords()
    ensures GetCustomerDataById(UserServiceAdapter, 202) == Adapted("202", LEGACY_NAME, LEGACY_CONTACT)
    ensures GetCustomerDataById(UserServiceAdapter, 203) == Adapted("203", LEGACY_NAME, LEGACY_CONTACT)
  {
    AdapterRoundTrip(202);
    AdapterRoundTrip(203);
    DecimalOfLiteral(2, '2');
    DecimalOfLiteral(3, '3');
  }

  /** The demo in `PostAdapterMain.main`: the database provider, then the adapter for two ids. */
  method AdapterScenario() returns (first: Result<Screen>, second: Result<Screen>, third: Result<Screen>)
    ensures first == Ok(Displaying(DatabaseData(101)))
    ensures second == Ok(Displaying(Adapted("202", LEGACY_NAME, LEGACY_CONTACT)))
    ensures third == Ok(Displaying(Adapted("203", LEGACY_NAME, LEGACY_CONTACT)))
  {
    DemoRecords();
    var display := new CustomerInfoDisplay(Some(DatabaseCustomerProvider));
    first := display.DisplayCustomer(101);
    var _ := display.SetDataProvider(Some(UserServiceAdapter));
    second := display.DisplayCustomer(202);
    third := display.DisplayCustomer(203);
  }
}
