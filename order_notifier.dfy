/** The order notification: from the checkout details and the cart lines it
    builds the webhook message (an item manifest, an order total without tax
    and one embed with five fields) and turns the webhook's answer into
    success or an error. The HTTP request itself is abstracted to the
    `Transport` value it came back with. */
module OrderNotifier {
  import opened Catalog
  import opened Text
  import Cart

  // ---------------------------------------------------------------------
  // The order total

  /** `items.reduce((sum, item) => sum + item.price * item.quantity, 0)`,
      in cents, folded from the left as `reduce` does. No tax is added. */
  function OrderTotal(items: seq<Line>): (total: int)
    ensures Cart.PositiveQuantities(items) ==> total >= 0
  {
    if items == [] then 0
    else
      assert Cart.PositiveQuantities(items) ==> Cart.PositiveQuantities(items[..|items| - 1]);
      OrderTotal(items[..|items| - 1]) + items[|items| - 1].price * items[|items| - 1].quantity
  }

  /** The message's total is the cart's subtotal. */
  lemma {:induction false} OrderTotalIsSubtotal(items: seq<Line>)
    ensures OrderTotal(items) == Cart.Subtotal(items)
  {
    if items != [] {
      var init, last := items[..|items| - 1], items[|items| - 1];
      OrderTotalIsSubtotal(init);
      assert items == init + [last];
      Cart.SubtotalConcat(init, [last]);
    }
  }

  /** The checkout page shows the message's total plus the taxes; the two
      differ whenever the subtotal is not zero. */
  lemma OrderTotalOmitsTax(items: seq<Line>)
    ensures Cart.CheckoutTotal(items) == OrderTotal(items) as real + Cart.Taxes(items)
    ensures OrderTotal(items) != 0 ==> Cart.CheckoutTotal(items) != OrderTotal(items) as real
  {
    OrderTotalIsSubtotal(items);
  }

  // ---------------------------------------------------------------------
  // The manifest

  /** `${item.quantity}x ${item.name}`. */
  function ManifestLine(l: Line): (line: string)
    ensures |line| >= |l.name| + 3
    ensures line[|line| - |l.name| - 2..] == "x " + l.name
  {
    assert |IntToString(l.quantity)| >= 1;
    IntToString(l.quantity) + "x " + l.name
  }

  function ManifestLines(items: seq<Line>): seq<string> {
    seq(|items|, i requires 0 <= i < |items| => ManifestLine(items[i]))
  }

  /** The embed's description: one line per item joined with a newline. */
  function Manifest(items: seq<Line>): (text: string)
    ensures items != [] ==> |text| >= |ManifestLine(items[0])| && text[..|ManifestLine(items[0])|] == ManifestLine(items[0])
  {
    Join(ManifestLines(items), '\n')
  }

  /** Reads one manifest line back into its quantity and name. */
  function ParseLine(line: string): Option<(int, string)> {
    var n := NumberLength(line);
    if n + 2 <= |line| && line[n] == 'x' && line[n + 1] == ' ' then
      match ParseInt(line[..n])
      case Some(q) => Some((q, line[n + 2..]))
      case None => None
    else None
  }

  function ParseLines(lines: seq<string>): Option<seq<(int, string)>> {
    if lines == [] then Some([])
    else
      match (ParseLine(lines[0]), ParseLines(lines[1..]))
      case (Some(first), Some(rest)) => Some([first] + rest)
      case _ => None
  }

  /** Reads a manifest back into (quantity, name) pairs. */
  function ParseManifest(s: string): Option<seq<(int, string)>> {
    if s == "" then Some([]) else ParseLines(Split(s, '\n'))
  }

  /** The (quantity, name) pairs a manifest of these items lists. */
  function Entries(items: seq<Line>): seq<(int, string)> {
    seq(|items|, i requires 0 <= i < |items| => (items[i].quantity, items[i].name))
  }

  lemma ManifestLineRoundTrip(l: Line)
    ensures ParseLine(ManifestLine(l)) == Some((l.quantity, l.name))
    ensures ManifestLine(l) != ""
  {
    var q := IntToString(l.quantity);
    var line := ManifestLine(l);
    IntToStringRoundTrip(l.quantity, "x " + l.name);
    assert line == q + ("x " + l.name);
    assert line[..|q|] == q && line[|q|] == 'x' && line[|q| + 1] == ' ' && line[|q| + 2..] == l.name;
  }

  /** A manifest line holds a newline only if the item's name does. */
  lemma ManifestLineNoNewline(l: Line)
    requires '\n' !in l.name
    ensures '\n' !in ManifestLine(l)
  {
    IntToStringRoundTrip(l.quantity, "");
    assert ManifestLine(l) == IntToString(l.quantity) + ("x " + l.name);
  }

  /** An empty item list gives the empty description, and only then. */
  lemma ManifestEmpty(items: seq<Line>)
    ensures Manifest(items) == "" <==> items == []
  {
    forall i | 0 <= i < |items| ensures ManifestLines(items)[i] != "" {
      ManifestLineRoundTrip(items[i]);
    }
    JoinEmpty(ManifestLines(items), '\n');
  }

  lemma {:induction false} ParseLinesRoundTrip(items: seq<Line>)
    ensures ParseLines(ManifestLines(items)) == Some(Entries(items))
  {
    if items != [] {
      ManifestLineRoundTrip(items[0]);
      ParseLinesRoundTrip(items[1..]);
      ListsTail(items);
    } else {
      assert ManifestLines(items) == [] && Entries(items) == [];
    }
  }

  /** Both lists built from the items start with the first item's entry and
      go on with the rest's. */
  lemma ListsTail(items: seq<Line>)
    requires items != []
    ensures ManifestLines(items) == [ManifestLine(items[0])] + ManifestLines(items[1..])
    ensures Entries(items) == [(items[0].quantity, items[0].name)] + Entries(items[1..])
  {
  }

  /** When no item name holds a newline, the description has exactly one
      line per item, in item order, each `<quantity>x <name>`, and reading it
      back gives every quantity and name. */
  lemma ManifestRoundTrip(items: seq<Line>)
    requires forall i :: 0 <= i < |items| ==> '\n' !in items[i].name
    ensures items != [] ==> Split(Manifest(items), '\n') == ManifestLines(items)
    ensures ParseManifest(Manifest(items)) == Some(Entries(items))
  {
    ManifestEmpty(items);
    ParseLinesRoundTrip(items);
    if items != [] {
      var lines := ManifestLines(items);
      forall i | 0 <= i < |lines| ensures '\n' !in lines[i] {
        ManifestLineNoNewline(items[i]);
      }
      SplitJoin(lines, '\n');
      assert ParseManifest(Manifest(items)) == ParseLines(lines);
    }
  }

  // ---------------------------------------------------------------------
  // The payload

  datatype Field = Field(name: string, value: string, inline: bool)

  /** The one embed; its send-time timestamp is not modelled. */
  datatype Embed = Embed(title: string, color: int, description: string, fields: seq<Field>, footerText: string)

  datatype Payload = Payload(username: string, avatarUrl: string, embeds: seq<Embed>)

  const Username: string := "Bot de Commandes"

  /** The avatar string as the double-quoted literal evaluates: its `\v` is
      a vertical tab and its other backslashes vanish. */
  const AvatarUrl: string :=
    "C:Users" + [0x0B as char] + "elifDesktopsystème-de-commande-discordimgsOrderrred Logo White Bg.png"

  const Title: string := "Nouvelle Commande!"
  const Color: int := 0xF97316
  const FooterText: string := "Nouvelle commande"
  /** The fields' names and inline flags, in order. */
  const FieldLayout: seq<(string, bool)> :=
    [("Prénom", true), ("Nom", true), ("Contact", false), ("Paiement", true), ("Total", true)]

  function Layout(fields: seq<Field>): seq<(string, bool)> {
    seq(|fields|, i requires 0 <= i < |fields| => (fields[i].name, fields[i].inline))
  }

  /** `**<total with two decimals>€**`. */
  function TotalText(cents: int): string {
    "**" + ToFixed2(cents) + "€**"
  }

  function BuildPayload(details: OrderDetails, items: seq<Line>): (p: Payload)
    ensures |p.embeds| == 1 && |p.embeds[0].fields| == |FieldLayout|
    ensures p.embeds[0].fields[4].value == TotalText(Cart.Subtotal(items))
  {
    OrderTotalIsSubtotal(items);
    Payload(Username, AvatarUrl, [
      Embed(Title, Color, Manifest(items), [
        Field("Prénom", details.firstName, true),
        Field("Nom", details.lastName, true),
        Field("Contact", "`" + details.contactInfo + "`", false),
        Field("Paiement", details.paymentMethod.Label(), true),
        Field("Total", TotalText(OrderTotal(items)), true)
      ], FooterText)
    ])
  }

  /** The message has one embed with the fixed title, colour and footer and
      the manifest as description; its fields are, in order, first name,
      last name, contact, payment and total, all inline but the contact. */
  lemma PayloadShape(details: OrderDetails, items: seq<Line>)
    ensures var p := BuildPayload(details, items);
      && p.username == Username && p.avatarUrl == AvatarUrl
      && |p.embeds| == 1
      && p.embeds[0].title == Title && p.embeds[0].color == Color
      && p.embeds[0].footerText == FooterText
      && p.embeds[0].description == Manifest(items)
      && Layout(p.embeds[0].fields) == FieldLayout
  {
  }

  /** What the shop learns from a message: the buyer, the payment method,
      the total in cents and the ordered (quantity, name) pairs. */
  datatype Receipt = Receipt(
    firstName: string,
    lastName: string,
    contactInfo: string,
    paymentMethod: PaymentMethod,
    totalCents: int,
    entries: seq<(int, string)>)

  /** Reads a contact value wrapped in backticks. */
  function Unquote(v: string): Option<string> {
    if |v| >= 2 && v[0] == '`' && v[|v| - 1] == '`' then Some(v[1..|v| - 1]) else None
  }

  /** Reads a total value of the form `**<amount>€**`. */
  function ParseTotalText(v: string): Option<int> {
    if |v| >= 5 && v[..2] == "**" && v[|v| - 3..] == "€**" then ParseFixed2(v[2..|v| - 3]) else None
  }

  /** Reads the embed back, checking its fixed parts. */
  function ReadEmbed(e: Embed): Option<Receipt> {
    if e.title != Title || e.color != Color || e.footerText != FooterText || Layout(e.fields) != FieldLayout then None
    else
      var contact := Unquote(e.fields[2].value);
      var payment := ParsePaymentMethod(e.fields[3].value);
      var total := ParseTotalText(e.fields[4].value);
      var entries := ParseManifest(e.description);
      if contact.None? || payment.None? || total.None? || entries.None? then None
      else Some(Receipt(e.fields[0].value, e.fields[1].value, contact.value, payment.value, total.value, entries.value))
  }

  /** Reads a message back: it must hold exactly one embed. */
  function ReadPayload(p: Payload): Option<Receipt> {
    if |p.embeds| != 1 then None else ReadEmbed(p.embeds[0])
  }

  /** The message carries the whole order: reading it back gives the
      details as entered, the untaxed total and every line's quantity and
      name, provided no item name holds a newline. */
  lemma {:induction false} PayloadRoundTrip(details: OrderDetails, items: seq<Line>)
    requires forall i :: 0 <= i < |items| ==> '\n' !in items[i].name
    ensures ReadPayload(BuildPayload(details, items)) ==
              Some(Receipt(details.firstName, details.lastName, details.contactInfo, details.paymentMethod,
                           OrderTotal(items), Entries(items)))
  {
    var e := BuildPayload(details, items).embeds[0];
    PayloadShape(details, items);
    assert ParseManifest(e.description) == Some(Entries(items)) by {
      ManifestRoundTrip(items);
    }
    assert ParsePaymentMethod(e.fields[3].value) == Some(details.paymentMethod) by {
      LabelRoundTrip(details.paymentMethod);
    }
    assert ParseTotalText(e.fields[4].value) == Some(OrderTotal(items)) by {
      TotalTextRoundTrip(OrderTotal(items));
    }
    assert Unquote(e.fields[2].value) == Some(details.contactInfo) by {
      UnquoteRoundTrip(details.contactInfo);
    }
    ReadEmbedOf(e, Receipt(details.firstName, details.lastName, details.contactInfo, details.paymentMethod,
                           OrderTotal(items), Entries(items)));
  }

  /** An embed whose fixed parts are in place and whose values all parse is
      read back field by field. */
  lemma ReadEmbedOf(e: Embed, r: Receipt)
    requires e.title == Title && e.color == Color && e.footerText == FooterText
    requires Layout(e.fields) == FieldLayout
    requires e.fields[0].value == r.firstName && e.fields[1].value == r.lastName
    requires Unquote(e.fields[2].value) == Some(r.contactInfo)
    requires ParsePaymentMethod(e.fields[3].value) == Some(r.paymentMethod)
    requires ParseTotalText(e.fields[4].value) == Some(r.totalCents)
    requires ParseManifest(e.description) == Some(r.entries)
    ensures ReadEmbed(e) == Some(r)
  {
  }

  lemma TotalTextRoundTrip(cents: int)
    ensures ParseTotalText(TotalText(cents)) == Some(cents)
  {
    ToFixed2RoundTrip(cents);
    var t := TotalText(cents);
    assert t[..2] == "**" && t[|t| - 3..] == "€**" && t[2..|t| - 3] == ToFixed2(cents);
  }

  lemma UnquoteRoundTrip(s: string)
    ensures Unquote("`" + s + "`") == Some(s)
  {
    var c := "`" + s + "`";
    assert c[1..|c| - 1] == s;
  }

  // ---------------------------------------------------------------------
  // Sending

  /** What the webhook request came back with: a rejected request carries
      the transport's error message; a response carries its `ok` flag. The
      response body is never read, so it is not part of the value. */
  datatype Transport = Unreachable(reason: string) | Responded(ok: bool, statusText: string)

  /** How the send completes: with no value, or by throwing an error. */
  datatype Outcome = Delivered | Failed(message: string)

  /** The message of the error thrown on a non-ok response. */
  const NotOkMessage: string := "Échec de l'envoi de la notification Discord."

  /** The message that was posted and how the call completed. */
  datatype Delivery = Delivery(posted: Payload, outcome: Outcome)

  function SendOrder(details: OrderDetails, items: seq<Line>, transport: Transport): (d: Delivery)
    ensures d.posted == BuildPayload(details, items)
    ensures d.outcome == Delivered <==> transport.Responded? && transport.ok
    ensures transport.Responded? && !transport.ok ==> d.outcome == Failed(NotOkMessage)
    ensures transport.Unreachable? ==> d.outcome == Failed(transport.reason)
  {
    var payload := BuildPayload(details, items);
    match transport
    case Unreachable(reason) => Delivery(payload, Failed(reason))
    case Responded(ok, _) => Delivery(payload, if ok then Delivered else Failed(NotOkMessage))
  }
}
