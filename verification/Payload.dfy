/** How an order travels: the handlers store `JSON.stringify(order)` in a JSON column, reading a
    row stringifies the column once more, and the poller, the consumers and the compensation
    each have their own rule for how often to parse it. */
module Payload {
  import opened Domain
  import opened Json

  /** The `payload` of an `OutboxEventModel`, from the JSON value in the column. */
  function ModelPayload(column: Json): string {
    Stringify(column)
  }

  /** `String(j)`, which `JSON.parse` applies to its argument. */
  function ToText(j: Json): string
    decreases j, 1, 0
  {
    match j
    case Num(h) => Number(h)
    case Str(t) => t
    case Arr(es) => Joined(j, 0)
    case Obj(_) => "[" + ("object " + "Object") + "]"
  }

  function Joined(j: Json, i: nat): string
    requires j.Arr? && i <= |j.elements|
    decreases j, 0, |j.elements| - i
  {
    if i == |j.elements| then "" else (if i > 0 then "," else "") + ToText(j.elements[i]) + Joined(j, i + 1)
  }

  function ParseAgain(j: Option<Json>): Option<Json> {
    match j
    case None => None
    case Some(v) => Parse(ToText(v))
  }

  predicate StartsWith(text: string, c: char) {
    text != "" && text[0] == c
  }

  /** `processOutboxEvent`: twice if the text is a string literal. */
  function PollerDecode(text: string): Option<Json> {
    if StartsWith(text, '\"') then ParseAgain(Parse(text)) else Parse(text)
  }

  /** `executeCompensation`: again if the first parse gave a string. */
  function CompensationDecode(text: string): Option<Json> {
    match Parse(text)
    case Some(Str(t)) => Parse(t)
    case other => other
  }

  /** What a consumer is handed: the text, or the object the transport parsed it to. */
  datatype Wire = Text(text: string) | Parsed(value: Json)

  /** The transport passes a text on, or parses it first if it starts like an object or an array. */
  predicate Arrives(text: string, wire: Wire) {
    match wire
    case Text(t) => t == text
    case Parsed(v) => (StartsWith(text, '{') || StartsWith(text, '[')) && Parse(text) == Some(v)
  }

  /** The three consumers: once if the text is an object, else twice. */
  function ConsumerDecode(wire: Wire): Option<Json> {
    match wire
    case Parsed(v) => Some(v)
    case Text(t) => if StartsWith(t, '{') then Parse(t) else ParseAgain(Parse(t))
  }

  /** What a payload stands for, whether the column holds a text or the value itself. */
  function Meaning(column: Json): Option<Json> {
    if column.Str? then Parse(column.text) else Some(column)
  }

  lemma FirstOf(j: Json)
    ensures StartsWith(Stringify(j), '\"') <==> j.Str?
    ensures StartsWith(Stringify(j), '{') <==> j.Obj?
    ensures StartsWith(Stringify(j), '[') <==> j.Arr?
  {
    if j.Num? { DigitsBack((if j.hundredths < 0 then -j.hundredths else j.hundredths) / 100); }
  }

  /** The three rules give the same value, and the same failure, on every payload column that is
      not an array: a text stored stringified, well formed or not, and a value stored as it is. */
  lemma DecodersAgree(column: Json, wire: Wire)
    requires !column.Arr? && Arrives(ModelPayload(column), wire)
    ensures PollerDecode(ModelPayload(column)) == Meaning(column)
    ensures CompensationDecode(ModelPayload(column)) == Meaning(column)
    ensures ConsumerDecode(wire) == Meaning(column)
  {
    ParseStringify(column);
    FirstOf(column);
  }

  // ----------------------------------------------------------------- an order as a payload

  function Whole(n: nat): Json {
    Num(100 * n)
  }

  function ItemJson(item: Item): Json {
    Obj([("productId", Whole(item.productId)), ("quantity", Whole(item.quantity)), ("price", Num(item.price))])
  }

  function ItemsJson(items: seq<Item>): (r: seq<Json>)
    ensures |r| == |items|
  {
    if items == [] then [] else [ItemJson(items[0])] + ItemsJson(items[1..])
  }

  function HeadJson(info: OrderInfo): Json {
    Obj([("id", Whole(info.id)), ("userId", Whole(info.userId)), ("status", Str("PENDING_PAYMENT"))])
  }

  /** `CreateOrderInfo` as an object. Prices are in hundredths already. */
  function OrderJson(info: OrderInfo): Json {
    Obj([("order", HeadJson(info)), ("orderItems", Arr(ItemsJson(info.items)))])
  }

  // ------------------------------------------------------------------- an order as a text

  function Field(name: string, value: string, rest: string): string {
    "\"" + name + "\":" + value + rest
  }

  function ItemText(item: Item): string {
    "{" + Field("productId", Digits(item.productId),
                "," + Field("quantity", Digits(item.quantity),
                            "," + Field("price", Number(item.price), "}")))
  }

  /** The items from the front, each but the first after a comma, and the closing bracket. */
  function ItemsText(items: seq<Item>, first: bool): string {
    if items == [] then "]"
    else (if first then "" else ",") + ItemText(items[0]) + ItemsText(items[1..], false)
  }

  function HeadText(info: OrderInfo): string {
    "{" + Field("id", Digits(info.id),
                "," + Field("userId", Digits(info.userId),
                            "," + Field("status", Quote("PENDING_PAYMENT"), "}")))
  }

  function OrderText(info: OrderInfo): string {
    "{" + Field("order", HeadText(info), "," + Field("orderItems", "[" + ItemsText(info.items, true), "}"))
  }

  lemma Hundreds(n: nat)
    ensures 100 * n / 100 == n && 100 * n % 100 == 0
  {
  }

  lemma NothingAfter(s: string)
    ensures s + "" == s
  {
  }

  lemma WholeText(n: nat)
    ensures Stringify(Whole(n)) == Digits(n)
  {
    Hundreds(n);
    NothingAfter(Digits(n));
  }

  lemma FieldText(separator: string, name: string, value: string, rest: string)
    requires Plain(name)
    ensures separator + Quote(name) + ":" + value + rest == separator + Field(name, value, rest)
  {
    PlainText(name);
    var (x, y) := (separator + Quote(name) + ":" + value + rest, separator + Field(name, value, rest));
    assert |x| == |y|;
    assert forall i | 0 <= i < |x| :: x[i] == y[i];
  }

  /** The members of an object from the `i`th on, given the text of the later ones. */
  lemma MembersField(j: Json, i: nat, value: string, rest: string)
    requires j.Obj? && i < |j.members| && Plain(j.members[i].0)
    requires Stringify(j.members[i].1) == value && Members(j, i + 1) == rest
    ensures Members(j, i) == (if i == 0 then "" else ",") + Field(j.members[i].0, value, rest)
  {
    FieldText(if i == 0 then "" else ",", j.members[i].0, value, rest);
  }

  lemma Object3Text(a: (string, Json), b: (string, Json), c: (string, Json), x: string, y: string, z: string)
    requires Plain(a.0) && Plain(b.0) && Plain(c.0)
    requires Stringify(a.1) == x && Stringify(b.1) == y && Stringify(c.1) == z
    ensures Stringify(Obj([a, b, c])) == "{" + Field(a.0, x, "," + Field(b.0, y, "," + Field(c.0, z, "}")))
  {
    var j := Obj([a, b, c]);
    MembersField(j, 2, z, "}");
    MembersField(j, 1, y, Members(j, 2));
    MembersField(j, 0, x, Members(j, 1));
    NoSeparator(Field(a.0, x, Members(j, 1)));
  }

  lemma Object2Text(a: (string, Json), b: (string, Json), x: string, y: string)
    requires Plain(a.0) && Plain(b.0)
    requires Stringify(a.1) == x && Stringify(b.1) == y
    ensures Stringify(Obj([a, b])) == "{" + Field(a.0, x, "," + Field(b.0, y, "}"))
  {
    var j := Obj([a, b]);
    MembersField(j, 1, y, "}");
    MembersField(j, 0, x, Members(j, 1));
    NoSeparator(Field(a.0, x, Members(j, 1)));
  }

  lemma NoSeparator(s: string)
    ensures "" + s == s
  {
  }

  lemma ItemJsonText(item: Item)
    ensures Stringify(ItemJson(item)) == ItemText(item)
  {
    WholeText(item.productId);
    WholeText(item.quantity);
    PlainNames();
    Object3Text(("productId", Whole(item.productId)), ("quantity", Whole(item.quantity)), ("price", Num(item.price)),
                Digits(item.productId), Digits(item.quantity), Number(item.price));
  }

  lemma {:induction false} ItemsJsonText(items: seq<Item>, before: seq<Item>)
    ensures Elements(Arr(ItemsJson(before + items)), |before|) == ItemsText(items, before == [])
    decreases |items|
  {
    ItemsJsonAt(before + items);
    if items == [] {
      assert before + items == before;
    } else {
      assert before + items == before + [items[0]] + items[1..];
      ItemsJsonText(items[1..], before + [items[0]]);
      ItemJsonText(items[0]);
    }
  }

  lemma {:induction false} ItemsJsonAt(items: seq<Item>)
    ensures forall i | 0 <= i < |items| :: ItemsJson(items)[i] == ItemJson(items[i])
  {
    if items != [] { ItemsJsonAt(items[1..]); }
  }

  lemma PlainNames()
    ensures Plain("id") && Plain("userId") && Plain("status") && Plain("order") && Plain("orderItems")
    ensures Plain("productId") && Plain("quantity") && Plain("price")
  {
  }

  lemma HeadJsonText(info: OrderInfo)
    ensures Stringify(HeadJson(info)) == HeadText(info)
  {
    WholeText(info.id);
    WholeText(info.userId);
    PlainNames();
    Object3Text(("id", Whole(info.id)), ("userId", Whole(info.userId)), ("status", Str("PENDING_PAYMENT")),
                Digits(info.id), Digits(info.userId), Quote("PENDING_PAYMENT"));
  }

  /** What an order is stored as: its own id, user and status, and its items in order. */
  lemma OrderJsonText(info: OrderInfo)
    ensures Stringify(OrderJson(info)) == OrderText(info)
  {
    var items := Arr(ItemsJson(info.items));
    HeadJsonText(info);
    PlainNames();
    ItemsJsonText(info.items, []);
    assert [] + info.items == info.items;
    assert Stringify(items) == "[" + ItemsText(info.items, true);
    Object2Text(("order", HeadJson(info)), ("orderItems", items), HeadText(info), Stringify(items));
  }

  // ------------------------------------------------------------------------ and read again

  /** A property of an object: the last member of that name. */
  function Property(j: Json, name: string): Option<Json> {
    if j.Obj? then Member(j.members, name) else None
  }

  function Member(members: seq<(string, Json)>, name: string): Option<Json> {
    if members == [] then None
    else if members[|members| - 1].0 == name then Some(members[|members| - 1].1)
    else Member(members[..|members| - 1], name)
  }

  function AsPrice(j: Option<Json>): Option<nat> {
    match j
    case Some(Num(h)) => if h >= 0 then Some(h) else None
    case _ => None
  }

  function AsWhole(j: Option<Json>): Option<nat> {
    match AsPrice(j)
    case Some(h) => if h % 100 == 0 then Some(h / 100) else None
    case None => None
  }

  function ItemOf(j: Json): Option<Item> {
    match (AsWhole(Property(j, "productId")), AsWhole(Property(j, "quantity")), AsPrice(Property(j, "price")))
    case (Some(p), Some(q), Some(c)) => Some(Item(p, q, c))
    case _ => None
  }

  function ItemsOf(js: seq<Json>): Option<seq<Item>> {
    if js == [] then Some([])
    else
      match (ItemOf(js[0]), ItemsOf(js[1..]))
      case (Some(item), Some(more)) => Some([item] + more)
      case _ => None
  }

  function OrderOf(j: Json): Option<OrderInfo> {
    match (Property(j, "order"), Property(j, "orderItems"))
    case (Some(order), Some(Arr(items))) =>
      (match (AsWhole(Property(order, "id")), AsWhole(Property(order, "userId")), ItemsOf(items))
       case (Some(id), Some(user), Some(list)) => Some(OrderInfo(id, user, list))
       case _ => None)
    case _ => None
  }

  lemma PropertyOf3(a: (string, Json), b: (string, Json), c: (string, Json))
    requires a.0 != b.0 && a.0 != c.0 && b.0 != c.0
    ensures var j := Obj([a, b, c]);
            Property(j, a.0) == Some(a.1) && Property(j, b.0) == Some(b.1) && Property(j, c.0) == Some(c.1)
  {
    assert [a, b, c][..2] == [a, b] && [a, b][..1] == [a];
    assert Member([a], a.0) == Some(a.1);
    assert Member([a, b], a.0) == Some(a.1) && Member([a, b], b.0) == Some(b.1);
  }

  lemma ItemBack(item: Item)
    ensures ItemOf(ItemJson(item)) == Some(item)
  {
    PropertyOf3(("productId", Whole(item.productId)), ("quantity", Whole(item.quantity)), ("price", Num(item.price)));
  }

  lemma {:induction false} ItemsBack(items: seq<Item>)
    ensures ItemsOf(ItemsJson(items)) == Some(items)
  {
    if items != [] {
      ItemBack(items[0]);
      ItemsBack(items[1..]);
      assert ItemsJson(items)[1..] == ItemsJson(items[1..]);
      assert [items[0]] + items[1..] == items;
    }
  }

  lemma PropertyOf2(a: (string, Json), b: (string, Json))
    requires a.0 != b.0
    ensures Property(Obj([a, b]), a.0) == Some(a.1) && Property(Obj([a, b]), b.0) == Some(b.1)
  {
    assert [a, b][..1] == [a];
    assert Member([a], a.0) == Some(a.1);
  }

  lemma OrderBack(info: OrderInfo)
    ensures OrderOf(OrderJson(info)) == Some(info)
  {
    PropertyOf3(("id", Whole(info.id)), ("userId", Whole(info.userId)), ("status", Str("PENDING_PAYMENT")));
    ItemsBack(info.items);
    PropertyOf2(("order", HeadJson(info)), ("orderItems", Arr(ItemsJson(info.items))));
  }

  /** What a handler stores for an order. */
  function StoredPayload(info: OrderInfo): Json {
    Str(Stringify(OrderJson(info)))
  }

  /** Whoever reads a stored order, published or not, gets exactly that order back. */
  lemma StoredOrdersAreRead(info: OrderInfo, wire: Wire)
    requires Arrives(ModelPayload(StoredPayload(info)), wire)
    ensures var text := ModelPayload(StoredPayload(info));
            && PollerDecode(text) == CompensationDecode(text) == ConsumerDecode(wire) == Some(OrderJson(info))
            && OrderOf(ConsumerDecode(wire).value) == Some(info)
  {
    DecodersAgree(StoredPayload(info), wire);
    ParseStringify(OrderJson(info));
    OrderBack(info);
  }

  /** What the next stage stores after reading this one. */
  function NextStage(column: Option<Json>): Option<Json> {
    match column
    case None => None
    case Some(c) =>
      match ConsumerDecode(Text(ModelPayload(c)))
      case None => None
      case Some(j) => Some(Str(Stringify(j)))
  }

  function Times<T>(f: T -> T, n: nat, x: T): T {
    if n == 0 then x else f(Times(f, n - 1, x))
  }

  lemma {:induction false} FixedPoint<T>(f: T -> T, n: nat, x: T)
    requires f(x) == x
    ensures Times(f, n, x) == x
  {
    if n > 0 { FixedPoint(f, n - 1, x); }
  }

  lemma NextStageCarries(info: OrderInfo)
    ensures NextStage(Some(StoredPayload(info))) == Some(StoredPayload(info))
  {
    StoredOrdersAreRead(info, Text(ModelPayload(StoredPayload(info))));
  }

  /** Every stage of an order carries the payload it was created with. */
  lemma PayloadIsCarried(info: OrderInfo, n: nat)
    ensures Times(NextStage, n, Some(StoredPayload(info))) == Some(StoredPayload(info))
  {
    NextStageCarries(info);
    FixedPoint(NextStage, n, Some(StoredPayload(info)));
  }

  /** The aggregate of an order's outbox rows. */
  function AggregateId(id: nat): string {
    "order-" + Digits(id)
  }

  /** Orders do not share outbox keys. */
  lemma AggregateIdsDiffer(a: nat, b: nat)
    requires AggregateId(a) == AggregateId(b)
    ensures a == b
  {
    assert AggregateId(a)[6..] == Digits(a) && AggregateId(b)[6..] == Digits(b);
    DigitsBack(a);
    DigitsBack(b);
  }
}
