/** The marketplace's data model: the choice tables and their closed
    enumerations, the records with their field defaults, and the text that
    Service and Order render themselves as. Users belong to the
    authentication framework and appear only as opaque ids; timestamps are
    plain integers. */
module Models {

  datatype Option<T> = None | Some(value: T)

  /** The primary key of a user of the authentication framework. */
  type UserId = int

  // ---------------------------------------------------------------------
  // Choice tables
  // ---------------------------------------------------------------------

  /** The service category a Service or Order is filed under. */
  datatype Category =
    | WebDevelopment | Marketing | Copywriting | Rewriting | Translation | VideoEditing | Photography
  {
    /** The one-character code stored in `service_type`. */
    function Code(): string {
      match this
      case WebDevelopment => "1"
      case Marketing => "2"
      case Copywriting => "3"
      case Rewriting => "4"
      case Translation => "5"
      case VideoEditing => "6"
      case Photography => "7"
    }

    /** The human-readable label shown for the code. */
    function Label(): string {
      match this
      case WebDevelopment => "Веб разработка"
      case Marketing => "Маркетинг"
      case Copywriting => "Копирайтинг"
      case Rewriting => "Рерайтинг"
      case Translation => "Переводы"
      case VideoEditing => "Видеомонтаж"
      case Photography => "Фотографии"
    }
  }

  /** The complaint severity of a Ticket. */
  datatype Severity = Low | Medium | High
  {
    function Code(): string {
      match this
      case Low => "1"
      case Medium => "2"
      case High => "3"
    }

    function Label(): string {
      match this
      case Low => "Низкая"
      case Medium => "Средняя"
      case High => "Высокая"
    }
  }

  /** The star rating of a Review; its label is the number of stars. */
  datatype Rating = One | Two | Three | Four | Five
  {
    function Code(): string {
      match this
      case One => "1"
      case Two => "2"
      case Three => "3"
      case Four => "4"
      case Five => "5"
    }

    function Stars(): int {
      match this
      case One => 1
      case Two => 2
      case Three => 3
      case Four => 4
      case Five => 5
    }
  }

  /** `Service.SERVICE_TYPES`: stored code to display label. */
  const ServiceTypes: seq<(string, string)> := [
    ("1", "Веб разработка"),
    ("2", "Маркетинг"),
    ("3", "Копирайтинг"),
    ("4", "Рерайтинг"),
    ("5", "Переводы"),
    ("6", "Видеомонтаж"),
    ("7", "Фотографии")
  ]

  /** `Order.ORDER_TYPES`, declared separately from `ServiceTypes`. */
  const OrderTypes: seq<(string, string)> := [
    ("1", "Веб разработка"),
    ("2", "Маркетинг"),
    ("3", "Копирайтинг"),
    ("4", "Рерайтинг"),
    ("5", "Переводы"),
    ("6", "Видеомонтаж"),
    ("7", "Фотографии")
  ]

  /** `Ticket.SEVERITIES`. */
  const Severities: seq<(string, string)> := [
    ("1", "Низкая"),
    ("2", "Средняя"),
    ("3", "Высокая")
  ]

  /** `Review.RATING_FILLED`: the labels are integers, not text. */
  const RatingFilled: seq<(string, int)> := [
    ("1", 1),
    ("2", 2),
    ("3", 3),
    ("4", 4),
    ("5", 5)
  ]

  /** The label a choice table gives a code. The table is read as a
      dictionary, so when a code were listed twice its last entry would win. */
  function Lookup<L>(choices: seq<(string, L)>, code: string): (r: Option<L>)
    ensures r.None? <==> forall i :: 0 <= i < |choices| ==> choices[i].0 != code
    ensures r.Some? ==> exists i :: 0 <= i < |choices| && choices[i] == (code, r.value)
  {
    if choices == [] then None
    else if choices[|choices| - 1].0 == code then Some(choices[|choices| - 1].1)
    else Lookup(choices[..|choices| - 1], code)
  }

  /** `get_<field>_display()` for a text-labelled choice field: the label of
      the stored code, or the code itself when the table does not list it. */
  function Display(choices: seq<(string, string)>, code: string): (r: string)
    ensures (forall i :: 0 <= i < |choices| ==> choices[i].0 != code) ==> r == code
    ensures (exists i :: 0 <= i < |choices| && choices[i].0 == code) ==> (code, r) in choices
  {
    match Lookup(choices, code)
    case Some(text) => text
    case None => code
  }

  /** No code is listed twice in a table, so every code has exactly one label. */
  ghost predicate CodesDistinct<L>(choices: seq<(string, L)>) {
    forall i, j :: 0 <= i < j < |choices| ==> choices[i].0 != choices[j].0
  }

  /** In a table without repeated codes, each listed code is looked up to
      the label it is listed with. */
  lemma LookupListed<L>(choices: seq<(string, L)>, i: int)
    requires CodesDistinct(choices) && 0 <= i < |choices|
    ensures Lookup(choices, choices[i].0) == Some(choices[i].1)
  {
  }

  /** `ORDER_TYPES` is the very table `SERVICE_TYPES` is; both have seven
      distinct codes, and each of them is the code of exactly one category,
      whose label the table gives. */
  lemma CategoryTables(c: Category)
    ensures OrderTypes == ServiceTypes
    ensures |ServiceTypes| == 7 && CodesDistinct(ServiceTypes)
    ensures Lookup(ServiceTypes, c.Code()) == Some(c.Label())
    ensures Display(ServiceTypes, c.Code()) == c.Label()
    ensures forall i :: 0 <= i < |ServiceTypes| ==> CategoryFromCode(ServiceTypes[i].0).Some?
  {
    var k := match c
      case WebDevelopment => 0 case Marketing => 1 case Copywriting => 2 case Rewriting => 3
      case Translation => 4 case VideoEditing => 5 case Photography => 6;
    LookupListed(ServiceTypes, k);
  }

  /** `SEVERITIES` lists each severity once, with its label. */
  lemma SeverityTable(s: Severity)
    ensures |Severities| == 3 && CodesDistinct(Severities)
    ensures Lookup(Severities, s.Code()) == Some(s.Label())
    ensures forall i :: 0 <= i < |Severities| ==> SeverityFromCode(Severities[i].0).Some?
  {
    var k := match s case Low => 0 case Medium => 1 case High => 2;
    LookupListed(Severities, k);
  }

  /** `RATING_FILLED` lists each rating once, labelled by its number of
      stars, so the displayed rating is its own code. */
  lemma RatingTable(r: Rating)
    ensures |RatingFilled| == 5 && CodesDistinct(RatingFilled)
    ensures Lookup(RatingFilled, r.Code()) == Some(r.Stars())
    ensures 1 <= r.Stars() <= 5
    ensures RatingDisplay(r) == r.Code()
  {
    LookupListed(RatingFilled, r.Stars() - 1);
  }

  /** The category a stored code stands for, if any. */
  function CategoryFromCode(code: string): (r: Option<Category>)
    ensures r.Some? ==> r.value.Code() == code
    ensures forall c: Category :: c.Code() == code ==> r == Some(c)
  {
    if code == "1" then Some(WebDevelopment)
    else if code == "2" then Some(Marketing)
    else if code == "3" then Some(Copywriting)
    else if code == "4" then Some(Rewriting)
    else if code == "5" then Some(Translation)
    else if code == "6" then Some(VideoEditing)
    else if code == "7" then Some(Photography)
    else None
  }

  function SeverityFromCode(code: string): (r: Option<Severity>)
    ensures r.Some? ==> r.value.Code() == code
    ensures forall s: Severity :: s.Code() == code ==> r == Some(s)
  {
    if code == "1" then Some(Low)
    else if code == "2" then Some(Medium)
    else if code == "3" then Some(High)
    else None
  }

  function RatingFromCode(code: string): (r: Option<Rating>)
    ensures r.Some? ==> r.value.Code() == code
    ensures forall v: Rating :: v.Code() == code ==> r == Some(v)
  {
    if code == "1" then Some(One)
    else if code == "2" then Some(Two)
    else if code == "3" then Some(Three)
    else if code == "4" then Some(Four)
    else if code == "5" then Some(Five)
    else None
  }

  /** The text of `get_rating_display()`: the integer label the table gives
      the rating, written in decimal. Nothing in the repository calls it. */
  function RatingDisplay(r: Rating): string {
    match Lookup(RatingFilled, r.Code())
    case Some(stars) => IntToString(stars)
    case None => r.Code()
  }

  // ---------------------------------------------------------------------
  // Defaults
  // ---------------------------------------------------------------------

  const DefaultCategory: Category := WebDevelopment
  const DefaultSeverity: Severity := Low
  const DefaultRating: Rating := One

  // ---------------------------------------------------------------------
  // Records. Every row has an integer primary key `id`; a foreign key is
  // the `id` of the row it refers to, optional where the column is
  // nullable.
  // ---------------------------------------------------------------------

  datatype Executor = Executor(id: int, user: UserId, phone: string)

  datatype Service = Service(id: int, executor: int, name: string, description: string,
                             price: int, serviceType: Category)

  datatype Customer = Customer(id: int, user: UserId, phone: string)

  datatype Order = Order(id: int, customer: int, name: string, description: string,
                         price: int, serviceType: Category)

  datatype Tag = Tag(id: int, service: Option<int>, order: Option<int>, name: string)

  datatype Ordering = Ordering(id: int, customer: int, executor: int, service: Option<int>,
                               order: Option<int>, orderDate: int, deadline: int)

  datatype Message = Message(id: int, customer: int, executor: int, msgDate: int,
                             isEdited: bool, message: string)

  datatype Ticket = Ticket(id: int, customer: Option<int>, executor: Option<int>, severity: Severity,
                           description: string, ticketDate: int, isResolved: bool)

  datatype Review = Review(id: int, rating: Rating, description: string)

  datatype Authoring = Authoring(id: int, review: int, author: UserId, customer: Option<int>,
                                 executor: Option<int>, reviewDate: int)

  /** A new Service; `service_type` falls back to its default when omitted. */
  function NewService(id: int, executor: int, name: string, description: string, price: int,
                      serviceType: Option<Category>): (s: Service)
    ensures s.id == id && s.executor == executor && s.price == price
    ensures s.name == name && s.description == description
    ensures serviceType.None? ==> s.serviceType.Code() == "1"
    ensures serviceType.Some? ==> s.serviceType == serviceType.value
  {
    Service(id, executor, name, description, price,
            match serviceType case Some(c) => c case None => DefaultCategory)
  }

  /** A new Order; `service_type` falls back to its default when omitted. */
  function NewOrder(id: int, customer: int, name: string, description: string, price: int,
                    serviceType: Option<Category>): (o: Order)
    ensures o.id == id && o.customer == customer && o.price == price
    ensures o.name == name && o.description == description
    ensures serviceType.None? ==> o.serviceType.Code() == "1"
    ensures serviceType.Some? ==> o.serviceType == serviceType.value
  {
    Order(id, customer, name, description, price,
          match serviceType case Some(c) => c case None => DefaultCategory)
  }

  /** A new Message; `is_edited` falls back to false when omitted. */
  function NewMessage(id: int, customer: int, executor: int, msgDate: int, isEdited: Option<bool>,
                      text: string): (m: Message)
    ensures isEdited.None? ==> !m.isEdited
    ensures isEdited.Some? ==> m.isEdited == isEdited.value
    ensures m.id == id && m.customer == customer && m.executor == executor
    ensures m.msgDate == msgDate && m.message == text
  {
    Message(id, customer, executor, msgDate, match isEdited case Some(b) => b case None => false, text)
  }

  /** A new Ticket; `severity` falls back to low and `is_resolved` to false
      when omitted. */
  function NewTicket(id: int, customer: Option<int>, executor: Option<int>, severity: Option<Severity>,
                     description: string, ticketDate: int, isResolved: Option<bool>): (t: Ticket)
    ensures isResolved.None? ==> !t.isResolved
    ensures isResolved.Some? ==> t.isResolved == isResolved.value
    ensures t.id == id && t.customer == customer && t.executor == executor
    ensures t.description == description && t.ticketDate == ticketDate
    ensures severity.None? ==> t.severity.Code() == "1"
    ensures severity.Some? ==> t.severity == severity.value
  {
    Ticket(id, customer, executor, match severity case Some(s) => s case None => DefaultSeverity,
           description, ticketDate, match isResolved case Some(b) => b case None => false)
  }

  /** A new Review; `rating` falls back to one star. */
  function NewReview(id: int, rating: Option<Rating>, description: string): (v: Review)
    ensures v.id == id && v.description == description
    ensures rating.None? ==> v.rating.Code() == "1"
    ensures rating.Some? ==> v.rating == rating.value
  {
    Review(id, match rating case Some(r) => r case None => DefaultRating, description)
  }

  // ---------------------------------------------------------------------
  // Text rendering
  // ---------------------------------------------------------------------

  predicate IsDigit(ch: char) {
    '0' <= ch <= '9'
  }

  function DigitChar(d: nat): (ch: char)
    requires d < 10
    ensures IsDigit(ch) && ch as int - '0' as int == d
  {
    "0123456789"[d]
  }

  /** The decimal digits of a natural number, without leading zeros. */
  function NatToString(n: nat): (s: string)
    ensures |s| >= 1
    ensures forall i :: 0 <= i < |s| ==> IsDigit(s[i])
  {
    if n < 10 then [DigitChar(n)] else NatToString(n / 10) + [DigitChar(n % 10)]
  }

  /** How an integer is formatted into text: a minus sign for a negative
      value, then its decimal digits. */
  function IntToString(n: int): string {
    if n < 0 then "-" + NatToString(-n) else NatToString(n)
  }

  /** The number a string of decimal digits denotes. */
  function DigitsValue(s: string): nat
    requires forall i :: 0 <= i < |s| ==> IsDigit(s[i])
  {
    if s == [] then 0
    else
      assert IsDigit(s[|s| - 1]);
      DigitsValue(s[..|s| - 1]) * 10 + (s[|s| - 1] as int - '0' as int)
  }

  /** Reads an integer written as an optional minus sign and one or more
      decimal digits; anything else reads as nothing. */
  function ReadInt(s: string): Option<int> {
    if |s| >= 2 && s[0] == '-' && forall i :: 1 <= i < |s| ==> IsDigit(s[i]) then
      var magnitude: int := DigitsValue(s[1..]);
      Some(-magnitude)
    else if |s| >= 1 && forall i :: 0 <= i < |s| ==> IsDigit(s[i]) then
      Some(DigitsValue(s))
    else None
  }

  lemma {:induction false} DigitsRoundTrip(n: nat)
    ensures DigitsValue(NatToString(n)) == n
  {
    if n >= 10 {
      var s := NatToString(n);
      assert s[..|s| - 1] == NatToString(n / 10);
      DigitsRoundTrip(n / 10);
    }
  }

  /** Formatting an integer and reading the text back gives the integer. */
  lemma IntRoundTrip(n: int)
    ensures ReadInt(IntToString(n)) == Some(n)
  {
    if n < 0 {
      var s := IntToString(n);
      assert s[1..] == NatToString(-n);
      DigitsRoundTrip(-n);
    } else {
      DigitsRoundTrip(n);
    }
  }

  /** `Service.__str__`: "<name>, <category label>, price: <price>". */
  function ServiceStr(s: Service): string {
    s.name + ", " + Display(ServiceTypes, s.serviceType.Code()) + ", price: " + IntToString(s.price)
  }

  /** `Order.__str__`: "<name>, <category label>, price: <price>". */
  function OrderStr(o: Order): string {
    o.name + ", " + Display(OrderTypes, o.serviceType.Code()) + ", price: " + IntToString(o.price)
  }

  /** The text of a Service starts with its name and the label of its
      category, and what follows ", price: " reads back as its price. */
  lemma ServiceStrReadsBack(s: Service)
    ensures var head := s.name + ", " + s.serviceType.Label() + ", price: ";
            head <= ServiceStr(s) && ReadInt(ServiceStr(s)[|head|..]) == Some(s.price)
  {
    CategoryTables(s.serviceType);
    var head := s.name + ", " + s.serviceType.Label() + ", price: ";
    assert ServiceStr(s) == head + IntToString(s.price);
    assert ServiceStr(s)[|head|..] == IntToString(s.price);
    IntRoundTrip(s.price);
  }

  /** The same holds of an Order, whose table is the same. */
  lemma OrderStrReadsBack(o: Order)
    ensures var head := o.name + ", " + o.serviceType.Label() + ", price: ";
            head <= OrderStr(o) && ReadInt(OrderStr(o)[|head|..]) == Some(o.price)
  {
    CategoryTables(o.serviceType);
    var head := o.name + ", " + o.serviceType.Label() + ", price: ";
    assert OrderStr(o) == head + IntToString(o.price);
    assert OrderStr(o)[|head|..] == IntToString(o.price);
    IntRoundTrip(o.price);
  }
}
