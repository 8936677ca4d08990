/**
 * The order item entity: its status constants, the lookup of a status code's
 * name (getStatusKey) and of its translated label (getStatusText).
 */
module OrderItemModel {
  import opened Wrappers

  /** The four statuses an order item can have. */
  datatype ItemStatus = Cancelled | Served | Preparing | Pending

  /** The integer stored in the status column for each status. */
  function Code(s: ItemStatus): int {
    match s
    case Cancelled => 0
    case Served => 3
    case Preparing => 4
    case Pending => 5
  }

  /** Reads a status column back; codes outside the four constants have no status. */
  function FromCode(c: int): (r: Option<ItemStatus>)
    ensures r.Some? <==> c in {0, 3, 4, 5}
    ensures r.Some? ==> Code(r.value) == c
  {
    if c == 0 then Some(Cancelled)
    else if c == 3 then Some(Served)
    else if c == 4 then Some(Preparing)
    else if c == 5 then Some(Pending)
    else None
  }

  /** Distinct statuses are stored as distinct codes. */
  lemma CodeInjective(s: ItemStatus, t: ItemStatus)
    ensures Code(s) == Code(t) ==> s == t
  {
  }

  /** Decoding a stored code gives back the status that was stored. */
  lemma FromCodeRoundTrip(s: ItemStatus)
    ensures FromCode(Code(s)) == Some(s)
  {
  }

  /**
   * The codes descend along the life of an item, so sorting by status
   * descending lists pending items first and cancelled ones last.
   */
  lemma CodesDescend()
    ensures Code(Pending) > Code(Preparing) > Code(Served) > Code(Cancelled)
  {
  }

  /** The English name of each status. */
  function KeyName(s: ItemStatus): string {
    match s
    case Cancelled => "Cancelled"
    case Served => "Served"
    case Preparing => "Preparing"
    case Pending => "Pending"
  }

  /** getStatusKey answers with a status name, or with its argument when no name is known. */
  datatype StatusKey = Name(name: string) | Unknown(code: int)

  /** The lookup table of getStatusKey, from code to name. */
  function KeyTable(): map<int, string> {
    map[0 := "Cancelled", 3 := "Served", 4 := "Preparing", 5 := "Pending"]
  }

  function GetStatusKey(code: int): (k: StatusKey)
    ensures k.Unknown? <==> FromCode(code).None?
    ensures k.Unknown? ==> k.code == code
    ensures k.Name? ==> k.name == KeyName(FromCode(code).value)
  {
    var keys := KeyTable();
    if code in keys then Name(keys[code]) else Unknown(code)
  }

  /** Different codes never share a key, known or not. */
  lemma GetStatusKeyInjective(c1: int, c2: int)
    ensures GetStatusKey(c1) == GetStatusKey(c2) ==> c1 == c2
  {
    if GetStatusKey(c1) == GetStatusKey(c2) && GetStatusKey(c1).Name? {
      var s1, s2 := FromCode(c1).value, FromCode(c2).value;
      assert KeyName(s1) == KeyName(s2);
    }
  }

  /** The translation key of each status label. */
  function MessageKey(s: ItemStatus): string {
    match s
    case Cancelled => "messages.statusCancelled"
    case Served => "messages.statusServed"
    case Preparing => "messages.statusPreparing"
    case Pending => "messages.statusPending"
  }

  /** getStatusTexts: code to translated label; `trans` is the translation service. */
  function StatusTexts(trans: string -> string): map<int, string> {
    map[
      0 := trans("messages.statusCancelled"),
      3 := trans("messages.statusServed"),
      4 := trans("messages.statusPreparing"),
      5 := trans("messages.statusPending")
    ]
  }

  /** getStatusText answers with a translated label, or with the raw status value. */
  datatype StatusLabel = Translated(text: string) | RawStatus(code: int)

  function GetStatusText(status: int, trans: string -> string): (r: StatusLabel)
    ensures FromCode(status).Some? ==> r == Translated(trans(MessageKey(FromCode(status).value)))
    ensures FromCode(status).None? ==> r == RawStatus(status)
  {
    var texts := StatusTexts(trans);
    if status in texts then Translated(texts[status]) else RawStatus(status)
  }

  /**
   * A row of the order_items table. `price` is the menu price copied when the
   * row was created; `amount` is the ordered quantity.
   */
  datatype OrderItem = OrderItem(
    id: nat,
    orderId: nat,
    itemId: nat,
    price: int,
    amount: int,
    status: ItemStatus,
    comment: string)
}
