/**
 The parameters of the wallet RPC method `make_uri` (build a payment URI)
 and their JSON encoding.

 The encoding follows the field-level schema that the source declares with
 one JSON attribute per property: a wire name (the property name unless one
 is given) and an omit-empty flag. Schema holds those declarations as data,
 and EncodeFields interprets any such schema whose wire names are distinct;
 Encode is that interpretation for the five declared fields.
 */
module MakeUri {
  import opened Wrappers

  /** A wallet address, carried through unchanged. */
  datatype Address = Address(text: string)

  /** An amount in piconero, carried through unchanged. */
  datatype Amount = Amount(piconero: int)

  /** A JSON value as the encoding produces it. */
  datatype WireValue = AddressValue(address: Address) | AmountValue(amount: Amount) | Text(text: string) | Null

  /** The five properties of the request. */
  datatype Field = AddressField | AmountField | PaymentIdField | RecipientNameField | TxDescriptionField

  /** One JSON attribute: the field it annotates, its explicit wire name
      (None: the property name is used) and its omit-empty flag. */
  datatype JsonAttr = JsonAttr(field: Field, name: Option<string>, omitEmpty: bool)

  /** The PHP property name of each field. */
  function PropertyName(f: Field): string
  {
    match f
    case AddressField => "address"
    case AmountField => "amount"
    case PaymentIdField => "paymentId"
    case RecipientNameField => "recipientName"
    case TxDescriptionField => "txDescription"
  }

  /** The key under which an attribute's field is encoded. */
  function WireName(a: JsonAttr): string
  {
    match a.name
    case Some(n) => n
    case None => PropertyName(a.field)
  }

  /** The declared attributes, in property order. */
  const Schema: seq<JsonAttr> := [
    JsonAttr(AddressField, None, false),
    JsonAttr(AmountField, None, true),
    JsonAttr(PaymentIdField, Some("payment_id"), true),
    JsonAttr(RecipientNameField, Some("recipient_name"), true),
    JsonAttr(TxDescriptionField, Some("tx_description"), true)
  ]

  /** No two attributes of a schema share a wire name. */
  predicate DistinctWireNames(attrs: seq<JsonAttr>)
  {
    forall i, j :: 0 <= i < j < |attrs| ==> WireName(attrs[i]) != WireName(attrs[j])
  }

  /** The wire names a schema can produce. */
  function WireNames(attrs: seq<JsonAttr>): set<string>
  {
    set i | 0 <= i < |attrs| :: WireName(attrs[i])
  }

  /** The declared wire names: `address` and `amount` by their property
      names, the other three by their explicit names; all distinct. */
  lemma SchemaWireNames()
    ensures |Schema| == 5 && DistinctWireNames(Schema)
    ensures WireName(Schema[0]) == "address" && !Schema[0].omitEmpty
    ensures WireName(Schema[1]) == "amount" && Schema[1].omitEmpty
    ensures WireName(Schema[2]) == "payment_id" && Schema[2].omitEmpty
    ensures WireName(Schema[3]) == "recipient_name" && Schema[3].omitEmpty
    ensures WireName(Schema[4]) == "tx_description" && Schema[4].omitEmpty
    ensures WireNames(Schema) == {"address", "amount", "payment_id", "recipient_name", "tx_description"}
  {
    var names := WireNames(Schema);
    assert WireName(Schema[0]) in names && WireName(Schema[1]) in names && WireName(Schema[2]) in names;
    assert WireName(Schema[3]) in names && WireName(Schema[4]) in names;
  }

  /** The request built by `make_uri`'s `create`: a method name and its parameters. */
  datatype RpcRequest = RpcRequest(methodName: string, params: MakeUriRequest)

  /** PHP's `MakeUriRequest`: one field per property, null as None. */
  class MakeUriRequest {
    var address: Address
    var amount: Option<Amount>
    var paymentId: Option<string>
    var recipientName: Option<string>
    var txDescription: Option<string>

    /** `new self()`: the fields are assigned by Create. */
    constructor ()
    {
    }

    /** The value of a field, None when it is null. */
    function FieldValue(f: Field): (r: Option<WireValue>)
      reads this
      ensures r != Some(Null)
      ensures f == AddressField ==> r == Some(AddressValue(address))
    {
      match f
      case AddressField => Some(AddressValue(address))
      case AmountField => if amount.Some? then Some(AmountValue(amount.value)) else None
      case PaymentIdField => if paymentId.Some? then Some(Text(paymentId.value)) else None
      case RecipientNameField => if recipientName.Some? then Some(Text(recipientName.value)) else None
      case TxDescriptionField => if txDescription.Some? then Some(Text(txDescription.value)) else None
    }

    /** What one attribute contributes: its field's value; for a null
        field nothing when it is marked omit-empty and a JSON null otherwise. */
    function Emit(a: JsonAttr): Option<WireValue>
      reads this
    {
      match FieldValue(a.field)
      case Some(v) => Some(v)
      case None => if a.omitEmpty then None else Some(Null)
    }

    /** The JSON object a schema yields for this request. */
    function EncodeFields(attrs: seq<JsonAttr>): (r: map<string, WireValue>)
      reads this
      requires DistinctWireNames(attrs)
      ensures r.Keys <= WireNames(attrs)
      ensures forall i :: 0 <= i < |attrs| ==> (WireName(attrs[i]) in r <==> Emit(attrs[i]).Some?)
      ensures forall i :: 0 <= i < |attrs| && WireName(attrs[i]) in r ==> r[WireName(attrs[i])] == Emit(attrs[i]).value
    {
      if attrs == [] then map[]
      else
        var rest := EncodeFields(attrs[1..]);
        assert forall i :: 1 <= i < |attrs| ==> attrs[i] == attrs[1..][i - 1];
        assert WireName(attrs[0]) !in WireNames(attrs[1..]);
        match Emit(attrs[0])
        case None => rest
        case Some(v) => rest[WireName(attrs[0]) := v]
    }

    /** The JSON parameters of `make_uri`. */
    function Encode(): (r: map<string, WireValue>)
      reads this
      ensures r.Keys <= {"address", "amount", "payment_id", "recipient_name", "tx_description"}
      ensures "address" in r && r["address"] == AddressValue(address)
      ensures "amount" in r <==> amount.Some?
      ensures amount.Some? ==> r["amount"] == AmountValue(amount.value)
      ensures "payment_id" in r <==> paymentId.Some?
      ensures paymentId.Some? ==> r["payment_id"] == Text(paymentId.value)
      ensures "recipient_name" in r <==> recipientName.Some?
      ensures recipientName.Some? ==> r["recipient_name"] == Text(recipientName.value)
      ensures "tx_description" in r <==> txDescription.Some?
      ensures txDescription.Some? ==> r["tx_description"] == Text(txDescription.value)
      ensures Null !in r.Values
    {
      SchemaWireNames();
      EncodeFields(Schema)
    }

    /** `MakeUriRequest::create`: a fresh parameter object holding the
        arguments, wrapped in a `make_uri` request. Optional arguments
        default to null. */
    static method Create(address: Address, amount: Option<Amount> := None, paymentId: Option<string> := None,
                         recipientName: Option<string> := None, txDescription: Option<string> := None)
      returns (req: RpcRequest)
      ensures fresh(req.params)
      ensures req.methodName == "make_uri"
      ensures req.params.address == address && req.params.amount == amount
      ensures req.params.paymentId == paymentId && req.params.recipientName == recipientName
      ensures req.params.txDescription == txDescription
    {
      var self := new MakeUriRequest();
      self.address := address;
      self.amount := amount;
      self.paymentId := paymentId;
      self.recipientName := recipientName;
      self.txDescription := txDescription;
      req := RpcRequest("make_uri", self);
    }
  }

  /** Two requests with the same encoding have the same fields: the encoding
      loses nothing, and an absent key is never read back as a null value. */
  lemma EncodeInjective(x: MakeUriRequest, y: MakeUriRequest)
    requires x.Encode() == y.Encode()
    ensures x.address == y.address && x.amount == y.amount && x.paymentId == y.paymentId
    ensures x.recipientName == y.recipientName && x.txDescription == y.txDescription
  {
    var e := x.Encode();
    if x.amount.Some? { assert e["amount"] == AmountValue(y.amount.value); }
    if x.paymentId.Some? { assert e["payment_id"] == Text(y.paymentId.value); }
    if x.recipientName.Some? { assert e["recipient_name"] == Text(y.recipientName.value); }
    if x.txDescription.Some? { assert e["tx_description"] == Text(y.txDescription.value); }
  }

  /** `create` with only an address: every optional parameter is null, so
      the encoding holds the address and nothing else. */
  method CreateWithAddressOnly(address: Address) returns (req: RpcRequest, params: map<string, WireValue>)
    ensures req.methodName == "make_uri"
    ensures req.params.amount.None? && req.params.paymentId.None?
    ensures req.params.recipientName.None? && req.params.txDescription.None?
    ensures params == map["address" := AddressValue(address)]
  {
    req := MakeUriRequest.Create(address);
    params := req.params.Encode();
    assert params.Keys == {"address"};
  }
}
