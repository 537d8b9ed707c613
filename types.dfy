/** Shared records of the quote system: the service kinds, the specification a
    form or the chat builds, the quote the calculator returns and the chat
    messages the assistant exchanges. */
module Types {

  datatype Option<T> = None | Some(value: T) {
    function GetOr(default: T): (r: T) {
      match this
      case Some(v) => v
      case None => default
    }
  }

  datatype Result<T, E> = Success(value: T) | Failure(error: E)

  /** What a `localStorage` key holds, as its reader sees it: nothing (or an
      empty string), text that does not parse as JSON, or a parsed list. */
  datatype Stored<T> = Absent | Corrupt | Present(items: seq<T>)

  /** What a store's reader returns: the parsed list, or `[]` when the key is
      missing, empty or unreadable. */
  function StoredItems<T>(stored: Stored<T>): (r: seq<T>)
    ensures stored.Present? ==> r == stored.items
    ensures !stored.Present? ==> r == []
  {
    match stored
    case Present(items) => items
    case _ => []
  }

  /** Milliseconds since the epoch; dates and timestamps are opaque here. */
  type Timestamp = int

  /** The six services the site offers. */
  datatype ServiceType =
    | Printing
    | Binding
    | Logistics
    | EcoPrinting
    | SdgsConsulting
    | SustainabilityReport

  /** The specification of a job: the printing fields every service shares and
      the optional fields that only the binding, logistics and eco-printing
      forms fill in. */
  datatype Specs = Specs(
    serviceType: Option<ServiceType>,
    productType: string,
    size: string,
    quantity: int,
    paperType: string,
    printColors: string,
    finishing: seq<string>,
    customSpecs: Option<string>,
    deliveryDate: Option<Timestamp>,
    deliveryAddress: Option<string>,
    bindingType: Option<string>,
    pageCount: Option<int>,
    coverType: Option<string>,
    weight: Option<int>,
    dimensions: Option<string>,
    deliverySpeed: Option<string>,
    ecoMaterials: Option<seq<string>>,
    carbonOffset: Option<bool>,
    certifications: Option<seq<string>>)

  /** A quote. `createdAt` is only ever filled in by the quote store. */
  datatype Quote = Quote(
    id: string,
    specs: Specs,
    price: int,
    turnaround: int,
    discountApplied: Option<real>,
    createdAt: Option<string>)

  datatype Sender = User | Ai

  datatype ChatMessage = ChatMessage(id: string, content: string, sender: Sender, timestamp: Timestamp)

  /** The names of the fields of `Specs`, the `keyof PrintSpecs` a form handler receives. */
  datatype Field =
    | ServiceTypeField
    | ProductTypeField
    | SizeField
    | QuantityField
    | PaperTypeField
    | PrintColorsField
    | FinishingField
    | CustomSpecsField
    | DeliveryDateField
    | DeliveryAddressField
    | BindingTypeField
    | PageCountField
    | CoverTypeField
    | WeightField
    | DimensionsField
    | DeliverySpeedField
    | EcoMaterialsField
    | CarbonOffsetField
    | CertificationsField

  /** A field's value as a form handler sees it; `Missing` is an optional field that is not set. */
  datatype Value =
    | Missing
    | Service(service: ServiceType)
    | Text(text: string)
    | Number(number: int)
    | Texts(texts: seq<string>)
    | Date(date: Timestamp)
    | Flag(flag: bool)

  function Wrap<T>(o: Option<T>, f: T -> Value): (r: Value) {
    match o
    case Some(v) => f(v)
    case None => Missing
  }

  /** The value a field of `s` holds. */
  function Get(s: Specs, f: Field): (r: Value) {
    match f
    case ServiceTypeField => Wrap(s.serviceType, (t: ServiceType) => Service(t))
    case ProductTypeField => Text(s.productType)
    case SizeField => Text(s.size)
    case QuantityField => Number(s.quantity)
    case PaperTypeField => Text(s.paperType)
    case PrintColorsField => Text(s.printColors)
    case FinishingField => Texts(s.finishing)
    case CustomSpecsField => Wrap(s.customSpecs, (t: string) => Text(t))
    case DeliveryDateField => Wrap(s.deliveryDate, (d: Timestamp) => Date(d))
    case DeliveryAddressField => Wrap(s.deliveryAddress, (t: string) => Text(t))
    case BindingTypeField => Wrap(s.bindingType, (t: string) => Text(t))
    case PageCountField => Wrap(s.pageCount, (n: int) => Number(n))
    case CoverTypeField => Wrap(s.coverType, (t: string) => Text(t))
    case WeightField => Wrap(s.weight, (n: int) => Number(n))
    case DimensionsField => Wrap(s.dimensions, (t: string) => Text(t))
    case DeliverySpeedField => Wrap(s.deliverySpeed, (t: string) => Text(t))
    case EcoMaterialsField => Wrap(s.ecoMaterials, (t: seq<string>) => Texts(t))
    case CarbonOffsetField => Wrap(s.carbonOffset, (b: bool) => Flag(b))
    case CertificationsField => Wrap(s.certifications, (t: seq<string>) => Texts(t))
  }

  /** The value has the type the field is declared with (a present value). */
  predicate Fits(f: Field, v: Value) {
    match f
    case ServiceTypeField => v.Service?
    case QuantityField | PageCountField | WeightField => v.Number?
    case FinishingField | EcoMaterialsField | CertificationsField => v.Texts?
    case DeliveryDateField => v.Date?
    case CarbonOffsetField => v.Flag?
    case _ => v.Text?
  }

  /** `{ ...s, [f]: v }`: the record with field `f` replaced by `v` and every
      other field kept. */
  function Set(s: Specs, f: Field, v: Value): (r: Specs)
    requires Fits(f, v)
    ensures Get(r, f) == v
    ensures forall g :: g != f ==> Get(r, g) == Get(s, g)
  {
    match f
    case ServiceTypeField => s.(serviceType := Some(v.service))
    case ProductTypeField => s.(productType := v.text)
    case SizeField => s.(size := v.text)
    case QuantityField => s.(quantity := v.number)
    case PaperTypeField => s.(paperType := v.text)
    case PrintColorsField => s.(printColors := v.text)
    case FinishingField => s.(finishing := v.texts)
    case CustomSpecsField => s.(customSpecs := Some(v.text))
    case DeliveryDateField => s.(deliveryDate := Some(v.date))
    case DeliveryAddressField => s.(deliveryAddress := Some(v.text))
    case BindingTypeField => s.(bindingType := Some(v.text))
    case PageCountField => s.(pageCount := Some(v.number))
    case CoverTypeField => s.(coverType := Some(v.text))
    case WeightField => s.(weight := Some(v.number))
    case DimensionsField => s.(dimensions := Some(v.text))
    case DeliverySpeedField => s.(deliverySpeed := Some(v.text))
    case EcoMaterialsField => s.(ecoMaterials := Some(v.texts))
    case CarbonOffsetField => s.(carbonOffset := Some(v.flag))
    case CertificationsField => s.(certifications := Some(v.texts))
  }
}
