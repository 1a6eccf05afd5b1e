/**
 * The label generator's data model: positions, element styles, label sizes, the six label
 * elements, labels, page settings and the generated-labels editing state. TypeScript's
 * optional fields are `Option`s; the element record is the one structural shape that all six
 * element kinds share, with the text style and the logo fields present only where used.
 */
module Types {
  import opened Wrappers

  /** A label unit. `OtherUnit` is any string outside the three the type names. */
  datatype Unit = Mm | Cm | In | OtherUnit(name: string)

  /** A point in the label's own unit, relative to its top-left corner. */
  datatype Position = Position(x: real, y: real)

  /** The two axes of a position. */
  datatype Axis = X | Y

  datatype Align = Left | Center | Right

  datatype TextStyle = TextStyle(
    align: Align,
    multiline: bool,
    maxWidth: Option<real>,
    color: string,
    bold: Option<bool>,
    italic: Option<bool>,
    underline: Option<bool>,
    lineHeight: Option<real>,
    rotation: Option<real>)

  /**
   * One positionable element. `size` and `width` are in pixels; `height`, `imageUrl` and
   * `aspectRatio` are used by the logo only, `textStyle` by the text elements only.
   */
  datatype ElementStyle = ElementStyle(
    position: Position,
    size: real,
    width: Option<real>,
    height: Option<real>,
    textStyle: Option<TextStyle>,
    enabled: bool,
    color: Option<string>,
    rotation: Option<real>,
    imageUrl: Option<string>,
    aspectRatio: Option<real>)

  datatype Border = Border(enabled: bool, width: real, color: string)

  /** A label's envelope. An absent `padding` is read as 0 (`padding || 0`). */
  datatype LabelSize = LabelSize(
    width: real,
    height: real,
    unit: Unit,
    padding: Option<real>,
    elementSpacing: real,
    preventCollisions: bool,
    allowElementsOutside: bool,
    border: Border)

  /** The keys of a label's elements object, in the order the application declares them. */
  datatype ElementKey = QrCode | Uuid | Text | CompanyName | ProductName | Logo

  const AllKeys: seq<ElementKey> := [QrCode, Uuid, Text, CompanyName, ProductName, Logo]

  lemma AllKeysComplete(k: ElementKey)
    ensures k in AllKeys
  {
  }

  datatype LabelElements = LabelElements(
    qrCode: ElementStyle,
    uuid: ElementStyle,
    text: ElementStyle,
    companyName: ElementStyle,
    productName: ElementStyle,
    logo: ElementStyle)
  {
    /** `elements[key]`. */
    function Get(k: ElementKey): ElementStyle {
      match k
      case QrCode => qrCode
      case Uuid => uuid
      case Text => text
      case CompanyName => companyName
      case ProductName => productName
      case Logo => logo
    }

    /** `{ ...elements, [key]: e }`: only the entry under `k` changes. */
    function Set(k: ElementKey, e: ElementStyle): (r: LabelElements)
      ensures r.Get(k) == e
      ensures forall k' :: k' != k ==> r.Get(k') == Get(k')
    {
      match k
      case QrCode => this.(qrCode := e)
      case Uuid => this.(uuid := e)
      case Text => this.(text := e)
      case CompanyName => this.(companyName := e)
      case ProductName => this.(productName := e)
      case Logo => this.(logo := e)
    }
  }

  /** Two element objects with the same entry under every key are the same object. */
  lemma {:induction false} ElementsExtensional(a: LabelElements, b: LabelElements)
    requires forall k :: a.Get(k) == b.Get(k)
    ensures a == b
  {
    assert a.qrCode == a.Get(QrCode) == b.Get(QrCode) == b.qrCode;
    assert a.uuid == a.Get(Uuid) == b.Get(Uuid) == b.uuid;
    assert a.text == a.Get(Text) == b.Get(Text) == b.text;
    assert a.companyName == a.Get(CompanyName) == b.Get(CompanyName) == b.companyName;
    assert a.productName == a.Get(ProductName) == b.Get(ProductName) == b.productName;
    assert a.logo == a.Get(Logo) == b.Get(Logo) == b.logo;
  }

  /** One label instance. `id` is its identity; `uuid` is the payload encoded in its QR code. */
  datatype Label = Label(
    id: string,
    size: LabelSize,
    elements: LabelElements,
    companyName: string,
    uuid: string,
    shortUuid: string,
    prefix: string,
    productName: string,
    text: string)

  /** The printable page for multi-label export; `unit` is compared against 'mm' only. */
  datatype PageSettings = PageSettings(
    width: real,
    height: real,
    unit: Unit,
    marginTop: real,
    marginRight: real,
    marginBottom: real,
    marginLeft: real,
    spacing: real)

  datatype PdfType = Single | Multiple

  datatype PdfSettings = PdfSettings(
    pdfType: PdfType,
    labelsPerPage: Option<int>,
    pageSettings: Option<PageSettings>)

  /** Which labels the generated-labels screen has selected, and whether the editor is open. */
  datatype EditingState = EditingState(
    isEditing: bool,
    selectedLabels: seq<string>,
    editingAll: bool)
}
