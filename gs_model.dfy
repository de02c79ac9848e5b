/**
 * The legacy IT-Grundschutz catalogue items the transformation reads
 * (sernet.gs.model): measures (Massnahme), threats (Gefaehrdung) and
 * modules (Baustein). They are read-only inputs.
 */
module GsModel {
  import opened Wrappers

  /** A Java `String` field, which may be null. */
  type JString = Option<string>

  /** The text Java's `+` on strings produces for an operand: a null operand becomes "null". */
  function Show(s: JString): string {
    match s
    case None => "null"
    case Some(v) => v
  }

  /** A measure; `url` and `stand` (version) key its HTML documentation. */
  datatype Massnahme = Massnahme(id: JString, titel: JString, url: JString, stand: JString)

  /** A threat. */
  datatype Gefaehrdung = Gefaehrdung(id: JString, titel: JString)

  /** A module, owning ordered lists of measures and threats. */
  datatype Baustein = Baustein(id: JString, titel: JString, massnahmen: seq<Massnahme>, gefaehrdungen: seq<Gefaehrdung>)

  /** One entry of the item list: `null`, one of the three catalogue classes, or any other object. */
  datatype Item =
    | NullItem
    | MeasureItem(m: Massnahme)
    | ThreatItem(g: Gefaehrdung)
    | ModuleItem(b: Baustein)
    | OtherItem

  /**
   * The `data` argument of the service's constructor: an `Object[]`, a
   * `Collection` (its elements in iteration order), or any single object
   * (including `null`).
   */
  datatype Data =
    | ArrayData(elems: seq<Item>)
    | CollectionData(elems: seq<Item>)
    | SingleData(item: Item)
}
