/// The part of the SAX content-handler interface that the spreadsheet
/// reader uses: element-open, character-data and element-close callbacks,
/// delivered in document order by an XML tokenizer that is not modelled.
module Sax {
  import opened Options

  /** The attributes of one element, keyed by qualified name. */
  type Attributes = map<string, string>

  /** One callback of a SAX parse.  `name` is the qualified name (qName). */
  datatype Event =
    | Start(name: string, attrs: Attributes)
    | Chars(text: string)
    | End(name: string)

  /** `Attributes.getValue(qName)`: `None` (Java `null`) when absent. */
  function GetValue(attrs: Attributes, qname: string): Option<string>
  {
    if qname in attrs then Some(attrs[qname]) else None
  }
}
