/** The configuration tree as the XML reader presents it: named elements with
    attributes, a text value and ordered child elements. */
module Xml {
  import opened Common

  /** `text` is the element's `Value` (its concatenated text content). */
  datatype Element = Element(name: string, attrs: map<string, string>, text: string, children: seq<Element>)

  /** `XElement.Element(name)`: the first child with that name. */
  function Child(e: Element, name: string): (r: Option<Element>)
    ensures r.Some? ==> r.value in e.children && r.value.name == name
    ensures r.None? ==> forall c :: c in e.children ==> c.name != name
  {
    FirstNamed(e.children, name)
  }

  function FirstNamed(cs: seq<Element>, name: string): (r: Option<Element>)
    ensures r.Some? ==> r.value in cs && r.value.name == name
    ensures r.None? ==> forall c :: c in cs ==> c.name != name
  {
    if cs == [] then None
    else if cs[0].name == name then Some(cs[0])
    else FirstNamed(cs[1..], name)
  }

  /** `XElement.Elements(name)`: the children with that name, in order. */
  function ChildrenNamed(cs: seq<Element>, name: string): (r: seq<Element>)
    ensures forall c :: c in r <==> c in cs && c.name == name
  {
    if cs == [] then []
    else (if cs[0].name == name then [cs[0]] else []) + ChildrenNamed(cs[1..], name)
  }

  function Attr(e: Element, name: string): Option<string>
  {
    if name in e.attrs then Some(e.attrs[name]) else None
  }

  /** The text of a child element, if there is one. */
  function ChildText(e: Element, name: string): Option<string>
  {
    match Child(e, name)
    case Some(c) => Some(c.text)
    case None => None
  }

  /** The "try-parse with default" idiom of the configuration reader: the
      child element's value when it is present and parses, else the default. */
  function TryParseInt(e: Element, name: string, default: int): int
  {
    match ChildText(e, name)
    case Some(t) => (match ParseInt(t) case Some(v) => v case None => default)
    case None => default
  }

  function TryParseFloat(e: Element, name: string, default: real): real
  {
    match ChildText(e, name)
    case Some(t) => (match ParseReal(t) case Some(v) => v case None => default)
    case None => default
  }

  function TryParseBool(e: Element, name: string, default: bool): bool
  {
    match ChildText(e, name)
    case Some(t) => (match ParseBool(t) case Some(v) => v case None => default)
    case None => default
  }

  function TryParseFloatAttribute(e: Element, name: string, default: real): real
  {
    match Attr(e, name)
    case Some(t) => (match ParseReal(t) case Some(v) => v case None => default)
    case None => default
  }

  function TryParseBoolAttribute(e: Element, name: string, default: bool): bool
  {
    match Attr(e, name)
    case Some(t) => (match ParseBool(t) case Some(v) => v case None => default)
    case None => default
  }

  /** `float.Parse(text ?? fallback)` for a literal fallback: the
      fallback's value when the child is missing, otherwise the child's
      text, which must parse. */
  function ParseFloatOr(e: Element, name: string, fallback: real): (r: Result<real>)
    ensures ChildText(e, name).None? ==> r == Ok(fallback)
    ensures r.Ok? && ChildText(e, name).Some? ==> Some(r.value) == ParseReal(ChildText(e, name).value)
    ensures ChildText(e, name).Some? ==> (r.Ok? <==> ParseReal(ChildText(e, name).value).Some?)
  {
    match ChildText(e, name)
    case None => Ok(fallback)
    case Some(t) =>
      match ParseReal(t)
      case Some(v) => Ok(v)
      case None => Err("FormatException: " + t)
  }

  function ParseIntOr(e: Element, name: string, fallback: int): (r: Result<int>)
    ensures ChildText(e, name).None? ==> r == Ok(fallback)
    ensures ChildText(e, name).Some? ==> (r.Ok? <==> ParseInt(ChildText(e, name).value).Some?)
    ensures r.Ok? && ChildText(e, name).Some? ==> Some(r.value) == ParseInt(ChildText(e, name).value)
  {
    match ChildText(e, name)
    case None => Ok(fallback)
    case Some(t) =>
      match ParseInt(t)
      case Some(v) => Ok(v)
      case None => Err("FormatException: " + t)
  }

  /** `float.Parse(attribute ?? fallback)` for a literal fallback. */
  function ParseFloatAttrOr(e: Element, name: string, fallback: real): (r: Result<real>)
    ensures Attr(e, name).None? ==> r == Ok(fallback)
    ensures Attr(e, name).Some? ==> (r.Ok? <==> ParseReal(Attr(e, name).value).Some?)
    ensures r.Ok? && Attr(e, name).Some? ==> Some(r.value) == ParseReal(Attr(e, name).value)
  {
    match Attr(e, name)
    case None => Ok(fallback)
    case Some(t) =>
      match ParseReal(t)
      case Some(v) => Ok(v)
      case None => Err("FormatException: " + t)
  }

  /** `int.Parse` of an attribute when it is present; the current value
      otherwise. */
  function ParseIntAttrOr(e: Element, name: string, current: int): (r: Result<int>)
    ensures Attr(e, name).None? ==> r == Ok(current)
    ensures Attr(e, name).Some? ==> (r.Ok? <==> ParseInt(Attr(e, name).value).Some?)
    ensures r.Ok? && Attr(e, name).Some? ==> Some(r.value) == ParseInt(Attr(e, name).value)
  {
    match Attr(e, name)
    case None => Ok(current)
    case Some(t) =>
      match ParseInt(t)
      case Some(v) => Ok(v)
      case None => Err("FormatException: " + t)
  }

  /** `XElement.Descendants(name)`: every element below `e` with that name,
      in document order. */
  function Descendants(e: Element, name: string): seq<Element>
    decreases e, 1
  {
    DescendantsOf(e.children, name)
  }

  function DescendantsOf(cs: seq<Element>, name: string): seq<Element>
    decreases cs, 0
  {
    if cs == [] then []
    else
      (if cs[0].name == name then [cs[0]] else []) + Descendants(cs[0], name) + DescendantsOf(cs[1..], name)
  }
}
