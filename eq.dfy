/** Eq: a "property equals value" filter, one (key, value) pair of a
    resource path. The value is a Java String and may be null. */
module EqFilters {
  import opened Wrappers
  import opened JavaText
  import opened UrlPathParts

  datatype Eq = Eq(property: UrlPathPart, value: Option<string>)

  /** getPropertyName: the wire name of the stored property. */
  function PropertyName(e: Eq): (name: string)
    ensures PartNamed(name) == Some(e.property)
  {
    NameRoundTrip(e.property);
    Name(e.property)
  }

  /** The text StringBuilder.append writes for the value: the string itself,
      unescaped, or "null" for a null reference. */
  function ValueText(v: Option<string>): (s: string)
    ensures v.Some? ==> s == v.value
    ensures v.None? ==> s == "null"
  {
    match v
    case Some(text) => text
    case None => "null"
  }

  /** Eq.equals(o): false against null, otherwise the same property and
      null-safe equal values. */
  function Equals(e: Eq, o: Option<Eq>): (r: bool)
    ensures r <==> o == Some(e)
  {
    if o.None? then false
    else if e.property != o.value.property then false
    else if e.value.Some? then o.value.value.Some? && e.value.value == o.value.value.value
    else o.value.value.None?
  }

  /** equals is reflexive, symmetric and false against null. */
  lemma EqualsIsEquivalence(a: Eq, b: Eq)
    ensures Equals(a, Some(a))
    ensures !Equals(a, None)
    ensures Equals(a, Some(b)) == Equals(b, Some(a))
  {
  }

  /** Eq.hashCode: 31 * hash(property name) + hash(value), 0 for a null value. */
  function HashCode(e: Eq): (h: int)
    ensures IsInt32(h)
  {
    var valueHash := match e.value case Some(text) => StringHash(text) case None => 0;
    HashStep(StringHash(Name(e.property)), valueHash)
  }

  /** Equal filters have equal hash codes. */
  lemma HashConsistent(a: Eq, b: Eq)
    requires Equals(a, Some(b))
    ensures HashCode(a) == HashCode(b)
  {
  }
}
