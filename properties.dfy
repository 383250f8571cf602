/**
 * The auto-embedding configuration of the Gaussian active information
 * storage calculator and its string-keyed property interface: four
 * recognised names, matched ignoring case, three of which take a decimal
 * int; every other name belongs to the parent calculator.
 */
module PropertyStore {
  import opened Wrappers
  import opened IgnoreCase
  import opened Decimal

  const PROP_AUTO_EMBED_METHOD: string := "AUTO_EMBED_METHOD"
  const PROP_K_SEARCH_MAX: string := "AUTO_EMBED_K_SEARCH_MAX"
  const PROP_TAU_SEARCH_MAX: string := "AUTO_EMBED_TAU_SEARCH_MAX"
  const PROP_RAGWITZ_NUM_NNS: string := "AUTO_EMBED_RAGWITZ_NUM_NNS"

  const AUTO_EMBED_METHOD_NONE: string := "NONE"
  const AUTO_EMBED_METHOD_RAGWITZ: string := "RAGWITZ"
  const AUTO_EMBED_METHOD_MAX_CORR_AIS: string := "MAX_CORR_AIS"

  /**
   * The configuration fields, with the properties handled by the parent
   * calculator kept as a map from name to value.
   */
  datatype Settings = Settings(
    autoEmbeddingMethod: string,
    kSearchMax: Int32,
    tauSearchMax: Int32,
    ragwitzNumNns: Int32,
    ragwitzNumNnsSet: bool,
    parent: map<string, string>)

  /** The field initialisers. */
  function Defaults(parent: map<string, string>): Settings
  {
    Settings(AUTO_EMBED_METHOD_NONE, 1, 1, 1, false, parent)
  }

  /**
   * No two option names match ignoring case, so each name that matches one
   * of them selects exactly one option.
   */
  lemma OptionNamesDistinct()
    ensures !SameIgnoringCase(PROP_AUTO_EMBED_METHOD, PROP_K_SEARCH_MAX)
    ensures !SameIgnoringCase(PROP_AUTO_EMBED_METHOD, PROP_TAU_SEARCH_MAX)
    ensures !SameIgnoringCase(PROP_AUTO_EMBED_METHOD, PROP_RAGWITZ_NUM_NNS)
    ensures !SameIgnoringCase(PROP_K_SEARCH_MAX, PROP_TAU_SEARCH_MAX)
    ensures !SameIgnoringCase(PROP_K_SEARCH_MAX, PROP_RAGWITZ_NUM_NNS)
    ensures !SameIgnoringCase(PROP_TAU_SEARCH_MAX, PROP_RAGWITZ_NUM_NNS)
  {
  }

  /** A name this calculator handles itself rather than passing to its parent. */
  predicate Recognised(name: string)
  {
    SameIgnoringCase(name, PROP_AUTO_EMBED_METHOD) || SameIgnoringCase(name, PROP_K_SEARCH_MAX) ||
    SameIgnoringCase(name, PROP_TAU_SEARCH_MAX) || SameIgnoringCase(name, PROP_RAGWITZ_NUM_NNS)
  }

  /** A recognised name whose value must be a decimal int. */
  predicate IntegerValued(name: string)
  {
    SameIgnoringCase(name, PROP_K_SEARCH_MAX) || SameIgnoringCase(name, PROP_TAU_SEARCH_MAX) ||
    SameIgnoringCase(name, PROP_RAGWITZ_NUM_NNS)
  }

  /** The NumberFormatException raised for a value that is not a decimal int. */
  datatype PropertyError = MalformedInteger(value: string)

  /**
   * setProperty: the new settings, or the error raised for a malformed int,
   * in which case nothing has been assigned.
   */
  function Assign(s: Settings, name: string, value: string): (r: Result<Settings, PropertyError>)
    ensures r.Err? <==> IntegerValued(name) && ParseInt(value).None?
    ensures r.Err? ==> r.error == MalformedInteger(value)
    ensures r.Ok? && !Recognised(name) ==> r.value == s.(parent := s.parent[name := value])
  {
    if SameIgnoringCase(name, PROP_AUTO_EMBED_METHOD) then
      Ok(s.(autoEmbeddingMethod := value))
    else if SameIgnoringCase(name, PROP_K_SEARCH_MAX) then
      (match ParseInt(value)
       case Some(n) => Ok(s.(kSearchMax := n))
       case None => Err(MalformedInteger(value)))
    else if SameIgnoringCase(name, PROP_TAU_SEARCH_MAX) then
      (match ParseInt(value)
       case Some(n) => Ok(s.(tauSearchMax := n))
       case None => Err(MalformedInteger(value)))
    else if SameIgnoringCase(name, PROP_RAGWITZ_NUM_NNS) then
      (match ParseInt(value)
       case Some(n) => Ok(s.(ragwitzNumNns := n, ragwitzNumNnsSet := true))
       case None => Err(MalformedInteger(value)))
    else
      Ok(s.(parent := s.parent[name := value]))
  }

  /**
   * getProperty: ints are written in decimal; the neighbour count reads the
   * Kraskov estimator's default K until it has been set; None is a name
   * nobody has set (Java's null).
   */
  function Lookup(s: Settings, name: string, kraskovDefaultK: string): (r: Option<string>)
    ensures Recognised(name) ==> r.Some?
    ensures !Recognised(name) ==> r == (if name in s.parent then Some(s.parent[name]) else None)
  {
    if SameIgnoringCase(name, PROP_AUTO_EMBED_METHOD) then Some(s.autoEmbeddingMethod)
    else if SameIgnoringCase(name, PROP_K_SEARCH_MAX) then Some(DecimalString(s.kSearchMax))
    else if SameIgnoringCase(name, PROP_TAU_SEARCH_MAX) then Some(DecimalString(s.tauSearchMax))
    else if SameIgnoringCase(name, PROP_RAGWITZ_NUM_NNS) then
      if s.ragwitzNumNnsSet then Some(DecimalString(s.ragwitzNumNns)) else Some(kraskovDefaultK)
    else if name in s.parent then Some(s.parent[name])
    else None
  }

  /** Before anything is set, each option reads its initial value. */
  lemma DefaultsRead(parent: map<string, string>, kraskovDefaultK: string)
    ensures Lookup(Defaults(parent), PROP_AUTO_EMBED_METHOD, kraskovDefaultK) == Some("NONE")
    ensures Lookup(Defaults(parent), PROP_K_SEARCH_MAX, kraskovDefaultK) == Some("1")
    ensures Lookup(Defaults(parent), PROP_TAU_SEARCH_MAX, kraskovDefaultK) == Some("1")
    ensures Lookup(Defaults(parent), PROP_RAGWITZ_NUM_NNS, kraskovDefaultK) == Some(kraskovDefaultK)
  {
  }

  /**
   * Reading a property just set gives back what was set: the method name and
   * parent properties verbatim, an int as a decimal string that parses to the
   * same value (so "+07" reads back as "7").
   */
  lemma SetThenGet(s: Settings, name: string, value: string, kraskovDefaultK: string)
    requires Assign(s, name, value).Ok?
    ensures var got := Lookup(Assign(s, name, value).value, name, kraskovDefaultK);
      got.Some? &&
      (IntegerValued(name) ==> got.value == DecimalString(ParseInt(value).value)) &&
      (IntegerValued(name) ==> ParseInt(got.value) == ParseInt(value)) &&
      (!IntegerValued(name) ==> got.value == value)
  {
    var t := Assign(s, name, value).value;
    if SameIgnoringCase(name, PROP_AUTO_EMBED_METHOD) {
    } else if SameIgnoringCase(name, PROP_K_SEARCH_MAX) {
      ParseDecimalString(t.kSearchMax);
    } else if SameIgnoringCase(name, PROP_TAU_SEARCH_MAX) {
      ParseDecimalString(t.tauSearchMax);
    } else if SameIgnoringCase(name, PROP_RAGWITZ_NUM_NNS) {
      ParseDecimalString(t.ragwitzNumNns);
    }
  }

  /** Setting the neighbour count, and only that, marks it as set. */
  lemma NeighbourCountFlag(s: Settings, name: string, value: string)
    requires Assign(s, name, value).Ok?
    ensures Assign(s, name, value).value.ragwitzNumNnsSet <==>
      s.ragwitzNumNnsSet || SameIgnoringCase(name, PROP_RAGWITZ_NUM_NNS)
  {
  }

  /** Names differing only in the case of letters set and read the same option. */
  lemma NamesIgnoreCase(s: Settings, a: string, b: string, value: string, kraskovDefaultK: string)
    requires SameIgnoringCase(a, b) && Recognised(a)
    ensures Recognised(b)
    ensures Assign(s, a, value) == Assign(s, b, value)
    ensures Lookup(s, a, kraskovDefaultK) == Lookup(s, b, kraskovDefaultK)
  {
  }

  /**
   * Setting a property changes no other: every name that does not match the
   * one set reads as before.
   */
  lemma SetLeavesOthers(s: Settings, name: string, value: string, other: string, kraskovDefaultK: string)
    requires Assign(s, name, value).Ok? && !SameIgnoringCase(other, name)
    ensures Lookup(Assign(s, name, value).value, other, kraskovDefaultK) == Lookup(s, other, kraskovDefaultK)
  {
  }
}
