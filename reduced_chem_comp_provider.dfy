/** `ReducedChemCompProvider`: resolves a component name against the
    definitions bundled with the library, and never fails: a name it cannot
    resolve gets the empty sentinel carrying the normalised name as its id. */
module ChemCompProvider {
  import opened Wrappers
  import JavaString
  import opened ChemCompRecord
  import opened ChemCompDictionary

  /** What looking up the bundled resource `/chemcomp/<key>.cif.gz` gives. */
  datatype ResourceOutcome =
    | Absent                                    // no resource under that name
    | ReadFailure                               // an IOException while reading, unzipping, parsing or closing it
    | Parsed(dict: ChemicalComponentDictionary) // the dictionary the parser's consumer built from it

  /** The resource key: the name upper-cased, then trimmed. */
  function Normalize(recordName: string): (key: string)
    ensures |key| <= |recordName|
    ensures JavaString.IsTrimmed(key)
    ensures forall i | 0 <= i < |key| :: !JavaString.IsAsciiLower(key[i])
  {
    JavaString.Trim(JavaString.ToUpperCase(recordName))
  }

  /** Normalising a key again changes nothing. */
  lemma NormalizeIdempotent(s: string)
    ensures Normalize(Normalize(s)) == Normalize(s)
  {
    var u := JavaString.ToUpperCase(s);
    JavaString.UpperCaseTrimCommute(u);
    JavaString.UpperCaseIdempotent(s);
    JavaString.TrimIdempotent(u);
  }

  /** A name already in key form is its own key. */
  lemma NormalizeFixedPoint(k: string)
    requires JavaString.IsTrimmed(k)
    requires forall i | 0 <= i < |k| :: !JavaString.IsAsciiLower(k[i])
    ensures Normalize(k) == k
  {
    assert JavaString.ToUpperCase(k) == k;
    JavaString.TrimOfTrimmed(k);
  }

  /** Names that differ only in the case of ASCII letters and in blank
      padding share one key, and so one result. */
  lemma NormalizeIgnoresCaseAndPadding(p: string, a: string, q: string, b: string)
    requires JavaString.AllBlank(p) && JavaString.AllBlank(q)
    requires JavaString.SameIgnoringAsciiCase(a, b)
    ensures Normalize(p + a + q) == Normalize(b)
  {
    JavaString.UpperCaseAppend(p + a, q);
    JavaString.UpperCaseAppend(p, a);
    var up, uq := JavaString.ToUpperCase(p), JavaString.ToUpperCase(q);
    JavaString.TrimIgnoresPadding(up, JavaString.ToUpperCase(a), uq);
    JavaString.UpperCaseIgnoresCase(a, b);
  }

  /** The fallback record: the empty sentinel with its id set to `key`. */
  function FallbackFields(key: string, cls: Classification): (r: Fields)
    ensures r.id == Some(key)
    ensures r.IsEmpty()
    ensures r.threeLetterCode == Some(EmptyThreeLetterCode)
    ensures r.polymerType == Some(Unknown) && r.residueType == Some(Atomn)
  {
    EmptyFields(cls).WithText(Id, Some(key))
  }

  class ReducedChemCompProvider {
    constructor ()
    {
    }

    /** `getChemComp`: the parsed dictionary's entry for the key (possibly
        null), or, when the resource is absent or cannot be read, a fresh
        sentinel whose id is the key. */
    method GetChemComp(recordName: string, resources: string -> ResourceOutcome, cls: Classification)
      returns (c: ChemComp?)
      ensures var key := Normalize(recordName);
              match resources(key)
              case Parsed(d) => c == OrNull(d.State().Get(Some(key)))
              case _ => c != null && fresh(c) && c.Snapshot() == FallbackFields(key, cls)
    {
      var name := Normalize(recordName);
      match resources(name)
      case Absent =>
        c := EmptyChemCompFor(name, cls);
      case Parsed(dict) =>
        c := dict.GetChemComp(Some(name));
      case ReadFailure =>
        c := EmptyChemCompFor(name, cls);
    }

    /** The fallback both failure paths take: `getEmptyChemComp()` then `setId(name)`. */
    static method EmptyChemCompFor(name: string, cls: Classification) returns (c: ChemComp)
      ensures fresh(c)
      ensures c.Snapshot() == FallbackFields(name, cls)
    {
      c := ChemComp.GetEmptyChemComp(cls);
      c.SetId(Some(name));
    }
  }
}
