/** One chemical component (`ChemComp`): a record of nullable text fields,
    three lists, and three fields derived from the others by two external
    classification rules. */
module ChemCompRecord {
  import opened Wrappers
  import JavaString

  /** The placeholder a definition file writes for a missing value. */
  const Placeholder: string := "?"

  /** The three-letter code of the empty sentinel, and the main sign of emptiness. */
  const EmptyThreeLetterCode: string := "???"

  /** A value that is neither null nor the placeholder `"?"`. */
  predicate IsSpecified(v: Option<string>) {
    v.Some? && v.value != Placeholder
  }

  /** The polymer kind of a residue; only `unknown` is named by the core. */
  datatype PolymerType = Unknown | PolymerKind(name: string)

  /** A residue kind; each one carries the polymer kind it implies, which may be null. */
  datatype ResidueType = ResidueType(name: string, polymerType: Option<PolymerType>)

  /** The residue kind the empty sentinel is given. */
  const Atomn: ResidueType := ResidueType("atomn", None)

  /** Descriptor, bond and atom entries are compared only as wholes. */
  type ChemCompDescriptor(==)
  type ChemCompBond(==)
  type ChemCompAtom(==)

  /** The two classification rules the record consults but does not define:
      `ResidueType.getResidueTypeFromString` and `ChemCompTools.isStandardChemComp`. */
  datatype Classification = Classification(
    residueTypeFromString: Option<string> -> Option<ResidueType>,
    isStandardChemComp: Fields -> bool)

  /** The text fields whose setters only store their value. */
  datatype TextField =
    | Id | Name | PdbxType | Formula | PdbxSynonyms | PdbxFormalCharge
    | PdbxInitialDate | PdbxModifiedDate | PdbxAmbiguousFlag | PdbxReleaseStatus
    | PdbxReplacedBy | PdbxReplaces | FormulaWeight | ThreeLetterCode
    | PdbxModelCoordinatesDetails | PdbxModelCoordinatesMissingFlag
    | PdbxIdealCoordinatesDetails | PdbxIdealCoordinatesMissingFlag
    | PdbxModelCoordinatesDbCode | PdbxSubcomponentList | PdbxProcessingSite
    | MonNstdFlag

  /** The value held by a `ChemComp` object: every field it has, in declaration order.
      `compType` is the `type` field. */
  datatype Fields = Fields(
    id: Option<string>,
    name: Option<string>,
    compType: Option<string>,
    pdbxType: Option<string>,
    formula: Option<string>,
    monNstdParentCompId: Option<string>,
    pdbxSynonyms: Option<string>,
    pdbxFormalCharge: Option<string>,
    pdbxInitialDate: Option<string>,
    pdbxModifiedDate: Option<string>,
    pdbxAmbiguousFlag: Option<string>,
    pdbxReleaseStatus: Option<string>,
    pdbxReplacedBy: Option<string>,
    pdbxReplaces: Option<string>,
    formulaWeight: Option<string>,
    oneLetterCode: Option<string>,
    threeLetterCode: Option<string>,
    pdbxModelCoordinatesDetails: Option<string>,
    pdbxModelCoordinatesMissingFlag: Option<string>,
    pdbxIdealCoordinatesDetails: Option<string>,
    pdbxIdealCoordinatesMissingFlag: Option<string>,
    pdbxModelCoordinatesDbCode: Option<string>,
    pdbxSubcomponentList: Option<string>,
    pdbxProcessingSite: Option<string>,
    monNstdFlag: Option<string>,
    descriptors: seq<ChemCompDescriptor>,
    bonds: seq<ChemCompBond>,
    atoms: seq<ChemCompAtom>,
    residueType: Option<ResidueType>,
    polymerType: Option<PolymerType>,
    standard: bool)
  {
    /** `hasParent()`: a parent id is given and is not the placeholder. */
    function HasParent(): (b: bool)
      ensures b <==> monNstdParentCompId.Some? && monNstdParentCompId.value != "?"
    {
      IsSpecified(monNstdParentCompId)
    }

    /** `isEmpty()`: no id, or no three-letter code, or the sentinel's `"???"`. */
    function IsEmpty(): (b: bool)
      ensures !b <==> id.Some? && threeLetterCode.Some? && threeLetterCode.value != "???"
    {
      id.None? || threeLetterCode.None? || threeLetterCode.value == EmptyThreeLetterCode
    }

    function Text(f: TextField): Option<string> {
      match f
      case Id => id
      case Name => name
      case PdbxType => pdbxType
      case Formula => formula
      case PdbxSynonyms => pdbxSynonyms
      case PdbxFormalCharge => pdbxFormalCharge
      case PdbxInitialDate => pdbxInitialDate
      case PdbxModifiedDate => pdbxModifiedDate
      case PdbxAmbiguousFlag => pdbxAmbiguousFlag
      case PdbxReleaseStatus => pdbxReleaseStatus
      case PdbxReplacedBy => pdbxReplacedBy
      case PdbxReplaces => pdbxReplaces
      case FormulaWeight => formulaWeight
      case ThreeLetterCode => threeLetterCode
      case PdbxModelCoordinatesDetails => pdbxModelCoordinatesDetails
      case PdbxModelCoordinatesMissingFlag => pdbxModelCoordinatesMissingFlag
      case PdbxIdealCoordinatesDetails => pdbxIdealCoordinatesDetails
      case PdbxIdealCoordinatesMissingFlag => pdbxIdealCoordinatesMissingFlag
      case PdbxModelCoordinatesDbCode => pdbxModelCoordinatesDbCode
      case PdbxSubcomponentList => pdbxSubcomponentList
      case PdbxProcessingSite => pdbxProcessingSite
      case MonNstdFlag => monNstdFlag
    }

    /** A plain setter: store `v` in field `f`, and nothing else. */
    function WithText(f: TextField, v: Option<string>): Fields {
      match f
      case Id => this.(id := v)
      case Name => this.(name := v)
      case PdbxType => this.(pdbxType := v)
      case Formula => this.(formula := v)
      case PdbxSynonyms => this.(pdbxSynonyms := v)
      case PdbxFormalCharge => this.(pdbxFormalCharge := v)
      case PdbxInitialDate => this.(pdbxInitialDate := v)
      case PdbxModifiedDate => this.(pdbxModifiedDate := v)
      case PdbxAmbiguousFlag => this.(pdbxAmbiguousFlag := v)
      case PdbxReleaseStatus => this.(pdbxReleaseStatus := v)
      case PdbxReplacedBy => this.(pdbxReplacedBy := v)
      case PdbxReplaces => this.(pdbxReplaces := v)
      case FormulaWeight => this.(formulaWeight := v)
      case ThreeLetterCode => this.(threeLetterCode := v)
      case PdbxModelCoordinatesDetails => this.(pdbxModelCoordinatesDetails := v)
      case PdbxModelCoordinatesMissingFlag => this.(pdbxModelCoordinatesMissingFlag := v)
      case PdbxIdealCoordinatesDetails => this.(pdbxIdealCoordinatesDetails := v)
      case PdbxIdealCoordinatesMissingFlag => this.(pdbxIdealCoordinatesMissingFlag := v)
      case PdbxModelCoordinatesDbCode => this.(pdbxModelCoordinatesDbCode := v)
      case PdbxSubcomponentList => this.(pdbxSubcomponentList := v)
      case PdbxProcessingSite => this.(pdbxProcessingSite := v)
      case MonNstdFlag => this.(monNstdFlag := v)
    }

    /** `setType`: store the type, classify it, and take the polymer kind of a
        non-null classification. */
    function WithType(t: Option<string>, cls: Classification): Fields {
      var rt := cls.residueTypeFromString(t);
      this.(compType := t, residueType := rt,
            polymerType := if rt.Some? then rt.value.polymerType else polymerType)
    }

    /** `setStandardFlag`: apply the standardness rule to the record as it now is. */
    function WithStandardFlag(cls: Classification): Fields {
      this.(standard := cls.isStandardChemComp(this))
    }

    /** The effect of one setter call. */
    function Apply(op: Setter, cls: Classification): Fields {
      match op
      case SetsText(f, v) => WithText(f, v)
      case SetsType(t) => WithType(t, cls)
      case SetsOneLetterCode(v) => this.(oneLetterCode := v).WithStandardFlag(cls)
      case SetsMonNstdParentCompId(v) => this.(monNstdParentCompId := v).WithStandardFlag(cls)
      case SetsResidueType(rt) => this.(residueType := rt)
      case SetsPolymerType(pt) => this.(polymerType := pt)
      case SetsDescriptors(d) => this.(descriptors := d)
      case SetsBonds(b) => this.(bonds := b)
      case SetsAtoms(a) => this.(atoms := a)
    }
  }

  /** A call to one of the setters of `ChemComp`. */
  datatype Setter =
    | SetsText(field: TextField, value: Option<string>)
    | SetsType(value: Option<string>)
    | SetsOneLetterCode(value: Option<string>)
    | SetsMonNstdParentCompId(value: Option<string>)
    | SetsResidueType(residueType: Option<ResidueType>)
    | SetsPolymerType(polymerType: Option<PolymerType>)
    | SetsDescriptors(descriptors: seq<ChemCompDescriptor>)
    | SetsBonds(bonds: seq<ChemCompBond>)
    | SetsAtoms(atoms: seq<ChemCompAtom>)
  {
    /** The two setters that end with `setStandardFlag()`. */
    predicate RederivesStandard() {
      SetsOneLetterCode? || SetsMonNstdParentCompId?
    }

    /** Setters that touch none of the three derived fields. */
    predicate IsPlain() {
      SetsText? || SetsDescriptors? || SetsBonds? || SetsAtoms?
    }
  }

  /** The record a fresh `new ChemComp()` holds: every field null, every list
      empty, `standard` false. */
  function NewFields(): Fields {
    Fields(None, None, None, None, None, None, None, None, None, None, None, None, None,
           None, None, None, None, None, None, None, None, None, None, None, None,
           [], [], [], None, None, false)
  }

  /** The record after a sequence of setter calls, in order. */
  function Replay(r: Fields, ops: seq<Setter>, cls: Classification): Fields
    decreases |ops|
  {
    if ops == [] then r else Replay(r.Apply(ops[0], cls), ops[1..], cls)
  }

  /** The setter calls `getEmptyChemComp` makes on a fresh record. */
  const EmptyChemCompSetters: seq<Setter> := [
    SetsOneLetterCode(Some(Placeholder)),
    SetsText(ThreeLetterCode, Some(EmptyThreeLetterCode)),
    SetsPolymerType(Some(Unknown)),
    SetsResidueType(Some(Atomn))
  ]

  /** The empty sentinel: null id, one-letter code `"?"`, three-letter code
      `"???"`, polymer kind `unknown`, residue kind `atomn`, and the standard
      flag that the one `setOneLetterCode("?")` call computed. */
  function EmptyFields(cls: Classification): (r: Fields)
    ensures r.id == None
    ensures r.oneLetterCode == Some(Placeholder)
    ensures r.threeLetterCode == Some(EmptyThreeLetterCode)
    ensures r.polymerType == Some(Unknown) && r.residueType == Some(Atomn)
    ensures r.standard == cls.isStandardChemComp(NewFields().(oneLetterCode := Some(Placeholder)))
    ensures r.IsEmpty()
  {
    NewFields()
      .Apply(SetsOneLetterCode(Some(Placeholder)), cls)
      .Apply(SetsText(ThreeLetterCode, Some(EmptyThreeLetterCode)), cls)
      .Apply(SetsPolymerType(Some(Unknown)), cls)
      .Apply(SetsResidueType(Some(Atomn)), cls)
  }

  /** The sentinel is what replaying the four setter calls on a fresh record gives. */
  lemma EmptyFieldsIsReplay(cls: Classification)
    ensures EmptyFields(cls) == Replay(NewFields(), EmptyChemCompSetters, cls)
  {
    var ops := EmptyChemCompSetters;
    var r1 := NewFields().Apply(ops[0], cls);
    var r2 := r1.Apply(ops[1], cls);
    var r3 := r2.Apply(ops[2], cls);
    var r4 := r3.Apply(ops[3], cls);
    assert Replay(r4, [], cls) == r4;
    assert Replay(r3, ops[3..], cls) == r4;
    assert Replay(r2, ops[2..], cls) == r4;
    assert Replay(r1, ops[1..], cls) == r4;
  }

  // -----------------------------------------------------------------------
  // Which setters re-derive what

  /** A plain setter stores its value in its own field and changes no other. */
  lemma WithTextChangesOnlyItsField(r: Fields, f: TextField, v: Option<string>)
    ensures r.WithText(f, v).Text(f) == v
    ensures forall g :: g != f ==> r.WithText(f, v).Text(g) == r.Text(g)
    ensures var s := r.WithText(f, v);
            s.compType == r.compType && s.monNstdParentCompId == r.monNstdParentCompId &&
            s.oneLetterCode == r.oneLetterCode &&
            s.descriptors == r.descriptors && s.bonds == r.bonds && s.atoms == r.atoms &&
            s.residueType == r.residueType && s.polymerType == r.polymerType &&
            s.standard == r.standard
  {
  }

  lemma ApplyKeepsStandard(r: Fields, op: Setter, cls: Classification)
    requires !op.RederivesStandard()
    ensures r.Apply(op, cls).standard == r.standard
  {
  }

  /** A setter that re-derives `standard` sets it to the rule applied to the
      record holding the new value. */
  lemma ApplyRederivesStandard(r: Fields, op: Setter, cls: Classification)
    requires op.RederivesStandard()
    ensures var s := r.Apply(op, cls); s.standard == cls.isStandardChemComp(s.(standard := r.standard))
  {
  }

  lemma {:induction false} ReplayAppend(r: Fields, a: seq<Setter>, b: seq<Setter>, cls: Classification)
    ensures Replay(r, a + b, cls) == Replay(Replay(r, a, cls), b, cls)
    decreases |a|
  {
    if a != [] {
      assert (a + b)[0] == a[0] && (a + b)[1..] == a[1..] + b;
      ReplayAppend(r.Apply(a[0], cls), a[1..], b, cls);
    } else {
      assert a + b == b;
    }
  }

  /** No sequence of setter calls changes `standard` unless it includes
      `setOneLetterCode` or `setMonNstdParentCompId`. */
  lemma {:induction false} ReplayKeepsStandard(r: Fields, ops: seq<Setter>, cls: Classification)
    requires forall i | 0 <= i < |ops| :: !ops[i].RederivesStandard()
    ensures Replay(r, ops, cls).standard == r.standard
    decreases |ops|
  {
    if ops != [] {
      ApplyKeepsStandard(r, ops[0], cls);
      ReplayKeepsStandard(r.Apply(ops[0], cls), ops[1..], cls);
    }
  }

  /** `standard` is whatever the last re-deriving setter computed, however
      many other setters follow it. */
  lemma StandardFromLastRederivation(r: Fields, before: seq<Setter>, op: Setter, after: seq<Setter>, cls: Classification)
    requires op.RederivesStandard()
    requires forall i | 0 <= i < |after| :: !after[i].RederivesStandard()
    ensures var mid := Replay(r, before, cls).Apply(op, cls);
            Replay(r, before + [op] + after, cls).standard == mid.standard &&
            mid.standard == cls.isStandardChemComp(mid.(standard := Replay(r, before, cls).standard))
  {
    var pre := Replay(r, before, cls);
    ReplayAppend(r, before + [op], after, cls);
    ReplayAppend(r, before, [op], cls);
    assert Replay(pre, [op], cls) == Replay(pre.Apply(op, cls), [], cls);
    ReplayKeepsStandard(pre.Apply(op, cls), after, cls);
  }

  /** Plain setters leave all three derived fields as they were. */
  lemma {:induction false} ReplayPlainKeepsDerived(r: Fields, ops: seq<Setter>, cls: Classification)
    requires forall i | 0 <= i < |ops| :: ops[i].IsPlain()
    ensures var s := Replay(r, ops, cls);
            s.residueType == r.residueType && s.polymerType == r.polymerType && s.standard == r.standard
    decreases |ops|
  {
    if ops != [] {
      ReplayPlainKeepsDerived(r.Apply(ops[0], cls), ops[1..], cls);
    }
  }

  /** The sentinel stays empty once `setId` gives it an id. */
  lemma EmptySentinelStaysEmpty(cls: Classification, id: Option<string>)
    ensures EmptyFields(cls).IsEmpty()
    ensures EmptyFields(cls).WithText(Id, id).IsEmpty()
  {
  }

  // -----------------------------------------------------------------------
  // The object

  class ChemComp {
    var id: Option<string>
    var name: Option<string>
    var compType: Option<string>
    var pdbxType: Option<string>
    var formula: Option<string>
    var monNstdParentCompId: Option<string>
    var pdbxSynonyms: Option<string>
    var pdbxFormalCharge: Option<string>
    var pdbxInitialDate: Option<string>
    var pdbxModifiedDate: Option<string>
    var pdbxAmbiguousFlag: Option<string>
    var pdbxReleaseStatus: Option<string>
    var pdbxReplacedBy: Option<string>
    var pdbxReplaces: Option<string>
    var formulaWeight: Option<string>
    var oneLetterCode: Option<string>
    var threeLetterCode: Option<string>
    var pdbxModelCoordinatesDetails: Option<string>
    var pdbxModelCoordinatesMissingFlag: Option<string>
    var pdbxIdealCoordinatesDetails: Option<string>
    var pdbxIdealCoordinatesMissingFlag: Option<string>
    var pdbxModelCoordinatesDbCode: Option<string>
    var pdbxSubcomponentList: Option<string>
    var pdbxProcessingSite: Option<string>
    var monNstdFlag: Option<string>
    var descriptors: seq<ChemCompDescriptor>
    var bonds: seq<ChemCompBond>
    var atoms: seq<ChemCompAtom>
    var residueType: Option<ResidueType>
    var polymerType: Option<PolymerType>
    var standard: bool

    function Snapshot(): Fields
      reads this
    {
      Fields(id, name, compType, pdbxType, formula, monNstdParentCompId, pdbxSynonyms,
             pdbxFormalCharge, pdbxInitialDate, pdbxModifiedDate, pdbxAmbiguousFlag,
             pdbxReleaseStatus, pdbxReplacedBy, pdbxReplaces, formulaWeight, oneLetterCode,
             threeLetterCode, pdbxModelCoordinatesDetails, pdbxModelCoordinatesMissingFlag,
             pdbxIdealCoordinatesDetails, pdbxIdealCoordinatesMissingFlag,
             pdbxModelCoordinatesDbCode, pdbxSubcomponentList, pdbxProcessingSite, monNstdFlag,
             descriptors, bonds, atoms, residueType, polymerType, standard)
    }

    constructor ()
      ensures Snapshot() == NewFields()
    {
      id, name, compType, pdbxType, formula := None, None, None, None, None;
      monNstdParentCompId, pdbxSynonyms, pdbxFormalCharge := None, None, None;
      pdbxInitialDate, pdbxModifiedDate, pdbxAmbiguousFlag := None, None, None;
      pdbxReleaseStatus, pdbxReplacedBy, pdbxReplaces := None, None, None;
      formulaWeight, oneLetterCode, threeLetterCode := None, None, None;
      pdbxModelCoordinatesDetails, pdbxModelCoordinatesMissingFlag := None, None;
      pdbxIdealCoordinatesDetails, pdbxIdealCoordinatesMissingFlag := None, None;
      pdbxModelCoordinatesDbCode, pdbxSubcomponentList := None, None;
      pdbxProcessingSite, monNstdFlag := None, None;
      descriptors, bonds, atoms := [], [], [];
      residueType, polymerType, standard := None, None, false;
    }

    // The plain text setters: each stores its value in its own field and
    // nothing else, so `standard` and the other derived fields keep their values.

    method SetId(v: Option<string>)
      modifies this`id
      ensures Snapshot() == old(Snapshot()).WithText(Id, v)
    {
      id := v;
    }

    method SetName(v: Option<string>)
      modifies this`name
      ensures Snapshot() == old(Snapshot()).WithText(Name, v)
    {
      name := v;
    }

    method SetPdbxType(v: Option<string>)
      modifies this`pdbxType
      ensures Snapshot() == old(Snapshot()).WithText(PdbxType, v)
    {
      pdbxType := v;
    }

    method SetFormula(v: Option<string>)
      modifies this`formula
      ensures Snapshot() == old(Snapshot()).WithText(Formula, v)
    {
      formula := v;
    }

    method SetPdbxSynonyms(v: Option<string>)
      modifies this`pdbxSynonyms
      ensures Snapshot() == old(Snapshot()).WithText(PdbxSynonyms, v)
    {
      pdbxSynonyms := v;
    }

    method SetPdbxFormalCharge(v: Option<string>)
      modifies this`pdbxFormalCharge
      ensures Snapshot() == old(Snapshot()).WithText(PdbxFormalCharge, v)
    {
      pdbxFormalCharge := v;
    }

    method SetPdbxInitialDate(v: Option<string>)
      modifies this`pdbxInitialDate
      ensures Snapshot() == old(Snapshot()).WithText(PdbxInitialDate, v)
    {
      pdbxInitialDate := v;
    }

    method SetPdbxModifiedDate(v: Option<string>)
      modifies this`pdbxModifiedDate
      ensures Snapshot() == old(Snapshot()).WithText(PdbxModifiedDate, v)
    {
      pdbxModifiedDate := v;
    }

    method SetPdbxAmbiguousFlag(v: Option<string>)
      modifies this`pdbxAmbiguousFlag
      ensures Snapshot() == old(Snapshot()).WithText(PdbxAmbiguousFlag, v)
    {
      pdbxAmbiguousFlag := v;
    }

    method SetPdbxReleaseStatus(v: Option<string>)
      modifies this`pdbxReleaseStatus
      ensures Snapshot() == old(Snapshot()).WithText(PdbxReleaseStatus, v)
    {
      pdbxReleaseStatus := v;
    }

    method SetPdbxReplacedBy(v: Option<string>)
      modifies this`pdbxReplacedBy
      ensures Snapshot() == old(Snapshot()).WithText(PdbxReplacedBy, v)
    {
      pdbxReplacedBy := v;
    }

    method SetPdbxReplaces(v: Option<string>)
      modifies this`pdbxReplaces
      ensures Snapshot() == old(Snapshot()).WithText(PdbxReplaces, v)
    {
      pdbxReplaces := v;
    }

    method SetFormulaWeight(v: Option<string>)
      modifies this`formulaWeight
      ensures Snapshot() == old(Snapshot()).WithText(FormulaWeight, v)
    {
      formulaWeight := v;
    }

    method SetThreeLetterCode(v: Option<string>)
      modifies this`threeLetterCode
      ensures Snapshot() == old(Snapshot()).WithText(ThreeLetterCode, v)
    {
      threeLetterCode := v;
    }

    method SetPdbxModelCoordinatesDetails(v: Option<string>)
      modifies this`pdbxModelCoordinatesDetails
      ensures Snapshot() == old(Snapshot()).WithText(PdbxModelCoordinatesDetails, v)
    {
      pdbxModelCoordinatesDetails := v;
    }

    method SetPdbxModelCoordinatesMissingFlag(v: Option<string>)
      modifies this`pdbxModelCoordinatesMissingFlag
      ensures Snapshot() == old(Snapshot()).WithText(PdbxModelCoordinatesMissingFlag, v)
    {
      pdbxModelCoordinatesMissingFlag := v;
    }

    method SetPdbxIdealCoordinatesDetails(v: Option<string>)
      modifies this`pdbxIdealCoordinatesDetails
      ensures Snapshot() == old(Snapshot()).WithText(PdbxIdealCoordinatesDetails, v)
    {
      pdbxIdealCoordinatesDetails := v;
    }

    method SetPdbxIdealCoordinatesMissingFlag(v: Option<string>)
      modifies this`pdbxIdealCoordinatesMissingFlag
      ensures Snapshot() == old(Snapshot()).WithText(PdbxIdealCoordinatesMissingFlag, v)
    {
      pdbxIdealCoordinatesMissingFlag := v;
    }

    method SetPdbxModelCoordinatesDbCode(v: Option<string>)
      modifies this`pdbxModelCoordinatesDbCode
      ensures Snapshot() == old(Snapshot()).WithText(PdbxModelCoordinatesDbCode, v)
    {
      pdbxModelCoordinatesDbCode := v;
    }

    method SetPdbxSubcomponentList(v: Option<string>)
      modifies this`pdbxSubcomponentList
      ensures Snapshot() == old(Snapshot()).WithText(PdbxSubcomponentList, v)
    {
      pdbxSubcomponentList := v;
    }

    method SetPdbxProcessingSite(v: Option<string>)
      modifies this`pdbxProcessingSite
      ensures Snapshot() == old(Snapshot()).WithText(PdbxProcessingSite, v)
    {
      pdbxProcessingSite := v;
    }

    method SetMonNstdFlag(v: Option<string>)
      modifies this`monNstdFlag
      ensures Snapshot() == old(Snapshot()).WithText(MonNstdFlag, v)
    {
      monNstdFlag := v;
    }

    method SetType(t: Option<string>, cls: Classification)
      modifies this`compType, this`residueType, this`polymerType
      ensures compType == t && residueType == cls.residueTypeFromString(t)
      ensures polymerType == if residueType.Some? then residueType.value.polymerType else old(polymerType)
      ensures Snapshot() == old(Snapshot()).Apply(SetsType(t), cls)
    {
      compType := t;
      residueType := cls.residueTypeFromString(t);
      if residueType.Some? {
        polymerType := residueType.value.polymerType;
      }
    }

    method SetResidueType(rt: Option<ResidueType>)
      modifies this`residueType
      ensures Snapshot() == old(Snapshot()).(residueType := rt)
    {
      residueType := rt;
    }

    method SetPolymerType(pt: Option<PolymerType>)
      modifies this`polymerType
      ensures Snapshot() == old(Snapshot()).(polymerType := pt)
    {
      polymerType := pt;
    }

    /** `setStandardFlag`: ask the external rule about the record as it is now. */
    method SetStandardFlag(cls: Classification)
      modifies this`standard
      ensures standard == cls.isStandardChemComp(old(Snapshot()))
      ensures Snapshot() == old(Snapshot()).WithStandardFlag(cls)
    {
      standard := cls.isStandardChemComp(Snapshot());
    }

    method SetOneLetterCode(v: Option<string>, cls: Classification)
      modifies this`oneLetterCode, this`standard
      ensures oneLetterCode == v
      ensures standard == cls.isStandardChemComp(old(Snapshot()).(oneLetterCode := v))
      ensures Snapshot() == old(Snapshot()).Apply(SetsOneLetterCode(v), cls)
    {
      oneLetterCode := v;
      SetStandardFlag(cls);
    }

    method SetMonNstdParentCompId(v: Option<string>, cls: Classification)
      modifies this`monNstdParentCompId, this`standard
      ensures monNstdParentCompId == v
      ensures standard == cls.isStandardChemComp(old(Snapshot()).(monNstdParentCompId := v))
      ensures Snapshot() == old(Snapshot()).Apply(SetsMonNstdParentCompId(v), cls)
    {
      monNstdParentCompId := v;
      SetStandardFlag(cls);
    }

    method SetDescriptors(d: seq<ChemCompDescriptor>)
      modifies this`descriptors
      ensures Snapshot() == old(Snapshot()).(descriptors := d)
    {
      descriptors := d;
    }

    method SetBonds(b: seq<ChemCompBond>)
      modifies this`bonds
      ensures Snapshot() == old(Snapshot()).(bonds := b)
    {
      bonds := b;
    }

    method SetAtoms(a: seq<ChemCompAtom>)
      modifies this`atoms
      ensures Snapshot() == old(Snapshot()).(atoms := a)
    {
      atoms := a;
    }

    /** `equals`: the same object, or another `ChemComp` whose every field,
        derived ones included, is equal. */
    function Equals(o: ChemComp?): (b: bool)
      reads this, o
      ensures b <==> o != null && Snapshot() == o.Snapshot()
    {
      this == o || (o != null && Snapshot() == o.Snapshot())
    }

    /** `compareTo`: 0 for equal records, else the ids compared as strings;
        a null id on that path throws. */
    function CompareTo(o: ChemComp?): (r: Result<int, JavaException>)
      reads this, o
      ensures Equals(o) ==> r == Success(0)
      ensures r.Failure? <==> !Equals(o) && (o == null || id.None? || o.id.None?)
    {
      if Equals(o) then Success(0)
      else if o == null || id.None? || o.id.None? then Failure(NullPointerException)
      else Success(JavaString.CompareTo(id.value, o.id.value))
    }

    /** `getEmptyChemComp`: a fresh record given the sentinel values by four setter calls. */
    static method GetEmptyChemComp(cls: Classification) returns (c: ChemComp)
      ensures fresh(c)
      ensures c.Snapshot() == EmptyFields(cls)
    {
      c := new ChemComp();
      c.SetOneLetterCode(Some(Placeholder), cls);
      c.SetThreeLetterCode(Some(EmptyThreeLetterCode));
      c.SetPolymerType(Some(Unknown));
      c.SetResidueType(Some(Atomn));
    }
  }

  // -----------------------------------------------------------------------
  // equals and compareTo

  lemma EqualsIsEquivalence(a: ChemComp, b: ChemComp, c: ChemComp)
    ensures a.Equals(a)
    ensures a.Equals(b) ==> b.Equals(a)
    ensures a.Equals(b) && b.Equals(c) ==> a.Equals(c)
  {
  }

  /** Records that differ only in a derived field are not equal. */
  lemma EqualsSeesDerivedFields(a: ChemComp, b: ChemComp)
    requires a.residueType != b.residueType || a.polymerType != b.polymerType || a.standard != b.standard
    ensures !a.Equals(b)
  {
  }

  /** With both ids present, `compareTo` is exactly the comparison of the ids,
      since equal records have equal ids. */
  lemma CompareToIsIdOrder(a: ChemComp, b: ChemComp)
    requires a.id.Some? && b.id.Some?
    ensures a.CompareTo(b) == Success(JavaString.CompareTo(a.id.value, b.id.value))
  {
  }

  /** Swapping the operands negates a result that does not throw. */
  lemma CompareToAntisymmetric(a: ChemComp, b: ChemComp)
    requires a.CompareTo(b).Success?
    ensures b.CompareTo(a) == Success(-a.CompareTo(b).value)
  {
    if !a.Equals(b) {
      JavaString.CompareToAntisymmetric(a.id.value, b.id.value);
    }
  }

  /** Two distinct records with the same id compare as 0 without being equal. */
  lemma CompareToIgnoresOtherFields(a: ChemComp, b: ChemComp)
    requires a.id.Some? && a.id == b.id && a.name != b.name
    ensures a.CompareTo(b) == Success(0) && !a.Equals(b)
  {
    CompareToIsIdOrder(a, b);
  }
}
