/** `ChemicalComponentDictionary`: components indexed by id, plus the two
    replacement maps filled in as a side effect of insertion. */
module ChemCompDictionary {
  import opened Wrappers
  import opened ChemCompRecord

  /** The three maps of a dictionary, as values. The key is a nullable id,
      since a `HashMap` accepts a null key; replacement targets are never null. */
  datatype Index<C> = Index(
    dictionary: map<Option<string>, C>,
    replacesMap: map<Option<string>, string>,
    isReplacedBy: map<Option<string>, string>)
  {
    /** Replacement entries exist only for ids that were inserted. */
    predicate Valid() {
      replacesMap.Keys <= dictionary.Keys && isReplacedBy.Keys <= dictionary.Keys
    }

    /** `HashMap.get`: the entry, or null. */
    function Get(id: Option<string>): Option<C> {
      if id in dictionary then Some(dictionary[id]) else None
    }

    /** `addChemComp`: store the component under its id; record what it
        replaces and what replaced it only when those are given. */
    function Added(id: Option<string>, rep: Option<string>, isRep: Option<string>, c: C): (r: Index<C>)
      ensures Valid() ==> r.Valid()
      ensures r.Get(id) == Some(c)
      ensures forall k | k != id :: r.Get(k) == Get(k)
      ensures IsSpecified(rep) ==> r.replacesMap == replacesMap[id := rep.value]
      ensures !IsSpecified(rep) ==> r.replacesMap == replacesMap
      ensures IsSpecified(isRep) ==> r.isReplacedBy == isReplacedBy[id := isRep.value]
      ensures !IsSpecified(isRep) ==> r.isReplacedBy == isReplacedBy
    {
      Index(dictionary[id := c],
            if IsSpecified(rep) then replacesMap[id := rep.value] else replacesMap,
            if IsSpecified(isRep) then isReplacedBy[id := isRep.value] else isReplacedBy)
    }

    predicate IsReplaced(id: Option<string>) {
      id in isReplacedBy
    }

    predicate IsReplacer(id: Option<string>) {
      id in replacesMap
    }

    /** `getReplacer`: one hop along `isReplacedBy`, else the entry itself. */
    function Replacer(id: Option<string>): Option<C> {
      if IsReplaced(id) then Get(Some(isReplacedBy[id])) else Get(id)
    }

    /** `getReplaced`: one hop along `replacesMap`, else the entry itself. */
    function Replaced(id: Option<string>): Option<C> {
      if IsReplacer(id) then Get(Some(replacesMap[id])) else Get(id)
    }

    /** `getParent`: null without a parent, else the entry for the parent id. */
    function Parent(f: Fields): Option<C> {
      if f.HasParent() then Get(f.monNstdParentCompId) else None
    }
  }

  function EmptyIndex<C>(): (ix: Index<C>)
    ensures ix.Valid() && |ix.dictionary| == 0 && ix.replacesMap == map[] && ix.isReplacedBy == map[]
  {
    Index(map[], map[], map[])
  }

  /** `Added` for a component whose id and replacement fields are those of `f`. */
  function AddedFields<C>(ix: Index<C>, f: Fields, c: C): Index<C> {
    ix.Added(f.id, f.pdbxReplaces, f.pdbxReplacedBy, c)
  }

  // -----------------------------------------------------------------------
  // Properties of insertion and lookup

  /** The size grows by one for a new id and stays put for a known one. */
  lemma AddedSize<C>(ix: Index<C>, id: Option<string>, rep: Option<string>, isRep: Option<string>, c: C)
    ensures |ix.Added(id, rep, isRep, c).dictionary| == if id in ix.dictionary then |ix.dictionary| else |ix.dictionary| + 1
  {
  }

  /** Inserting two components with distinct ids in either order gives the same maps. */
  lemma AddedCommutes<C>(ix: Index<C>, a: Fields, ca: C, b: Fields, cb: C)
    requires a.id != b.id
    ensures AddedFields(AddedFields(ix, a, ca), b, cb) == AddedFields(AddedFields(ix, b, cb), a, ca)
  {
    var ab, ba := AddedFields(AddedFields(ix, a, ca), b, cb), AddedFields(AddedFields(ix, b, cb), a, ca);
    UpdatesCommute(ix.dictionary, a.id, ca, b.id, cb);
    OptionalUpdatesCommute(ix.replacesMap, a.id, a.pdbxReplaces, b.id, b.pdbxReplaces);
    OptionalUpdatesCommute(ix.isReplacedBy, a.id, a.pdbxReplacedBy, b.id, b.pdbxReplacedBy);
  }

  lemma UpdatesCommute<K, V>(m: map<K, V>, x: K, u: V, y: K, v: V)
    requires x != y
    ensures m[x := u][y := v] == m[y := v][x := u]
  {
  }

  /** The update `addChemComp` makes to a replacement map, done for two ids in either order. */
  lemma OptionalUpdatesCommute(m: map<Option<string>, string>, x: Option<string>, u: Option<string>, y: Option<string>, v: Option<string>)
    requires x != y
    ensures var mx := if IsSpecified(u) then m[x := u.value] else m;
            var my := if IsSpecified(v) then m[y := v.value] else m;
            (if IsSpecified(v) then mx[y := v.value] else mx) == (if IsSpecified(u) then my[x := u.value] else my)
  {
    if IsSpecified(u) && IsSpecified(v) {
      UpdatesCommute(m, x, u.value, y, v.value);
    }
  }

  /** Re-inserting an id without replacement fields keeps the entries its
      earlier insertion made, next to the new component. */
  lemma StaleReplacementSurvives<C>(ix: Index<C>, id: Option<string>, prior: string, c1: C, c2: C, rep2: Option<string>)
    requires prior != Placeholder
    requires !IsSpecified(rep2)
    ensures var twice := ix.Added(id, Some(prior), None, c1).Added(id, rep2, None, c2);
            twice.Get(id) == Some(c2) && twice.IsReplacer(id) && twice.replacesMap[id] == prior
  {
  }

  /** An id without a replacement entry resolves to its own entry. */
  lemma ReplacerWithoutReplacement<C>(ix: Index<C>, id: Option<string>)
    requires !ix.IsReplaced(id)
    ensures ix.Replacer(id) == ix.Get(id)
  {
  }

  /** Resolution is a single hop: a replacement target that is itself
      replaced is returned as it is, not followed further. */
  lemma ReplacerIsOneHop<C>(ix: Index<C>, a: Option<string>)
    requires ix.IsReplaced(a) && ix.IsReplaced(Some(ix.isReplacedBy[a]))
    ensures ix.Replacer(a) == ix.Get(Some(ix.isReplacedBy[a]))
  {
  }

  /** In a valid dictionary, an id with a replacement entry is itself stored. */
  lemma ReplacementIdsAreStored<C>(ix: Index<C>, id: Option<string>)
    requires ix.Valid()
    requires ix.IsReplaced(id) || ix.IsReplacer(id)
    ensures ix.Get(id).Some?
  {
  }

  /** A replaced id whose replacement was never inserted resolves to null,
      although the id itself is present. */
  lemma ReplacerMayBeNull<C>(c: C)
    ensures var ix := EmptyIndex<C>().Added(Some("A"), None, Some("B"), c);
            ix.Valid() && ix.Get(Some("A")) == Some(c) && ix.Replacer(Some("A")) == None
  {
  }

  /** Old component `a` names `b` as its replacement; once both are inserted,
      in either order, `a`'s id resolves to `b`, and, when `b` names `a` in
      turn, `b`'s id resolves back to `a`. */
  lemma ReplacementResolvesBothWays<C>(ix: Index<C>, a: Fields, ca: C, b: Fields, cb: C)
    requires a.id.Some? && b.id.Some? && a.id != b.id
    requires a.pdbxReplacedBy == b.id && IsSpecified(b.id)
    ensures AddedFields(AddedFields(ix, a, ca), b, cb).Replacer(a.id) == Some(cb)
    ensures AddedFields(AddedFields(ix, b, cb), a, ca).Replacer(a.id) == Some(cb)
    ensures b.pdbxReplaces == a.id && IsSpecified(a.id) ==>
              AddedFields(AddedFields(ix, a, ca), b, cb).Replaced(b.id) == Some(ca) &&
              AddedFields(AddedFields(ix, b, cb), a, ca).Replaced(b.id) == Some(ca)
  {
    AddedCommutes(ix, a, ca, b, cb);
  }

  /** A record without a usable parent id has no parent, whatever is stored. */
  lemma NoParentWithoutParentId<C>(ix: Index<C>, f: Fields)
    requires f.monNstdParentCompId.None? || f.monNstdParentCompId == Some(Placeholder)
    ensures ix.Parent(f) == None
  {
  }

  // -----------------------------------------------------------------------
  // The object

  /** `OrNull`: a Java reference from an `Option`. */
  function OrNull(o: Option<ChemComp>): (r: ChemComp?)
    ensures r == null <==> o.None?
    ensures o.Some? ==> r == o.value
  {
    if o.Some? then o.value else null
  }

  class ChemicalComponentDictionary {
    var dictionary: map<Option<string>, ChemComp>
    var replacesMap: map<Option<string>, string>
    var isReplacedBy: map<Option<string>, string>

    function State(): Index<ChemComp>
      reads this
    {
      Index(dictionary, replacesMap, isReplacedBy)
    }

    predicate Valid()
      reads this
    {
      State().Valid()
    }

    constructor ()
      ensures Valid()
      ensures State() == EmptyIndex()
    {
      dictionary := map[];
      replacesMap := map[];
      isReplacedBy := map[];
    }

    method IsReplaced(id: Option<string>) returns (b: bool)
      ensures b <==> id in isReplacedBy
    {
      b := id in isReplacedBy;
    }

    method IsReplacer(id: Option<string>) returns (b: bool)
      ensures b <==> id in replacesMap
    {
      b := id in replacesMap;
    }

    /** `isReplaced(ChemComp)`: asks about the component's id. */
    method IsReplacedComp(c: ChemComp) returns (b: bool)
      ensures b == State().IsReplaced(c.id)
    {
      b := IsReplaced(c.id);
    }

    /** `isReplacer(ChemComp)`: asks about the component's id. */
    method IsReplacerComp(c: ChemComp) returns (b: bool)
      ensures b == State().IsReplacer(c.id)
    {
      b := IsReplacer(c.id);
    }

    method GetReplacer(id: Option<string>) returns (r: ChemComp?)
      ensures r == OrNull(State().Replacer(id))
    {
      var replaced := IsReplaced(id);
      if replaced {
        r := GetChemComp(Some(isReplacedBy[id]));
      } else {
        r := GetChemComp(id);
      }
    }

    method GetReplaced(id: Option<string>) returns (r: ChemComp?)
      ensures r == OrNull(State().Replaced(id))
    {
      var replacer := IsReplacer(id);
      if replacer {
        r := GetChemComp(Some(replacesMap[id]));
      } else {
        r := GetChemComp(id);
      }
    }

    /** `getReplacer(ChemComp)`: resolves the component's id. */
    method GetReplacerComp(c: ChemComp) returns (r: ChemComp?)
      ensures r == OrNull(State().Replacer(c.id))
    {
      r := GetReplacer(c.id);
    }

    /** `getReplaced(ChemComp)`: resolves the component's id. */
    method GetReplacedComp(c: ChemComp) returns (r: ChemComp?)
      ensures r == OrNull(State().Replaced(c.id))
    {
      r := GetReplaced(c.id);
    }

    method GetParent(c: ChemComp) returns (r: ChemComp?)
      ensures !c.Snapshot().HasParent() ==> r == null
      ensures r == OrNull(State().Parent(c.Snapshot()))
    {
      if c.Snapshot().HasParent() {
        r := GetChemComp(c.monNstdParentCompId);
      } else {
        r := null;
      }
    }

    method AddChemComp(comp: ChemComp)
      modifies this
      ensures old(Valid()) ==> Valid()
      ensures State() == old(State()).Added(comp.id, comp.pdbxReplaces, comp.pdbxReplacedBy, comp)
    {
      dictionary := dictionary[comp.id := comp];
      var rep := comp.pdbxReplaces;
      if rep.Some? && rep.value != Placeholder {
        replacesMap := replacesMap[comp.id := rep.value];
      }
      var isRep := comp.pdbxReplacedBy;
      if isRep.Some? && isRep.value != Placeholder {
        isReplacedBy := isReplacedBy[comp.id := isRep.value];
      }
    }

    method Size() returns (n: int)
      ensures n == |dictionary|
    {
      n := |dictionary|;
    }

    method GetChemComp(id: Option<string>) returns (r: ChemComp?)
      ensures r == OrNull(State().Get(id))
      ensures r != null ==> id in dictionary && dictionary[id] == r
    {
      r := if id in dictionary then dictionary[id] else null;
    }
  }
}
