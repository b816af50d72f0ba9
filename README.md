# BioJava chemical components, modelled in Dafny

This project models the chemical-component core of BioJava's structure module:

- `ChemComp`, the record describing one chemical component (an amino acid, a nucleotide, a ligand). It holds 25 nullable text fields and three lists. It also holds three derived fields: the residue type, the polymer type and the `standard` flag. Two setters re-derive `standard` and one re-derives the residue and polymer types.
- `ChemicalComponentDictionary`, an index from component id to record. Two side maps, `replaces` and `isReplacedBy`, hold the ids of older and newer versions. Every query follows at most one link.
- `ReducedChemCompProvider.getChemComp`, the lookup against the definitions bundled with the library. It normalises the name (upper case, then trim) and never throws. A missing or unreadable resource yields the empty sentinel record, with the normalised name as its id.

Layout:

- `wrappers.dfy` (`Wrappers`): `Option` stands for a nullable reference, and `Result` for a call that may throw.
- `java_string.dfy` (`JavaString`): the `java.lang.String` behaviour the core depends on. It covers `trim()`, `toUpperCase()` over ASCII and `compareTo`, each with its laws.
- `chem_comp.dfy` (`ChemCompRecord`): `Fields` is the value a `ChemComp` holds. `Setter` and `Replay` describe sequences of setter calls. The `ChemComp` class has one field per Java field, and its setters are proved against `Fields`.
- `chemical_component_dictionary.dfy` (`ChemCompDictionary`): `Index` holds the three maps as values, and `Added` is insertion. The `ChemicalComponentDictionary` class has the three map fields, and its methods are proved against `Index`.
- `reduced_chem_comp_provider.dfy` (`ChemCompProvider`): `Normalize`, the fallback record, and the `ReducedChemCompProvider` class.

Modelling choices:

- A Java `null` is `None`. Dictionary keys are nullable ids, because a `HashMap` accepts a null key and `addChemComp` does not check the id.
- The Java field `type` is called `compType`, because `type` is a Dafny keyword. The maps `replaces` and `dictionary` keep their names, except that `replaces` (also a keyword) becomes `replacesMap`.
- `ResidueType.getResidueTypeFromString` and `ChemCompTools.isStandardChemComp` are not part of this model. They arrive as the two function fields of a `Classification` value. Setters that consult them take that value as a parameter. Every property is proved for every choice of the two functions.
- `ResidueType` and `PolymerType` are small datatypes. `PolymerType` has `Unknown` and otherwise only a name. A `ResidueType` carries the (nullable) polymer type that `setType` copies. `Atomn` is the residue type the sentinel is given. Its polymer type is taken as null here; no property depends on it.
- `ChemCompDescriptor`, `ChemCompBond` and `ChemCompAtom` are abstract types with equality. The record's lists are sequences of them.
- Resource lookup, gunzip and the mmCIF parser become one parameter, `resources: string -> ResourceOutcome`. Its outcome is `Absent`, `ReadFailure` (any `IOException`) or `Parsed(dict)`, where `dict` is the dictionary the parser's consumer built.

Where the code behaves differently from what its documentation suggests, the model follows the code:

- Re-inserting an id does not clear its replacement entries. If the new record has no `pdbxReplaces`/`pdbxReplacedBy`, the entries from the earlier insertion stay (`StaleReplacementSurvives`).
- The sentinel's `standard` flag is not fixed at false. It is whatever the standardness rule says about the fresh record once its one-letter code is `"?"`, because `getEmptyChemComp` calls `setOneLetterCode` (`EmptyFields`).
- `compareTo` is not a plain ordering by id. It returns 0 for equal records, and otherwise compares the ids with `String.compareTo`. It throws `NullPointerException` when it reaches a null id. It returns 0 for two different records that share an id (`CompareToIgnoresOtherFields`).

## Model

| member | source | states |
|---|---|---|
| `JavaString.ToUpperCase` | biojava-structure/src/main/java/org/biojava/nbio/structure/chem/ReducedChemCompProvider.java:27 | upper-casing keeps the length and maps every char through the ASCII upper-case map |
| `JavaString.UpperCaseIdempotent` | biojava-structure/src/main/java/org/biojava/nbio/structure/chem/ReducedChemCompProvider.java:27 | upper-casing twice is upper-casing once |
| `JavaString.UpperCaseIgnoresCase` | biojava-structure/src/main/java/org/biojava/nbio/structure/chem/ReducedChemCompProvider.java:27 | strings equal up to ASCII case upper-case to the same string |
| `JavaString.LeadingBlanks` | biojava-structure/src/main/java/org/biojava/nbio/structure/chem/ReducedChemCompProvider.java:27 | the count of leading chars at most U+0020 that `trim()` skips: all of them are blank and the next one is not |
| `JavaString.TrailingBlanks` | biojava-structure/src/main/java/org/biojava/nbio/structure/chem/ReducedChemCompProvider.java:27 | the count of trailing blanks `trim()` drops: all of them are blank and the one before is not |
| `JavaString.Trim` | biojava-structure/src/main/java/org/biojava/nbio/structure/chem/ReducedChemCompProvider.java:27 | `trim()` returns the slice after the leading blanks, with no blank at either end; everything dropped after the result is blank too; the result is empty exactly when the input is all blanks |
| `JavaString.TrimIgnoresPadding` | biojava-structure/src/main/java/org/biojava/nbio/structure/chem/ReducedChemCompProvider.java:27 | blank padding on either side of a string does not change its trim |
| `JavaString.TrimIdempotent` | biojava-structure/src/main/java/org/biojava/nbio/structure/chem/ReducedChemCompProvider.java:27 | trimming twice is trimming once |
| `JavaString.UpperCaseTrimCommute` | biojava-structure/src/main/java/org/biojava/nbio/structure/chem/ReducedChemCompProvider.java:27 | upper-casing then trimming equals trimming then upper-casing |
| `JavaString.CompareTo` | biojava-structure/src/main/java/org/biojava/nbio/structure/chem/ChemComp.java:337 | `String.compareTo`: the first char difference, else the length difference; 0 exactly for equal strings |
| `JavaString.TrimSameBlanks` | biojava-structure/src/main/java/org/biojava/nbio/structure/chem/ReducedChemCompProvider.java:27 | strings with blanks in the same places trim to the same positions |
| `JavaString.CompareToAntisymmetric` | biojava-structure/src/main/java/org/biojava/nbio/structure/chem/ChemComp.java:337 | swapping the operands of `String.compareTo` negates the result |
| `ChemCompRecord.Fields.HasParent` | biojava-structure/src/main/java/org/biojava/nbio/structure/chem/ChemComp.java:74-77 | a record has a parent exactly when its parent id is non-null and not `"?"` |
| `ChemCompRecord.EmptyFields` | biojava-structure/src/main/java/org/biojava/nbio/structure/chem/ChemComp.java:387-395 | the sentinel has null id, one-letter code `"?"`, three-letter code `"???"`, polymer type unknown and residue type atomn; its `standard` is the rule applied after `setOneLetterCode("?")`; it is empty |
| `ChemCompRecord.EmptyFieldsIsReplay` | biojava-structure/src/main/java/org/biojava/nbio/structure/chem/ChemComp.java:387-395 | the sentinel is the fresh record after the four setter calls of `getEmptyChemComp`, in order |
| `ChemCompRecord.WithTextChangesOnlyItsField` | biojava-structure/src/main/java/org/biojava/nbio/structure/chem/ChemComp.java:91-101 | a plain setter stores its value in its own field; every other text field, the lists and the three derived fields keep their values |
| `ChemCompRecord.ApplyKeepsStandard` | biojava-structure/src/main/java/org/biojava/nbio/structure/chem/ChemComp.java:119-129 | every setter except `setOneLetterCode` and `setMonNstdParentCompId` (including `setResidueType`, `setPolymerType`, `setType`) leaves `standard` unchanged |
| `ChemCompRecord.ApplyRederivesStandard` | biojava-structure/src/main/java/org/biojava/nbio/structure/chem/ChemComp.java:83-85 | after `setOneLetterCode` or `setMonNstdParentCompId`, `standard` is the external rule applied to the record that holds the new value |
| `ChemCompRecord.ReplayAppend` | biojava-structure/src/main/java/org/biojava/nbio/structure/chem/ChemComp.java:91-331 | running two sequences of setter calls one after the other is running their concatenation |
| `ChemCompRecord.ReplayKeepsStandard` | biojava-structure/src/main/java/org/biojava/nbio/structure/chem/ChemComp.java:83-85 | any sequence of setter calls without one of the two re-deriving setters leaves `standard` unchanged |
| `ChemCompRecord.StandardFromLastRederivation` | biojava-structure/src/main/java/org/biojava/nbio/structure/chem/ChemComp.java:232-235 | after any sequence of setter calls, `standard` is the value the last re-deriving call computed, however many other setters follow it |
| `ChemCompRecord.ReplayPlainKeepsDerived` | biojava-structure/src/main/java/org/biojava/nbio/structure/chem/ChemComp.java:99-101 | any sequence of plain setter calls leaves residue type, polymer type and `standard` unchanged |
| `ChemCompRecord.Fields.IsEmpty` | biojava-structure/src/main/java/org/biojava/nbio/structure/chem/ChemComp.java:401-404 | a record is non-empty exactly when it has an id and a three-letter code other than `"???"` |
| `ChemCompRecord.EmptySentinelStaysEmpty` | biojava-structure/src/main/java/org/biojava/nbio/structure/chem/ChemComp.java:401-404 | the sentinel is empty, and stays empty after `setId` with any id |
| `ChemCompRecord.ChemComp.constructor` | biojava-structure/src/main/java/org/biojava/nbio/structure/chem/ChemComp.java:15-48 | a new record has every text field null, every list empty, no residue or polymer type, and `standard` false |
| `ChemCompRecord.ChemComp.SetId` | biojava-structure/src/main/java/org/biojava/nbio/structure/chem/ChemComp.java:91-93 | stores the id and changes nothing else |
| `ChemCompRecord.ChemComp.SetName` | biojava-structure/src/main/java/org/biojava/nbio/structure/chem/ChemComp.java:99-101 | stores the name and changes nothing else |
| `ChemCompRecord.ChemComp.SetPdbxType` | biojava-structure/src/main/java/org/biojava/nbio/structure/chem/ChemComp.java:135-137 | stores the value and changes nothing else |
| `ChemCompRecord.ChemComp.SetFormula` | biojava-structure/src/main/java/org/biojava/nbio/structure/chem/ChemComp.java:143-145 | stores the value and changes nothing else |
| `ChemCompRecord.ChemComp.SetPdbxSynonyms` | biojava-structure/src/main/java/org/biojava/nbio/structure/chem/ChemComp.java:160-162 | stores the value and changes nothing else |
| `ChemCompRecord.ChemComp.SetPdbxFormalCharge` | biojava-structure/src/main/java/org/biojava/nbio/structure/chem/ChemComp.java:168-170 | stores the value and changes nothing else |
| `ChemCompRecord.ChemComp.SetPdbxInitialDate` | biojava-structure/src/main/java/org/biojava/nbio/structure/chem/ChemComp.java:176-178 | stores the value and changes nothing else |
| `ChemCompRecord.ChemComp.SetPdbxModifiedDate` | biojava-structure/src/main/java/org/biojava/nbio/structure/chem/ChemComp.java:184-186 | stores the value and changes nothing else |
| `ChemCompRecord.ChemComp.SetPdbxAmbiguousFlag` | biojava-structure/src/main/java/org/biojava/nbio/structure/chem/ChemComp.java:192-194 | stores the value and changes nothing else |
| `ChemCompRecord.ChemComp.SetPdbxReleaseStatus` | biojava-structure/src/main/java/org/biojava/nbio/structure/chem/ChemComp.java:200-202 | stores the value and changes nothing else |
| `ChemCompRecord.ChemComp.SetPdbxReplacedBy` | biojava-structure/src/main/java/org/biojava/nbio/structure/chem/ChemComp.java:208-210 | stores the value and changes nothing else |
| `ChemCompRecord.ChemComp.SetPdbxReplaces` | biojava-structure/src/main/java/org/biojava/nbio/structure/chem/ChemComp.java:216-218 | stores the value and changes nothing else |
| `ChemCompRecord.ChemComp.SetFormulaWeight` | biojava-structure/src/main/java/org/biojava/nbio/structure/chem/ChemComp.java:224-226 | stores the value and changes nothing else |
| `ChemCompRecord.ChemComp.SetThreeLetterCode` | biojava-structure/src/main/java/org/biojava/nbio/structure/chem/ChemComp.java:241-243 | stores the value and changes nothing else; in particular `standard` is kept |
| `ChemCompRecord.ChemComp.SetPdbxModelCoordinatesDetails` | biojava-structure/src/main/java/org/biojava/nbio/structure/chem/ChemComp.java:249-251 | stores the value and changes nothing else |
| `ChemCompRecord.ChemComp.SetPdbxModelCoordinatesMissingFlag` | biojava-structure/src/main/java/org/biojava/nbio/structure/chem/ChemComp.java:257-259 | stores the value and changes nothing else |
| `ChemCompRecord.ChemComp.SetPdbxIdealCoordinatesDetails` | biojava-structure/src/main/java/org/biojava/nbio/structure/chem/ChemComp.java:265-267 | stores the value and changes nothing else |
| `ChemCompRecord.ChemComp.SetPdbxIdealCoordinatesMissingFlag` | biojava-structure/src/main/java/org/biojava/nbio/structure/chem/ChemComp.java:273-275 | stores the value and changes nothing else |
| `ChemCompRecord.ChemComp.SetPdbxModelCoordinatesDbCode` | biojava-structure/src/main/java/org/biojava/nbio/structure/chem/ChemComp.java:281-283 | stores the value and changes nothing else |
| `ChemCompRecord.ChemComp.SetPdbxSubcomponentList` | biojava-structure/src/main/java/org/biojava/nbio/structure/chem/ChemComp.java:289-291 | stores the value and changes nothing else |
| `ChemCompRecord.ChemComp.SetPdbxProcessingSite` | biojava-structure/src/main/java/org/biojava/nbio/structure/chem/ChemComp.java:297-299 | stores the value and changes nothing else |
| `ChemCompRecord.ChemComp.SetMonNstdFlag` | biojava-structure/src/main/java/org/biojava/nbio/structure/chem/ChemComp.java:305-307 | stores the value and changes nothing else |
| `ChemCompRecord.ChemComp.SetType` | biojava-structure/src/main/java/org/biojava/nbio/structure/chem/ChemComp.java:107-113 | stores the type and sets the residue type to its classification; the polymer type becomes that residue type's polymer type only when the classification is non-null, and otherwise keeps its old value |
| `ChemCompRecord.ChemComp.SetResidueType` | biojava-structure/src/main/java/org/biojava/nbio/structure/chem/ChemComp.java:119-121 | stores the residue type and re-derives nothing |
| `ChemCompRecord.ChemComp.SetPolymerType` | biojava-structure/src/main/java/org/biojava/nbio/structure/chem/ChemComp.java:127-129 | stores the polymer type and re-derives nothing |
| `ChemCompRecord.ChemComp.SetStandardFlag` | biojava-structure/src/main/java/org/biojava/nbio/structure/chem/ChemComp.java:83-85 | sets `standard` to the external rule applied to the current record, and changes nothing else |
| `ChemCompRecord.ChemComp.SetOneLetterCode` | biojava-structure/src/main/java/org/biojava/nbio/structure/chem/ChemComp.java:232-235 | stores the code, then sets `standard` to the rule applied to the updated record |
| `ChemCompRecord.ChemComp.SetMonNstdParentCompId` | biojava-structure/src/main/java/org/biojava/nbio/structure/chem/ChemComp.java:151-154 | stores the parent id, then sets `standard` to the rule applied to the updated record |
| `ChemCompRecord.ChemComp.SetDescriptors` | biojava-structure/src/main/java/org/biojava/nbio/structure/chem/ChemComp.java:313-315 | stores the list and changes nothing else |
| `ChemCompRecord.ChemComp.SetBonds` | biojava-structure/src/main/java/org/biojava/nbio/structure/chem/ChemComp.java:321-323 | stores the list and changes nothing else |
| `ChemCompRecord.ChemComp.SetAtoms` | biojava-structure/src/main/java/org/biojava/nbio/structure/chem/ChemComp.java:329-331 | stores the list and changes nothing else |
| `ChemCompRecord.ChemComp.Equals` | biojava-structure/src/main/java/org/biojava/nbio/structure/chem/ChemComp.java:341-376 | `equals` holds exactly when the other object is non-null and every field matches, derived fields and lists included; the same-reference shortcut agrees with this |
| `ChemCompRecord.ChemComp.CompareTo` | biojava-structure/src/main/java/org/biojava/nbio/structure/chem/ChemComp.java:333-338 | equal records compare as 0; otherwise a null operand or null id throws `NullPointerException`, and nothing else throws |
| `ChemCompRecord.ChemComp.GetEmptyChemComp` | biojava-structure/src/main/java/org/biojava/nbio/structure/chem/ChemComp.java:387-395 | returns a fresh record holding exactly the sentinel value |
| `ChemCompRecord.EqualsIsEquivalence` | biojava-structure/src/main/java/org/biojava/nbio/structure/chem/ChemComp.java:341-376 | `equals` is reflexive, symmetric and transitive |
| `ChemCompRecord.EqualsSeesDerivedFields` | biojava-structure/src/main/java/org/biojava/nbio/structure/chem/ChemComp.java:374-375 | records that differ in residue type, polymer type or `standard` are not equal |
| `ChemCompRecord.CompareToIsIdOrder` | biojava-structure/src/main/java/org/biojava/nbio/structure/chem/ChemComp.java:333-338 | when both ids are non-null, `compareTo` always returns the string comparison of the ids, since equal records have equal ids |
| `ChemCompRecord.CompareToAntisymmetric` | biojava-structure/src/main/java/org/biojava/nbio/structure/chem/ChemComp.java:333-338 | when `a.compareTo(b)` returns, `b.compareTo(a)` returns its negation |
| `ChemCompRecord.CompareToIgnoresOtherFields` | biojava-structure/src/main/java/org/biojava/nbio/structure/chem/ChemComp.java:333-338 | two records with the same id and different names compare as 0 but are not equal |
| `ChemCompDictionary.Index.Added` | biojava-structure/src/main/java/org/biojava/nbio/structure/chem/ChemicalComponentDictionary.java:80-91 | after insertion the id maps to the new component and every other id keeps its entry; `replaces` and `isReplacedBy` gain an entry for the id only when the field is non-null and not `"?"`, and are otherwise untouched; validity is preserved |
| `ChemCompDictionary.EmptyIndex` | biojava-structure/src/main/java/org/biojava/nbio/structure/chem/ChemicalComponentDictionary.java:11-15 | a new dictionary has no entries and empty replacement maps, and is valid |
| `ChemCompDictionary.AddedSize` | biojava-structure/src/main/java/org/biojava/nbio/structure/chem/ChemicalComponentDictionary.java:97-99 | insertion grows the size by one for a new id and leaves it unchanged for a known one |
| `ChemCompDictionary.AddedCommutes` | biojava-structure/src/main/java/org/biojava/nbio/structure/chem/ChemicalComponentDictionary.java:80-91 | inserting two components with distinct ids in either order leaves all three maps equal |
| `ChemCompDictionary.OptionalUpdatesCommute` | biojava-structure/src/main/java/org/biojava/nbio/structure/chem/ChemicalComponentDictionary.java:82-90 | the conditional replacement-map updates for two distinct ids commute |
| `ChemCompDictionary.StaleReplacementSurvives` | biojava-structure/src/main/java/org/biojava/nbio/structure/chem/ChemicalComponentDictionary.java:82-86 | re-inserting an id whose new `pdbxReplaces` is null or `"?"` replaces the component but keeps the earlier `replaces` entry |
| `ChemCompDictionary.ReplacerWithoutReplacement` | biojava-structure/src/main/java/org/biojava/nbio/structure/chem/ChemicalComponentDictionary.java:42-47 | an id that is not replaced resolves to its own entry |
| `ChemCompDictionary.ReplacerIsOneHop` | biojava-structure/src/main/java/org/biojava/nbio/structure/chem/ChemicalComponentDictionary.java:42-47 | `getReplacer` follows one link: for any replaced id whose target is itself replaced, the result is the target's own entry, not its replacement's |
| `ChemCompDictionary.ReplacementIdsAreStored` | biojava-structure/src/main/java/org/biojava/nbio/structure/chem/ChemicalComponentDictionary.java:80-91 | since `addChemComp` writes a replacement entry only for the id it stores, every id with such an entry is in the dictionary |
| `ChemCompDictionary.ReplacerMayBeNull` | biojava-structure/src/main/java/org/biojava/nbio/structure/chem/ChemicalComponentDictionary.java:42-47 | a replaced id whose replacement was never inserted resolves to null although the id itself is present |
| `ChemCompDictionary.ReplacementResolvesBothWays` | biojava-structure/src/main/java/org/biojava/nbio/structure/chem/ChemicalComponentDictionary.java:42-62 | when A names B as its replacement and both are inserted in either order, A's id resolves to B; when B also names A as replaced, B's id resolves back to A |
| `ChemCompDictionary.NoParentWithoutParentId` | biojava-structure/src/main/java/org/biojava/nbio/structure/chem/ChemicalComponentDictionary.java:69-74 | a record whose parent id is null or `"?"` has no parent, whatever the dictionary holds |
| `ChemCompDictionary.ChemicalComponentDictionary.constructor` | biojava-structure/src/main/java/org/biojava/nbio/structure/chem/ChemicalComponentDictionary.java:11-15 | a new dictionary is empty in all three maps and valid |
| `ChemCompDictionary.ChemicalComponentDictionary.IsReplaced` | biojava-structure/src/main/java/org/biojava/nbio/structure/chem/ChemicalComponentDictionary.java:21-23 | true exactly when the id is a key of `isReplacedBy` |
| `ChemCompDictionary.ChemicalComponentDictionary.IsReplacer` | biojava-structure/src/main/java/org/biojava/nbio/structure/chem/ChemicalComponentDictionary.java:29-31 | true exactly when the id is a key of `replaces` |
| `ChemCompDictionary.ChemicalComponentDictionary.IsReplacedComp` | biojava-structure/src/main/java/org/biojava/nbio/structure/chem/ChemicalComponentDictionary.java:17-19 | asks `isReplaced` about the component's id |
| `ChemCompDictionary.ChemicalComponentDictionary.IsReplacerComp` | biojava-structure/src/main/java/org/biojava/nbio/structure/chem/ChemicalComponentDictionary.java:25-27 | asks `isReplacer` about the component's id |
| `ChemCompDictionary.ChemicalComponentDictionary.GetReplacer` | biojava-structure/src/main/java/org/biojava/nbio/structure/chem/ChemicalComponentDictionary.java:42-47 | returns the one-hop `Index.Replacer` result, null when absent |
| `ChemCompDictionary.ChemicalComponentDictionary.GetReplaced` | biojava-structure/src/main/java/org/biojava/nbio/structure/chem/ChemicalComponentDictionary.java:57-62 | returns the one-hop `Index.Replaced` result, null when absent |
| `ChemCompDictionary.ChemicalComponentDictionary.GetReplacerComp` | biojava-structure/src/main/java/org/biojava/nbio/structure/chem/ChemicalComponentDictionary.java:38-40 | resolves the component's id with `getReplacer` |
| `ChemCompDictionary.ChemicalComponentDictionary.GetReplacedComp` | biojava-structure/src/main/java/org/biojava/nbio/structure/chem/ChemicalComponentDictionary.java:53-55 | resolves the component's id with `getReplaced` |
| `ChemCompDictionary.ChemicalComponentDictionary.GetParent` | biojava-structure/src/main/java/org/biojava/nbio/structure/chem/ChemicalComponentDictionary.java:69-74 | null when the component has no parent; otherwise the entry for the parent id, which may be null |
| `ChemCompDictionary.ChemicalComponentDictionary.AddChemComp` | biojava-structure/src/main/java/org/biojava/nbio/structure/chem/ChemicalComponentDictionary.java:80-91 | the three maps become `Index.Added` of the old ones, and the invariant is kept |
| `ChemCompDictionary.ChemicalComponentDictionary.Size` | biojava-structure/src/main/java/org/biojava/nbio/structure/chem/ChemicalComponentDictionary.java:97-99 | the number of ids in the primary map |
| `ChemCompDictionary.ChemicalComponentDictionary.GetChemComp` | biojava-structure/src/main/java/org/biojava/nbio/structure/chem/ChemicalComponentDictionary.java:101-103 | the entry stored under the id, or null when there is none; never a made-up record |
| `ChemCompProvider.Normalize` | biojava-structure/src/main/java/org/biojava/nbio/structure/chem/ReducedChemCompProvider.java:27 | the key is no longer than the name, has no blank at either end and no lower-case ASCII letter |
| `ChemCompProvider.NormalizeIdempotent` | biojava-structure/src/main/java/org/biojava/nbio/structure/chem/ReducedChemCompProvider.java:27 | normalising a key again gives the same key |
| `ChemCompProvider.NormalizeFixedPoint` | biojava-structure/src/main/java/org/biojava/nbio/structure/chem/ReducedChemCompProvider.java:27 | a name that is already trimmed and has no lower-case ASCII letter is its own key; with `NormalizeIgnoresCaseAndPadding` this fixes the key of every name |
| `ChemCompProvider.NormalizeIgnoresCaseAndPadding` | biojava-structure/src/main/java/org/biojava/nbio/structure/chem/ReducedChemCompProvider.java:27 | names that differ only in ASCII letter case and in blank padding get the same key |
| `ChemCompProvider.FallbackFields` | biojava-structure/src/main/java/org/biojava/nbio/structure/chem/ReducedChemCompProvider.java:34-36 | the fallback record has the key as its id, three-letter code `"???"`, polymer type unknown and residue type atomn, and is empty |
| `ChemCompProvider.ReducedChemCompProvider.GetChemComp` | biojava-structure/src/main/java/org/biojava/nbio/structure/chem/ReducedChemCompProvider.java:26-55 | with a parsed resource, the result is the parsed dictionary's entry for the key, possibly null; with an absent or unreadable resource, the result is a fresh non-null fallback record for the key |
| `ChemCompProvider.ReducedChemCompProvider.EmptyChemCompFor` | biojava-structure/src/main/java/org/biojava/nbio/structure/chem/ReducedChemCompProvider.java:52-54 | returns a fresh record holding the fallback value for the name |

## Left out

- Logging (slf4j) is left out; it has no behaviour to verify.
- `toString`, `serialVersionUID` and `hashCode` are left out. `hashCode` hashes the same fields that `equals` compares, so equal records hash alike; its numeric value depends on Java library internals.
- The getters and `isStandard()` are plain field reads of the class's fields.
- The contents of `ResidueType.getResidueTypeFromString` and `ChemCompTools.isStandardChemComp` are not part of this model; they are parameters (`Classification`).
- The internals of `ChemCompDescriptor`, `ChemCompBond` and `ChemCompAtom` are not part of this model; `equals` compares the lists as wholes, as `List.equals` does.
- `getResourceAsStream`, `GZIPInputStream`, `SimpleMMcifParser` and `ChemCompConsumer` are replaced by the `resources` parameter. A parser exception other than `IOException` would escape `getChemComp` in Java; the model has no such outcome.
- `Normalize`: `toUpperCase` is modelled for ASCII letters only. Java's locale- and Unicode-aware upper-casing (for example `ß` becoming `SS`) is not captured.
- `ChemCompProvider.ReducedChemCompProvider.GetChemComp`: a null `recordName` throws `NullPointerException` in Java; the model's name is a non-null string.
- `ChemCompDictionary.ChemicalComponentDictionary.Size`: Java's `int` result is modelled as an unbounded integer; a map with more than 2^31 - 1 entries is out of reach.
- `ChemCompDictionary.ChemicalComponentDictionary.AddChemComp`: the dictionary holds references to `ChemComp` objects, as the Java map does. No contract describes what happens when a stored object is changed later through another reference. The queries read that object's fields when they are called, as Java does.
- A null `ChemComp` argument is left out. In Java, `addChemComp`, `isReplaced(ChemComp)`, `isReplacer(ChemComp)`, `getReplacer(ChemComp)`, `getReplaced(ChemComp)` and `getParent` throw `NullPointerException` on one; the model's parameters are non-null references.
- A null list is left out. `setDescriptors`, `setBonds` and `setAtoms` accept `null` in Java; the model's lists are sequences, which cannot be null.
- `JavaString.CompareTo`: compares Unicode scalar values and counts them for the length. Java compares UTF-16 code units, so the two differ on strings with chars above U+FFFF (for U+FFFF against U+10000 Java returns a positive value, the model -1). For chars up to U+FFFF, which includes the ASCII component ids, they agree.
