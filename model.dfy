/**
 * The records the editor builds from the DataTypeTemplates section
 * (the interfaces under src/models), with every object reference replaced by an index into
 * the registry that owns the target.
 */
module SclModel {
  import opened Wrappers

  /** One `EnumVal`: its text content and its `desc` attribute. */
  datatype EnumValue = EnumValue(name: string, description: string)

  /** One `EnumType`. `isEnumType` is the marker the renderer probes for. */
  datatype EnumType = EnumType(id: string, values: seq<EnumValue>, isEnumType: bool)

  /**
   * What a data attribute's `type` slot holds: nothing (`null`), a DAType
   * or an EnumType, each given by its index in its registry.
   */
  datatype AttrRef = NoType | DaRef(idx: nat) | EnumRef(idx: nat)

  /** A `BDA` of a DAType or a `DA` of a DOType. */
  datatype DataAttribute = DataAttribute(
    name: string,
    bType: string,
    valKind: string,
    val: string,
    fc: string,
    typeId: Option<string>,
    typ: AttrRef)

  datatype DataAttributeType = DataAttributeType(id: string, fc: string, attributes: seq<DataAttribute>)

  /** An `SDO`; `doType` indexes the DOType registry once linked. */
  datatype SubDataObject = SubDataObject(name: string, typeId: string, doType: Option<nat>)

  datatype DataObjectType = DataObjectType(
    id: string,
    cdc: string,
    sdos: seq<SubDataObject>,
    das: seq<DataAttribute>)

  /** A `DO` of an LNodeType; `typ` indexes the DOType registry. */
  datatype DataObject = DataObject(name: string, typ: Option<nat>)

  datatype LnType = LnType(id: string, prefix: string, lnClass: string, inst: string, dos: seq<DataObject>)

  /** The three linked registries the renderers walk. */
  datatype Registry = Registry(
    enums: seq<EnumType>,
    daTypes: seq<DataAttributeType>,
    doTypes: seq<DataObjectType>)

  function EnumIds(enums: seq<EnumType>): seq<string> {
    seq(|enums|, i requires 0 <= i < |enums| => enums[i].id)
  }

  function DaTypeIds(daTypes: seq<DataAttributeType>): seq<string> {
    seq(|daTypes|, i requires 0 <= i < |daTypes| => daTypes[i].id)
  }

  function DoTypeIds(doTypes: seq<DataObjectType>): seq<string> {
    seq(|doTypes|, i requires 0 <= i < |doTypes| => doTypes[i].id)
  }

  /**
   * `Array.prototype.find` on a registry, compared by id: the index of the
   * first entry whose id is `key`, or None when no entry has it.
   */
  function FirstIndex(ids: seq<string>, key: string): (r: Option<nat>)
    ensures r.Some? ==> r.value < |ids| && ids[r.value] == key
    ensures r.Some? ==> forall k :: 0 <= k < r.value ==> ids[k] != key
    ensures r.None? <==> key !in ids
  {
    if |ids| == 0 then None
    else if ids[0] == key then Some(0)
    else
      match FirstIndex(ids[1..], key)
      case None => None
      case Some(k) => Some(k + 1)
  }

  /**
   * The resolution rule shared by BDAs and DAs: a basic type of exactly
   * "Enum" looks the key up among the EnumTypes, anything else among the
   * DATypes; the first entry with that id wins and a miss leaves no type.
   */
  function ResolveRef(bType: string, key: string, enumIds: seq<string>, daIds: seq<string>): (r: AttrRef)
    ensures r.EnumRef? ==> bType == "Enum" && r.idx < |enumIds| && enumIds[r.idx] == key
    ensures r.EnumRef? ==> forall k :: 0 <= k < r.idx ==> enumIds[k] != key
    ensures r.DaRef? ==> bType != "Enum" && r.idx < |daIds| && daIds[r.idx] == key
    ensures r.DaRef? ==> forall k :: 0 <= k < r.idx ==> daIds[k] != key
    ensures r.NoType? <==> key !in (if bType == "Enum" then enumIds else daIds)
  {
    if bType == "Enum" then
      match FirstIndex(enumIds, key)
      case Some(k) => EnumRef(k)
      case None => NoType
    else
      match FirstIndex(daIds, key)
      case Some(k) => DaRef(k)
      case None => NoType
  }

  predicate RefInRange(r: AttrRef, enumCount: nat, daCount: nat) {
    match r
    case NoType => true
    case DaRef(k) => k < daCount
    case EnumRef(k) => k < enumCount
  }

  predicate AttributesInRange(das: seq<DataAttribute>, enumCount: nat, daCount: nat) {
    forall j :: 0 <= j < |das| ==> RefInRange(das[j].typ, enumCount, daCount)
  }

  predicate SdosInRange(sdos: seq<SubDataObject>, doCount: nat) {
    forall j :: 0 <= j < |sdos| ==> sdos[j].doType.Some? ==> sdos[j].doType.value < doCount
  }

  predicate DosInRange(dos: seq<DataObject>, doCount: nat) {
    forall j :: 0 <= j < |dos| ==> dos[j].typ.Some? ==> dos[j].typ.value < doCount
  }

  /** Every reference stored in the registries points at an existing entry. */
  predicate ValidRegistry(reg: Registry) {
    && (forall i :: 0 <= i < |reg.daTypes| ==>
          AttributesInRange(reg.daTypes[i].attributes, |reg.enums|, |reg.daTypes|))
    && (forall i :: 0 <= i < |reg.doTypes| ==>
          AttributesInRange(reg.doTypes[i].das, |reg.enums|, |reg.daTypes|)
          && SdosInRange(reg.doTypes[i].sdos, |reg.doTypes|))
  }

  predicate LnTypesInRange(lnTypes: seq<LnType>, doCount: nat) {
    forall i :: 0 <= i < |lnTypes| ==> DosInRange(lnTypes[i].dos, doCount)
  }
}
