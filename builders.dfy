/**
 * The four registry builders of the editor: enumeration types, DATypes,
 * DOTypes and LNodeTypes, read from the DataTypeTemplates element. The
 * DAType and DOType builders work in two phases: a flat registry first,
 * then a linking pass that fills the reference slots in place.
 */
module TemplateBuilder {
  import opened Wrappers
  import opened Xml
  import opened SclModel

  // ---------------------------------------------------------------------------
  // EnumTypes

  function EnumValueOf(e: Element): EnumValue {
    EnumValue(e.textContent, GetAttribute(e, "desc"))
  }

  ghost function EnumTypeOf(e: Element): EnumType {
    var tags := ElementsByTagName(e, "EnumVal");
    EnumType(GetAttribute(e, "id"), seq(|tags|, j requires 0 <= j < |tags| => EnumValueOf(tags[j])), true)
  }

  /** The body of the outer loop of `getEnumTypes`: one EnumType and its values, in order. */
  method ReadEnumType(node: Element) returns (enumType: EnumType)
    ensures enumType == EnumTypeOf(node)
  {
    var enumTags := ElementsByTagName(node, "EnumVal");
    var enumValues: seq<EnumValue> := [];
    var j := 0;
    while j < |enumTags|
      invariant 0 <= j <= |enumTags|
      invariant |enumValues| == j
      invariant forall m :: 0 <= m < j ==> enumValues[m] == EnumValueOf(enumTags[m])
    {
      enumValues := enumValues + [EnumValueOf(enumTags[j])];
      j := j + 1;
    }
    enumType := EnumType(GetAttribute(node, "id"), enumValues, true);
    assert enumValues == EnumTypeOf(node).values;
  }

  /**
   * `getEnumTypes`: one EnumType per `EnumType` element, in document order,
   * each with one value per `EnumVal` descendant, in order.
   */
  method GetEnumTypes(templates: Element) returns (enums: seq<EnumType>)
    ensures |enums| == |ElementsByTagName(templates, "EnumType")|
    ensures forall i :: 0 <= i < |enums| ==> enums[i] == EnumTypeOf(ElementsByTagName(templates, "EnumType")[i])
    ensures forall i :: 0 <= i < |enums| ==>
              var node := ElementsByTagName(templates, "EnumType")[i];
              var tags := ElementsByTagName(node, "EnumVal");
              && enums[i].id == GetAttribute(node, "id")
              && enums[i].isEnumType
              && |enums[i].values| == |tags|
              && forall j :: 0 <= j < |tags| ==>
                   enums[i].values[j] == EnumValue(tags[j].textContent, GetAttribute(tags[j], "desc"))
  {
    var enumTypeNodes := ElementsByTagName(templates, "EnumType");
    enums := [];
    var i := 0;
    while i < |enumTypeNodes|
      invariant 0 <= i <= |enumTypeNodes|
      invariant |enums| == i
      invariant forall k :: 0 <= k < i ==> enums[k] == EnumTypeOf(enumTypeNodes[k])
    {
      var enumType := ReadEnumType(enumTypeNodes[i]);
      ghost var before := enums;
      enums := enums + [enumType];
      forall k | 0 <= k <= i
        ensures enums[k] == EnumTypeOf(enumTypeNodes[k])
      {
        if k < i {
          assert enums[k] == before[k];
        }
      }
      i := i + 1;
    }
    forall i | 0 <= i < |enums|
      ensures var tags := ElementsByTagName(enumTypeNodes[i], "EnumVal");
              && enums[i].id == GetAttribute(enumTypeNodes[i], "id")
              && enums[i].isEnumType
              && |enums[i].values| == |tags|
              && forall j :: 0 <= j < |tags| ==>
                   enums[i].values[j] == EnumValue(tags[j].textContent, GetAttribute(tags[j], "desc"))
    {
      assert enums[i] == EnumTypeOf(enumTypeNodes[i]);
    }
  }

  // ---------------------------------------------------------------------------
  // DATypes

  /** Phase one for a `BDA`: the type id is recorded (an empty one as None) but not followed yet. */
  function BdaOf(e: Element): (r: DataAttribute)
    ensures r.name == GetAttribute(e, "name") && r.bType == GetAttribute(e, "bType")
    ensures r.valKind == GetAttribute(e, "valKind") && r.fc == GetAttribute(e, "fc")
    ensures r.typeId.None? <==> GetAttribute(e, "type") == ""
    ensures r.typeId.Some? ==> r.typeId.value == GetAttribute(e, "type")
    ensures r.typ == NoType && r.val == ""
  {
    var bdaType := GetAttribute(e, "type");
    DataAttribute(
      GetAttribute(e, "name"), GetAttribute(e, "bType"), GetAttribute(e, "valKind"), "",
      GetAttribute(e, "fc"), if bdaType == "" then None else Some(bdaType), NoType)
  }

  ghost function FlatDaType(e: Element): DataAttributeType {
    var tags := ElementsByTagName(e, "BDA");
    DataAttributeType(GetAttribute(e, "id"), GetAttribute(e, "fc"),
      seq(|tags|, j requires 0 <= j < |tags| => BdaOf(tags[j])))
  }

  /**
   * The linking pass for one BDA: a BDA with a type id gets the target the
   * resolution rule picks; only its type slot changes, and a BDA without a
   * type id is left as it is.
   */
  function LinkBda(bda: DataAttribute, enumIds: seq<string>, daIds: seq<string>): (r: DataAttribute)
    ensures r.(typ := bda.typ) == bda
    ensures bda.typeId.None? ==> r == bda
    ensures bda.typeId.Some? ==> r.typ == ResolveRef(bda.bType, bda.typeId.value, enumIds, daIds)
  {
    if bda.typeId.Some? then bda.(typ := ResolveRef(bda.bType, bda.typeId.value, enumIds, daIds))
    else bda
  }

  function LinkedDaType(t: DataAttributeType, enumIds: seq<string>, daIds: seq<string>): DataAttributeType {
    t.(attributes := seq(|t.attributes|, j requires 0 <= j < |t.attributes| => LinkBda(t.attributes[j], enumIds, daIds)))
  }

  /**
   * The second phase of `getDaTypes`: every BDA of every DAType is linked in
   * place against the registry itself; ids, names and order do not change.
   */
  method LinkDaTypes(daTypes: array<DataAttributeType>, enumIds: seq<string>)
    modifies daTypes
    ensures DaTypeIds(daTypes[..]) == DaTypeIds(old(daTypes[..]))
    ensures forall i :: 0 <= i < daTypes.Length ==>
              daTypes[i] == LinkedDaType(old(daTypes[i]), enumIds, DaTypeIds(old(daTypes[..])))
  {
    var ids := DaTypeIds(daTypes[..]);
    var i := 0;
    while i < daTypes.Length
      invariant 0 <= i <= daTypes.Length
      invariant forall k :: 0 <= k < i ==> daTypes[k] == LinkedDaType(old(daTypes[k]), enumIds, ids)
      invariant forall k :: i <= k < daTypes.Length ==> daTypes[k] == old(daTypes[k])
      invariant DaTypeIds(daTypes[..]) == ids
    {
      var t := daTypes[i];
      var attrs := t.attributes;
      var j := 0;
      while j < |attrs|
        invariant 0 <= j <= |attrs| == |t.attributes|
        invariant forall m :: 0 <= m < j ==> attrs[m] == LinkBda(t.attributes[m], enumIds, ids)
        invariant forall m :: j <= m < |attrs| ==> attrs[m] == t.attributes[m]
      {
        var da := attrs[j];
        if da.typeId.Some? {
          attrs := attrs[j := da.(typ := ResolveRef(da.bType, da.typeId.value, enumIds, ids))];
        }
        j := j + 1;
      }
      daTypes[i] := t.(attributes := attrs);
      assert DaTypeIds(daTypes[..]) == ids by {
        assert forall k :: 0 <= k < daTypes.Length ==> daTypes[k].id == old(daTypes[k]).id;
      }
      i := i + 1;
    }
  }

  /** The inner loop of `getDaTypes`: one phase-one record per `BDA` element, in order. */
  method ReadBdas(daTags: seq<Element>) returns (bdas: seq<DataAttribute>)
    ensures |bdas| == |daTags|
    ensures forall m :: 0 <= m < |daTags| ==> bdas[m] == BdaOf(daTags[m])
  {
    bdas := [];
    var j := 0;
    while j < |daTags|
      invariant 0 <= j <= |daTags|
      invariant |bdas| == j
      invariant forall m :: 0 <= m < j ==> bdas[m] == BdaOf(daTags[m])
    {
      bdas := bdas + [BdaOf(daTags[j])];
      j := j + 1;
    }
  }

  /** One DAType of the first phase of `getDaTypes`, its BDAs unlinked. */
  method ReadDaType(node: Element) returns (daType: DataAttributeType)
    ensures daType == FlatDaType(node)
  {
    var bdas := ReadBdas(ElementsByTagName(node, "BDA"));
    daType := DataAttributeType(GetAttribute(node, "id"), GetAttribute(node, "fc"), bdas);
    assert bdas == FlatDaType(node).attributes;
  }

  /** The first phase of `getDaTypes`: the flat registry, one DAType per element, nothing linked. */
  method FlatDaTypes(templates: Element) returns (flat: seq<DataAttributeType>)
    ensures |flat| == |ElementsByTagName(templates, "DAType")|
    ensures forall k :: 0 <= k < |flat| ==> flat[k] == FlatDaType(ElementsByTagName(templates, "DAType")[k])
  {
    var daTypeNodes := ElementsByTagName(templates, "DAType");
    flat := [];
    var i := 0;
    while i < |daTypeNodes|
      invariant 0 <= i <= |daTypeNodes|
      invariant |flat| == i
      invariant forall k :: 0 <= k < i ==> flat[k] == FlatDaType(daTypeNodes[k])
    {
      var daType := ReadDaType(daTypeNodes[i]);
      ghost var before := flat;
      flat := flat + [daType];
      forall k | 0 <= k <= i
        ensures flat[k] == FlatDaType(daTypeNodes[k])
      {
        if k < i {
          assert flat[k] == before[k];
        }
      }
      i := i + 1;
    }
  }

  /**
   * `getDaTypes`: one DAType per `DAType` element and one attribute per `BDA`
   * descendant, in document order, each linked by the resolution rule against
   * the finished registries (possibly to its own DAType); every link lands
   * inside the registries.
   */
  method GetDaTypes(templates: Element, enums: seq<EnumType>) returns (daTypes: seq<DataAttributeType>)
    ensures |daTypes| == |ElementsByTagName(templates, "DAType")|
    ensures forall i :: 0 <= i < |daTypes| ==>
              daTypes[i] == LinkedDaType(FlatDaType(ElementsByTagName(templates, "DAType")[i]),
                                         EnumIds(enums), DaTypeIds(daTypes))
    ensures forall i :: 0 <= i < |daTypes| ==>
              var node := ElementsByTagName(templates, "DAType")[i];
              var tags := ElementsByTagName(node, "BDA");
              && daTypes[i].id == GetAttribute(node, "id")
              && daTypes[i].fc == GetAttribute(node, "fc")
              && |daTypes[i].attributes| == |tags|
              && forall j :: 0 <= j < |tags| ==>
                   daTypes[i].attributes[j] == LinkBda(BdaOf(tags[j]), EnumIds(enums), DaTypeIds(daTypes))
    ensures forall i :: 0 <= i < |daTypes| ==> AttributesInRange(daTypes[i].attributes, |enums|, |daTypes|)
  {
    var flat := FlatDaTypes(templates);
    var registry := new DataAttributeType[|flat|](k requires 0 <= k < |flat| => flat[k]);
    assert registry[..] == flat;
    LinkDaTypes(registry, EnumIds(enums));
    daTypes := registry[..];
    assert DaTypeIds(daTypes) == DaTypeIds(flat);
    forall i | 0 <= i < |daTypes|
      ensures AttributesInRange(daTypes[i].attributes, |enums|, |daTypes|)
    {
      assert daTypes[i] == LinkedDaType(flat[i], EnumIds(enums), DaTypeIds(flat));
      forall j | 0 <= j < |daTypes[i].attributes|
        ensures RefInRange(daTypes[i].attributes[j].typ, |enums|, |daTypes|)
      {
        assert daTypes[i].attributes[j] == LinkBda(flat[i].attributes[j], EnumIds(enums), DaTypeIds(daTypes));
      }
    }
  }

  // ---------------------------------------------------------------------------
  // DOTypes

  /**
   * A `DA` of a DOType, resolved on the spot against the finished EnumType
   * and DAType registries. The lookup key is the `type` attribute even when
   * it is empty, so a DA without a type still matches an entry whose id is "".
   */
  function DaOf(e: Element, enumIds: seq<string>, daIds: seq<string>): (r: DataAttribute)
    ensures r.name == GetAttribute(e, "name") && r.bType == GetAttribute(e, "bType")
    ensures r.valKind == GetAttribute(e, "valKind") && r.val == GetAttribute(e, "val")
    ensures r.fc == GetAttribute(e, "fc")
    ensures r.typeId.None? <==> GetAttribute(e, "type") == ""
    ensures r.typeId.Some? ==> r.typeId.value == GetAttribute(e, "type")
    ensures r.typ == ResolveRef(GetAttribute(e, "bType"), GetAttribute(e, "type"), enumIds, daIds)
    ensures RefInRange(r.typ, |enumIds|, |daIds|)
  {
    var bType := GetAttribute(e, "bType");
    var daTypeId := GetAttribute(e, "type");
    DataAttribute(
      GetAttribute(e, "name"), bType, GetAttribute(e, "valKind"), GetAttribute(e, "val"),
      GetAttribute(e, "fc"), if daTypeId == "" then None else Some(daTypeId),
      ResolveRef(bType, daTypeId, enumIds, daIds))
  }

  /** Phase one for an `SDO`: the type id is kept and the link is left empty. */
  function SdoOf(e: Element): SubDataObject {
    SubDataObject(GetAttribute(e, "name"), GetAttribute(e, "type"), None)
  }

  ghost function FlatDoType(e: Element, enumIds: seq<string>, daIds: seq<string>): DataObjectType {
    var daTags := ElementsByTagName(e, "DA");
    var sdoTags := ElementsByTagName(e, "SDO");
    DataObjectType(GetAttribute(e, "id"), GetAttribute(e, "cdc"),
      seq(|sdoTags|, j requires 0 <= j < |sdoTags| => SdoOf(sdoTags[j])),
      seq(|daTags|, j requires 0 <= j < |daTags| => DaOf(daTags[j], enumIds, daIds)))
  }

  /** The DA loop of `getDoTypes`: one resolved attribute per `DA` element, in order. */
  method ReadDas(daTags: seq<Element>, enumIds: seq<string>, daIds: seq<string>) returns (das: seq<DataAttribute>)
    ensures |das| == |daTags|
    ensures forall m :: 0 <= m < |daTags| ==> das[m] == DaOf(daTags[m], enumIds, daIds)
  {
    das := [];
    var j := 0;
    while j < |daTags|
      invariant 0 <= j <= |daTags|
      invariant |das| == j
      invariant forall m :: 0 <= m < j ==> das[m] == DaOf(daTags[m], enumIds, daIds)
    {
      das := das + [DaOf(daTags[j], enumIds, daIds)];
      j := j + 1;
    }
  }

  /** The SDO loop of `getDoTypes`: one unlinked sub-object per `SDO` element, in order. */
  method ReadSdos(sdoTags: seq<Element>) returns (sdos: seq<SubDataObject>)
    ensures |sdos| == |sdoTags|
    ensures forall m :: 0 <= m < |sdoTags| ==> sdos[m] == SdoOf(sdoTags[m])
  {
    sdos := [];
    var j := 0;
    while j < |sdoTags|
      invariant 0 <= j <= |sdoTags|
      invariant |sdos| == j
      invariant forall m :: 0 <= m < j ==> sdos[m] == SdoOf(sdoTags[m])
    {
      sdos := sdos + [SdoOf(sdoTags[j])];
      j := j + 1;
    }
  }

  /** One DOType of the first phase of `getDoTypes`: DAs resolved, SDOs unlinked. */
  method ReadDoType(node: Element, enumIds: seq<string>, daIds: seq<string>) returns (doType: DataObjectType)
    ensures doType == FlatDoType(node, enumIds, daIds)
  {
    var das := ReadDas(ElementsByTagName(node, "DA"), enumIds, daIds);
    var sdos := ReadSdos(ElementsByTagName(node, "SDO"));
    doType := DataObjectType(GetAttribute(node, "id"), GetAttribute(node, "cdc"), sdos, das);
    assert das == FlatDoType(node, enumIds, daIds).das;
    assert sdos == FlatDoType(node, enumIds, daIds).sdos;
  }

  /** The first phase of `getDoTypes`: DAs resolved, SDOs not yet linked. */
  method FlatDoTypes(templates: Element, enumIds: seq<string>, daIds: seq<string>) returns (flat: seq<DataObjectType>)
    ensures |flat| == |ElementsByTagName(templates, "DOType")|
    ensures forall k :: 0 <= k < |flat| ==>
              flat[k] == FlatDoType(ElementsByTagName(templates, "DOType")[k], enumIds, daIds)
  {
    var doTypeNodes := ElementsByTagName(templates, "DOType");
    flat := [];
    var i := 0;
    while i < |doTypeNodes|
      invariant 0 <= i <= |doTypeNodes|
      invariant |flat| == i
      invariant forall k :: 0 <= k < i ==> flat[k] == FlatDoType(doTypeNodes[k], enumIds, daIds)
    {
      var doType := ReadDoType(doTypeNodes[i], enumIds, daIds);
      ghost var before := flat;
      flat := flat + [doType];
      forall k | 0 <= k <= i
        ensures flat[k] == FlatDoType(doTypeNodes[k], enumIds, daIds)
      {
        if k < i {
          assert flat[k] == before[k];
        }
      }
      i := i + 1;
    }
  }

  /**
   * The linking pass for one DOType: each SDO points at the first DOType of
   * the registry with its type id, or nowhere; nothing else changes.
   */
  function LinkedDoType(t: DataObjectType, doIds: seq<string>): (r: DataObjectType)
    ensures r.id == t.id && r.cdc == t.cdc && r.das == t.das && |r.sdos| == |t.sdos|
    ensures forall j :: 0 <= j < |t.sdos| ==>
              r.sdos[j].name == t.sdos[j].name && r.sdos[j].typeId == t.sdos[j].typeId
    ensures forall j :: 0 <= j < |t.sdos| ==> r.sdos[j].doType == FirstIndex(doIds, t.sdos[j].typeId)
  {
    t.(sdos := seq(|t.sdos|, j requires 0 <= j < |t.sdos| =>
                 t.sdos[j].(doType := FirstIndex(doIds, t.sdos[j].typeId))))
  }

  /**
   * The second phase of `getDoTypes`: every SDO is linked in place against
   * the registry being linked, so self- and mutual references arise.
   */
  method LinkSdos(doTypes: array<DataObjectType>)
    modifies doTypes
    ensures DoTypeIds(doTypes[..]) == DoTypeIds(old(doTypes[..]))
    ensures forall i :: 0 <= i < doTypes.Length ==>
              doTypes[i] == LinkedDoType(old(doTypes[i]), DoTypeIds(old(doTypes[..])))
  {
    var ids := DoTypeIds(doTypes[..]);
    var i := 0;
    while i < doTypes.Length
      invariant 0 <= i <= doTypes.Length
      invariant forall k :: 0 <= k < i ==> doTypes[k] == LinkedDoType(old(doTypes[k]), ids)
      invariant forall k :: i <= k < doTypes.Length ==> doTypes[k] == old(doTypes[k])
      invariant DoTypeIds(doTypes[..]) == ids
    {
      var t := doTypes[i];
      var sdos := t.sdos;
      var j := 0;
      while j < |sdos|
        invariant 0 <= j <= |sdos| == |t.sdos|
        invariant forall m :: 0 <= m < j ==> sdos[m] == t.sdos[m].(doType := FirstIndex(ids, t.sdos[m].typeId))
        invariant forall m :: j <= m < |sdos| ==> sdos[m] == t.sdos[m]
      {
        sdos := sdos[j := sdos[j].(doType := FirstIndex(ids, sdos[j].typeId))];
        j := j + 1;
      }
      doTypes[i] := t.(sdos := sdos);
      assert DoTypeIds(doTypes[..]) == ids by {
        assert forall k :: 0 <= k < doTypes.Length ==> doTypes[k].id == old(doTypes[k]).id;
      }
      i := i + 1;
    }
  }

  /**
   * `getDoTypes`: one DOType per `DOType` element, in document order, with
   * its DAs resolved against the EnumType and DAType registries and its SDOs
   * linked to the first DOType of the finished registry with the same id;
   * every reference lands inside the registries.
   */
  method GetDoTypes(templates: Element, daTypes: seq<DataAttributeType>, enums: seq<EnumType>)
    returns (doTypes: seq<DataObjectType>)
    ensures |doTypes| == |ElementsByTagName(templates, "DOType")|
    ensures forall i :: 0 <= i < |doTypes| ==>
              doTypes[i] == LinkedDoType(FlatDoType(ElementsByTagName(templates, "DOType")[i],
                                                    EnumIds(enums), DaTypeIds(daTypes)), DoTypeIds(doTypes))
    ensures forall i :: 0 <= i < |doTypes| ==>
              var node := ElementsByTagName(templates, "DOType")[i];
              var daTags := ElementsByTagName(node, "DA");
              && doTypes[i].id == GetAttribute(node, "id")
              && doTypes[i].cdc == GetAttribute(node, "cdc")
              && |doTypes[i].das| == |daTags|
              && forall j :: 0 <= j < |daTags| ==>
                   doTypes[i].das[j] == DaOf(daTags[j], EnumIds(enums), DaTypeIds(daTypes))
    ensures forall i :: 0 <= i < |doTypes| ==>
              var sdoTags := ElementsByTagName(ElementsByTagName(templates, "DOType")[i], "SDO");
              && |doTypes[i].sdos| == |sdoTags|
              && forall j :: 0 <= j < |sdoTags| ==>
                   && doTypes[i].sdos[j].name == GetAttribute(sdoTags[j], "name")
                   && doTypes[i].sdos[j].typeId == GetAttribute(sdoTags[j], "type")
                   && doTypes[i].sdos[j].doType == FirstIndex(DoTypeIds(doTypes), GetAttribute(sdoTags[j], "type"))
    ensures forall i :: 0 <= i < |doTypes| ==>
              && AttributesInRange(doTypes[i].das, |enums|, |daTypes|)
              && SdosInRange(doTypes[i].sdos, |doTypes|)
  {
    var flat := FlatDoTypes(templates, EnumIds(enums), DaTypeIds(daTypes));
    var registry := new DataObjectType[|flat|](k requires 0 <= k < |flat| => flat[k]);
    assert registry[..] == flat;
    LinkSdos(registry);
    doTypes := registry[..];
    assert DoTypeIds(doTypes) == DoTypeIds(flat);
    forall i | 0 <= i < |doTypes|
      ensures AttributesInRange(doTypes[i].das, |enums|, |daTypes|)
      ensures SdosInRange(doTypes[i].sdos, |doTypes|)
    {
      assert doTypes[i] == LinkedDoType(flat[i], DoTypeIds(flat));
    }
  }

  /**
   * A BDA and a DA without a `type` attribute are treated differently: the
   * BDA is never linked, the DA is looked up under the id "" and lands on the
   * first DAType whose id is empty.
   */
  lemma MissingTypeContrast(e: Element, enums: seq<EnumType>, daTypes: seq<DataAttributeType>)
    requires "type" !in e.attributes && GetAttribute(e, "bType") != "Enum"
    requires "" in DaTypeIds(daTypes)
    ensures LinkBda(BdaOf(e), EnumIds(enums), DaTypeIds(daTypes)).typ == NoType
    ensures var r := DaOf(e, EnumIds(enums), DaTypeIds(daTypes));
            r.typeId.None? && r.typ.DaRef? && daTypes[r.typ.idx].id == ""
  {
  }

  // ---------------------------------------------------------------------------
  // LNodeTypes

  /** A `DO` of an LNodeType, bound to the first DOType whose id is its `type` attribute. */
  function DoOf(e: Element, doIds: seq<string>): DataObject {
    DataObject(GetAttribute(e, "name"), FirstIndex(doIds, GetAttribute(e, "type")))
  }

  ghost function LnTypeOf(e: Element, doIds: seq<string>): LnType {
    var doTags := ElementsByTagName(e, "DO");
    LnType(GetAttribute(e, "id"), GetAttribute(e, "prefix"), GetAttribute(e, "lnClass"), GetAttribute(e, "inst"),
      seq(|doTags|, j requires 0 <= j < |doTags| => DoOf(doTags[j], doIds)))
  }

  /** The body of the outer loop of `getLnTypes`: one LNodeType and its DOs, in order. */
  method ReadLnType(node: Element, doIds: seq<string>) returns (lnType: LnType)
    ensures lnType == LnTypeOf(node, doIds)
  {
    var doNames := ElementsByTagName(node, "DO");
    var dos: seq<DataObject> := [];
    var j := 0;
    while j < |doNames|
      invariant 0 <= j <= |doNames|
      invariant |dos| == j
      invariant forall m :: 0 <= m < j ==> dos[m] == DoOf(doNames[m], doIds)
    {
      dos := dos + [DoOf(doNames[j], doIds)];
      j := j + 1;
    }
    lnType := LnType(GetAttribute(node, "id"), GetAttribute(node, "prefix"),
                     GetAttribute(node, "lnClass"), GetAttribute(node, "inst"), dos);
    assert dos == LnTypeOf(node, doIds).dos;
  }

  /**
   * `getLnTypes`: one LNodeType per `LNodeType` element and one data object
   * per `DO` descendant (none is ever dropped), in document order, each bound
   * to the first DOType with the DO's type id, or to nothing.
   */
  method GetLnTypes(templates: Element, doTypes: seq<DataObjectType>) returns (lnTypes: seq<LnType>)
    ensures |lnTypes| == |ElementsByTagName(templates, "LNodeType")|
    ensures forall i :: 0 <= i < |lnTypes| ==>
              lnTypes[i] == LnTypeOf(ElementsByTagName(templates, "LNodeType")[i], DoTypeIds(doTypes))
    ensures forall i :: 0 <= i < |lnTypes| ==>
              var node := ElementsByTagName(templates, "LNodeType")[i];
              var doTags := ElementsByTagName(node, "DO");
              && lnTypes[i].id == GetAttribute(node, "id")
              && lnTypes[i].prefix == GetAttribute(node, "prefix")
              && lnTypes[i].lnClass == GetAttribute(node, "lnClass")
              && lnTypes[i].inst == GetAttribute(node, "inst")
              && |lnTypes[i].dos| == |doTags|
              && forall j :: 0 <= j < |doTags| ==>
                   && lnTypes[i].dos[j].name == GetAttribute(doTags[j], "name")
                   && lnTypes[i].dos[j].typ == FirstIndex(DoTypeIds(doTypes), GetAttribute(doTags[j], "type"))
    ensures LnTypesInRange(lnTypes, |doTypes|)
  {
    var lnodeTypes := ElementsByTagName(templates, "LNodeType");
    var doIds := DoTypeIds(doTypes);
    lnTypes := [];
    var i := 0;
    while i < |lnodeTypes|
      invariant 0 <= i <= |lnodeTypes|
      invariant |lnTypes| == i
      invariant forall k :: 0 <= k < i ==> lnTypes[k] == LnTypeOf(lnodeTypes[k], doIds)
    {
      var lnType := ReadLnType(lnodeTypes[i], doIds);
      ghost var before := lnTypes;
      lnTypes := lnTypes + [lnType];
      forall k | 0 <= k <= i
        ensures lnTypes[k] == LnTypeOf(lnodeTypes[k], doIds)
      {
        if k < i {
          assert lnTypes[k] == before[k];
        }
      }
      i := i + 1;
    }
    forall i | 0 <= i < |lnTypes|
      ensures DosInRange(lnTypes[i].dos, |doTypes|)
    {
      assert lnTypes[i] == LnTypeOf(lnodeTypes[i], doIds);
    }
  }
}
