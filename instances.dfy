/**
 * The per-device view of the editor (`getIedsList`, `getLdevicesList`):
 * every `LN` under every `LDevice` under every `IED`, bound by id to the
 * LNodeTypes and rendered with the type-catalogue renderer.
 */
module InstanceView {
  import opened Xml
  import opened SclModel
  import opened TreeView

  /**
   * `lnTypes.filter(t => t.id === lnType)`: every LNodeType with that id, in
   * registry order; duplicates are all kept.
   */
  function MatchingLnTypes(lnTypes: seq<LnType>, lnType: string): (r: seq<LnType>)
    ensures |r| <= |lnTypes|
    ensures forall t :: t in r ==> t in lnTypes && t.id == lnType
    ensures forall i :: 0 <= i < |lnTypes| && lnTypes[i].id == lnType ==> lnTypes[i] in r
  {
    if lnTypes == [] then []
    else (if lnTypes[0].id == lnType then [lnTypes[0]] else []) + MatchingLnTypes(lnTypes[1..], lnType)
  }

  /** The filter keeps registry order across any split of the registry, so duplicates show up in turn. */
  lemma {:induction false} MatchingAppend(a: seq<LnType>, b: seq<LnType>, lnType: string)
    ensures MatchingLnTypes(a + b, lnType) == MatchingLnTypes(a, lnType) + MatchingLnTypes(b, lnType)
  {
    if a != [] {
      assert (a + b)[0] == a[0];
      assert (a + b)[1..] == a[1..] + b;
      MatchingAppend(a[1..], b, lnType);
    } else {
      assert a + b == b;
    }
  }

  lemma MatchesInRange(lnTypes: seq<LnType>, lnType: string, doCount: nat)
    requires LnTypesInRange(lnTypes, doCount)
    ensures LnTypesInRange(MatchingLnTypes(lnTypes, lnType), doCount)
  {
    var r := MatchingLnTypes(lnTypes, lnType);
    forall i | 0 <= i < |r| ensures DosInRange(r[i].dos, doCount) {
      assert r[i] in lnTypes;
    }
  }

  /** One `LN`: labelled `LN: ` + prefix + lnClass + inst, holding every LNodeType with its `lnType` id. */
  function LnItem(ln: Element, lnTypes: seq<LnType>, reg: Registry, fuel: nat): (r: Item)
    requires ValidRegistry(reg) && LnTypesInRange(lnTypes, |reg.doTypes|)
    ensures r.Branch?
    ensures r.caption == "LN: " + GetAttribute(ln, "prefix") + GetAttribute(ln, "lnClass") + GetAttribute(ln, "inst")
    ensures |r.children| == |MatchingLnTypes(lnTypes, GetAttribute(ln, "lnType"))|
  {
    var matches := MatchingLnTypes(lnTypes, GetAttribute(ln, "lnType"));
    MatchesInRange(lnTypes, GetAttribute(ln, "lnType"), |reg.doTypes|);
    Branch("LN: " + GetAttribute(ln, "prefix") + GetAttribute(ln, "lnClass") + GetAttribute(ln, "inst"),
           LNodeTypeList(matches, reg, fuel))
  }

  /** One `LDevice` of `getLdevicesList`: labelled with its `inst`, holding its `LN` descendants. */
  function LDeviceItem(lDevice: Element, lnTypes: seq<LnType>, reg: Registry, fuel: nat): (r: Item)
    requires ValidRegistry(reg) && LnTypesInRange(lnTypes, |reg.doTypes|)
    ensures r.Branch? && r.caption == GetAttribute(lDevice, "inst")
    ensures |r.children| == |ElementsByTagName(lDevice, "LN")|
  {
    var lNodes := ElementsByTagName(lDevice, "LN");
    Branch(GetAttribute(lDevice, "inst"),
           seq(|lNodes|, j requires 0 <= j < |lNodes| => LnItem(lNodes[j], lnTypes, reg, fuel)))
  }

  /** `getLdevicesList`: one node per `LDevice` descendant of the IED, in order. */
  function LDevicesList(ied: Element, lnTypes: seq<LnType>, reg: Registry, fuel: nat): (r: seq<Item>)
    requires ValidRegistry(reg) && LnTypesInRange(lnTypes, |reg.doTypes|)
    ensures |r| == |ElementsByTagName(ied, "LDevice")|
    ensures forall i :: 0 <= i < |r| ==> r[i] == LDeviceItem(ElementsByTagName(ied, "LDevice")[i], lnTypes, reg, fuel)
  {
    var lDevices := ElementsByTagName(ied, "LDevice");
    seq(|lDevices|, i requires 0 <= i < |lDevices| => LDeviceItem(lDevices[i], lnTypes, reg, fuel))
  }

  /** `getIedsList`: one node `IED:  (name)` per IED, in order, holding its logical devices. */
  function IedsList(ieds: seq<Element>, lnTypes: seq<LnType>, reg: Registry, fuel: nat): (r: seq<Item>)
    requires ValidRegistry(reg) && LnTypesInRange(lnTypes, |reg.doTypes|)
    ensures |r| == |ieds|
    ensures forall i :: 0 <= i < |ieds| ==>
              && r[i].Branch?
              && r[i].caption == "IED:  (" + GetAttribute(ieds[i], "name") + ")"
              && r[i].children == LDevicesList(ieds[i], lnTypes, reg, fuel)
  {
    seq(|ieds|, i requires 0 <= i < |ieds| =>
      Branch("IED:  (" + GetAttribute(ieds[i], "name") + ")", LDevicesList(ieds[i], lnTypes, reg, fuel)))
  }

  /**
   * Instance binding under one logical device: every `LN` descendant is
   * rendered (none is skipped, and no `LN0` is among them), in order, each
   * holding one type node per LNodeType whose id is its `lnType`; with no
   * such LNodeType its nested list is empty.
   */
  lemma LDeviceBinding(lDevice: Element, lnTypes: seq<LnType>, reg: Registry, fuel: nat)
    requires ValidRegistry(reg) && LnTypesInRange(lnTypes, |reg.doTypes|)
    ensures var lNodes := ElementsByTagName(lDevice, "LN");
            var cs := LDeviceItem(lDevice, lnTypes, reg, fuel).children;
            && |cs| == |lNodes|
            && forall j :: 0 <= j < |lNodes| ==>
                 && lNodes[j].tag == "LN"
                 && cs[j].Branch?
                 && cs[j].caption == "LN: " + GetAttribute(lNodes[j], "prefix") + GetAttribute(lNodes[j], "lnClass")
                                     + GetAttribute(lNodes[j], "inst")
                 && |cs[j].children| == |MatchingLnTypes(lnTypes, GetAttribute(lNodes[j], "lnType"))|
                 && LnTypesInRange(MatchingLnTypes(lnTypes, GetAttribute(lNodes[j], "lnType")), |reg.doTypes|)
                 && cs[j].children == LNodeTypeList(MatchingLnTypes(lnTypes, GetAttribute(lNodes[j], "lnType")), reg, fuel)
                 && ((forall i :: 0 <= i < |lnTypes| ==> lnTypes[i].id != GetAttribute(lNodes[j], "lnType"))
                     ==> cs[j].children == [])
  {
    var lNodes := ElementsByTagName(lDevice, "LN");
    forall j | 0 <= j < |lNodes|
      ensures LnTypesInRange(MatchingLnTypes(lnTypes, GetAttribute(lNodes[j], "lnType")), |reg.doTypes|)
    {
      MatchesInRange(lnTypes, GetAttribute(lNodes[j], "lnType"), |reg.doTypes|);
    }
    forall j | 0 <= j < |lNodes|
      ensures (forall i :: 0 <= i < |lnTypes| ==> lnTypes[i].id != GetAttribute(lNodes[j], "lnType"))
              ==> MatchingLnTypes(lnTypes, GetAttribute(lNodes[j], "lnType")) == []
    {
      var r := MatchingLnTypes(lnTypes, GetAttribute(lNodes[j], "lnType"));
      if r != [] {
        assert r[0] in lnTypes;
      }
    }
  }

  /**
   * `getIedsList`: one node per IED, in order, labelled `IED:  (name)`, with
   * one child per `LDevice` descendant, labelled with that device's `inst`.
   */
  lemma IedRendering(ieds: seq<Element>, lnTypes: seq<LnType>, reg: Registry, fuel: nat)
    requires ValidRegistry(reg) && LnTypesInRange(lnTypes, |reg.doTypes|)
    ensures var r := IedsList(ieds, lnTypes, reg, fuel);
            && |r| == |ieds|
            && forall i :: 0 <= i < |ieds| ==>
                 var lDevices := ElementsByTagName(ieds[i], "LDevice");
                 && r[i].Branch?
                 && r[i].caption == "IED:  (" + GetAttribute(ieds[i], "name") + ")"
                 && |r[i].children| == |lDevices|
                 && forall k :: 0 <= k < |lDevices| ==>
                      r[i].children[k] == LDeviceItem(lDevices[k], lnTypes, reg, fuel)
                      && r[i].children[k].caption == GetAttribute(lDevices[k], "inst")
  {
  }
}
