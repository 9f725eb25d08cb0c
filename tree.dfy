/**
 * The tree renderers of the editor (`getLNodeTypeList`, `getDosList`,
 * `getSDosList`, `createDaElement`, `getDaList`, `getEnumList`). The source
 * follows references with no cycle guard; here every step along a DAType or
 * DOType reference spends one unit of `fuel`. A DA typed by a DAType, or a
 * typed SDO, reached with no fuel left is shown with no children; a DA typed
 * by an enumeration needs no fuel.
 */
module TreeView {
  import opened Wrappers
  import opened SclModel

  /**
   * A display node: a plain `<li>` leaf, or an expandable `<li>` with a
   * caret label and a nested list of children.
   */
  datatype Item = Leaf(text: string) | Branch(caption: string, children: seq<Item>)

  /** The label of a DA or BDA with no type: the brackets are always there. */
  function UntypedLabel(da: DataAttribute): string {
    da.name + " " + da.bType + " [" + da.fc + "]"
  }

  /** The label of a typed DA or BDA: the brackets only for a non-empty fc. */
  function TypedLabel(da: DataAttribute): string {
    da.name + " " + da.bType + (if da.fc != "" then " [" + da.fc + "]" else "")
  }

  /** `doType?.cdc` spliced into a string: "undefined" when there is no type. */
  function CdcText(t: Option<nat>, doTypes: seq<DataObjectType>): string
    requires t.Some? ==> t.value < |doTypes|
  {
    match t
    case None => "undefined"
    case Some(k) => doTypes[k].cdc
  }

  /** `getEnumList`: the value names, in order. */
  function EnumList(t: EnumType): (r: seq<Item>)
    ensures |r| == |t.values|
    ensures forall j :: 0 <= j < |t.values| ==> r[j] == Leaf(t.values[j].name)
  {
    seq(|t.values|, j requires 0 <= j < |t.values| => Leaf(t.values[j].name))
  }

  /** `createDaElement`: an untyped attribute is a leaf, a typed one goes to `getDaList`. */
  function DaElement(da: DataAttribute, reg: Registry, fuel: nat): (r: Item)
    requires ValidRegistry(reg) && RefInRange(da.typ, |reg.enums|, |reg.daTypes|)
    ensures r.Leaf? <==> da.typ.NoType?
    decreases fuel, 1
  {
    if da.typ.NoType? then Leaf(UntypedLabel(da)) else DaList(da, reg, fuel)
  }

  /** The attributes of a DOType or DAType, each through `createDaElement`, in order. */
  function DaElements(das: seq<DataAttribute>, reg: Registry, fuel: nat): seq<Item>
    requires ValidRegistry(reg) && AttributesInRange(das, |reg.enums|, |reg.daTypes|)
    decreases fuel, 2
  {
    seq(|das|, i requires 0 <= i < |das| => DaElement(das[i], reg, fuel))
  }

  /**
   * `getDaList` for a typed attribute: an expandable node holding the enum
   * value names, or the referenced DAType's attributes one level down.
   */
  function DaList(da: DataAttribute, reg: Registry, fuel: nat): (r: Item)
    requires ValidRegistry(reg) && RefInRange(da.typ, |reg.enums|, |reg.daTypes|) && !da.typ.NoType?
    ensures r.Branch?
    decreases fuel, 0
  {
    if da.typ.EnumRef? then
      Branch(TypedLabel(da), EnumList(reg.enums[da.typ.idx]))
    else if fuel == 0 then
      Branch(TypedLabel(da), [])
    else
      Branch(TypedLabel(da), DaElements(reg.daTypes[da.typ.idx].attributes, reg, fuel - 1))
  }

  /** `n` copies of `xs` one after the other. */
  function Repeat(xs: seq<Item>, n: nat): (r: seq<Item>)
    ensures |r| == n * |xs|
  {
    if n == 0 then [] else xs + Repeat(xs, n - 1)
  }

  /** Copy `q` of `xs` inside `Repeat(xs, n)` starts at `q * |xs|`. */
  lemma {:induction false} RepeatAt(xs: seq<Item>, n: nat, q: nat, j: nat)
    requires q < n && j < |xs|
    ensures q * |xs| + j < |Repeat(xs, n)| && Repeat(xs, n)[q * |xs| + j] == xs[j]
  {
    if q > 0 {
      RepeatAt(xs, n - 1, q - 1, j);
      assert q * |xs| + j == |xs| + ((q - 1) * |xs| + j);
    }
  }

  /** `getSDosList`: one node per SDO, in order. */
  function SdoList(sdos: seq<SubDataObject>, reg: Registry, fuel: nat): (r: seq<Item>)
    requires ValidRegistry(reg) && SdosInRange(sdos, |reg.doTypes|)
    ensures |r| == |sdos|
    decreases fuel, 1
  {
    seq(|sdos|, j requires 0 <= j < |sdos| => SdoItem(sdos[j], reg, fuel))
  }

  /**
   * One SDO node of `getSDosList`. As the source's loop is written, its
   * children are its type's whole SDO list once per SDO of that type, then
   * the type's DAs.
   */
  function SdoItem(sdo: SubDataObject, reg: Registry, fuel: nat): (r: Item)
    requires ValidRegistry(reg) && (sdo.doType.Some? ==> sdo.doType.value < |reg.doTypes|)
    ensures r.Branch?
    ensures sdo.doType.None? ==> r.children == []
    decreases fuel, 0
  {
    var caption := "SDO: " + sdo.name + " (" + CdcText(sdo.doType, reg.doTypes) + ")";
    if sdo.doType.None? || fuel == 0 then Branch(caption, [])
    else
      var t := reg.doTypes[sdo.doType.value];
      Branch(caption, Repeat(SdoList(t.sdos, reg, fuel - 1), |t.sdos|) + DaElements(t.das, reg, fuel - 1))
  }

  /** One DO node of `getDosList`: its type's SDO list followed by the type's DAs. */
  function DoItem(d: DataObject, reg: Registry, fuel: nat): (r: Item)
    requires ValidRegistry(reg) && (d.typ.Some? ==> d.typ.value < |reg.doTypes|)
    ensures r.Branch?
    ensures d.typ.None? ==> r.children == []
  {
    var caption := "DO: " + d.name + " (" + CdcText(d.typ, reg.doTypes) + ")";
    if d.typ.None? then Branch(caption, [])
    else
      var t := reg.doTypes[d.typ.value];
      Branch(caption, SdoList(t.sdos, reg, fuel) + DaElements(t.das, reg, fuel))
  }

  /** `getDosList`. */
  function DosList(dos: seq<DataObject>, reg: Registry, fuel: nat): (r: seq<Item>)
    requires ValidRegistry(reg) && DosInRange(dos, |reg.doTypes|)
    ensures |r| == |dos|
    ensures forall j :: 0 <= j < |dos| ==> r[j] == DoItem(dos[j], reg, fuel)
  {
    seq(|dos|, j requires 0 <= j < |dos| => DoItem(dos[j], reg, fuel))
  }

  /** `getLNodeTypeList`: one node `lnClass (id)` per LNodeType, in order, holding its DOs. */
  function LNodeTypeList(lnTypes: seq<LnType>, reg: Registry, fuel: nat): (r: seq<Item>)
    requires ValidRegistry(reg) && LnTypesInRange(lnTypes, |reg.doTypes|)
    ensures |r| == |lnTypes|
    ensures forall i :: 0 <= i < |lnTypes| ==>
              && r[i].Branch?
              && r[i].caption == lnTypes[i].lnClass + " (" + lnTypes[i].id + ")"
              && r[i].children == DosList(lnTypes[i].dos, reg, fuel)
  {
    seq(|lnTypes|, i requires 0 <= i < |lnTypes| =>
      Branch(lnTypes[i].lnClass + " (" + lnTypes[i].id + ")", DosList(lnTypes[i].dos, reg, fuel)))
  }

  // ---------------------------------------------------------------------------
  // What the renderers produce

  /**
   * The catalogue renderer works type by type: rendering two lists of
   * LNodeTypes one after the other is rendering their concatenation.
   */
  lemma LNodeTypeListAppend(a: seq<LnType>, b: seq<LnType>, reg: Registry, fuel: nat)
    requires ValidRegistry(reg) && LnTypesInRange(a, |reg.doTypes|) && LnTypesInRange(b, |reg.doTypes|)
    ensures LnTypesInRange(a + b, |reg.doTypes|)
    ensures LNodeTypeList(a + b, reg, fuel) == LNodeTypeList(a, reg, fuel) + LNodeTypeList(b, reg, fuel)
  {
    assert LnTypesInRange(a + b, |reg.doTypes|) by {
      forall i | 0 <= i < |a + b| ensures DosInRange((a + b)[i].dos, |reg.doTypes|) {
        if i >= |a| {
          assert (a + b)[i] == b[i - |a|];
        }
      }
    }
  }

  /**
   * `createDaElement` and `getDaList`: an untyped attribute is a leaf whose
   * label always carries the brackets; a typed one is expandable, with the
   * brackets only for a non-empty fc, and holds either the enum value names
   * in order or the referenced DAType's attributes in order.
   */
  lemma DaRendering(da: DataAttribute, reg: Registry, fuel: nat)
    requires ValidRegistry(reg) && RefInRange(da.typ, |reg.enums|, |reg.daTypes|)
    ensures da.typ.NoType? ==> DaElement(da, reg, fuel) == Leaf(da.name + " " + da.bType + " [" + da.fc + "]")
    ensures !da.typ.NoType? ==>
              DaElement(da, reg, fuel).Branch? &&
              DaElement(da, reg, fuel).caption ==
                da.name + " " + da.bType + (if da.fc == "" then "" else " [" + da.fc + "]")
    ensures da.typ.EnumRef? ==>
              var values := reg.enums[da.typ.idx].values;
              var cs := DaElement(da, reg, fuel).children;
              |cs| == |values| && forall j :: 0 <= j < |values| ==> cs[j] == Leaf(values[j].name)
    ensures da.typ.DaRef? && fuel > 0 ==>
              var attrs := reg.daTypes[da.typ.idx].attributes;
              var cs := DaElement(da, reg, fuel).children;
              |cs| == |attrs| && forall j :: 0 <= j < |attrs| ==> cs[j] == DaElement(attrs[j], reg, fuel - 1)
  {
    if !da.typ.NoType? {
      assert DaElement(da, reg, fuel) == DaList(da, reg, fuel);
    }
  }

  /**
   * One DO of `getDosList`: "(undefined)" and no children without a type;
   * otherwise its type's SDO nodes in order, then its type's DAs in order.
   */
  lemma DoRendering(d: DataObject, reg: Registry, fuel: nat)
    requires ValidRegistry(reg) && (d.typ.Some? ==> d.typ.value < |reg.doTypes|)
    ensures d.typ.None? ==> DoItem(d, reg, fuel) == Branch("DO: " + d.name + " (undefined)", [])
    ensures d.typ.Some? ==>
              var t := reg.doTypes[d.typ.value];
              var cs := DoItem(d, reg, fuel).children;
              && DoItem(d, reg, fuel).caption == "DO: " + d.name + " (" + t.cdc + ")"
              && |cs| == |t.sdos| + |t.das|
              && (forall j :: 0 <= j < |t.sdos| ==> cs[j] == SdoItem(t.sdos[j], reg, fuel))
              && (forall j :: 0 <= j < |t.das| ==> cs[|t.sdos| + j] == DaElement(t.das[j], reg, fuel))
  {
  }

  /**
   * One SDO of `getSDosList`: without a type it has no children; with one,
   * its children are |sdos| * |sdos| SDO nodes followed by the type's DAs.
   */
  lemma SdoRendering(sdo: SubDataObject, reg: Registry, fuel: nat)
    requires ValidRegistry(reg) && (sdo.doType.Some? ==> sdo.doType.value < |reg.doTypes|)
    ensures sdo.doType.None? ==> SdoItem(sdo, reg, fuel) == Branch("SDO: " + sdo.name + " (undefined)", [])
    ensures sdo.doType.Some? ==>
              SdoItem(sdo, reg, fuel).caption == "SDO: " + sdo.name + " (" + reg.doTypes[sdo.doType.value].cdc + ")"
    ensures sdo.doType.Some? && fuel > 0 ==>
              var t := reg.doTypes[sdo.doType.value];
              var cs := SdoItem(sdo, reg, fuel).children;
              && |cs| == |t.sdos| * |t.sdos| + |t.das|
              && forall j :: 0 <= j < |t.das| ==> cs[|t.sdos| * |t.sdos| + j] == DaElement(t.das[j], reg, fuel - 1)
  {
  }

  /**
   * The repetition in `getSDosList`: child `q * n + j` of an SDO node, for
   * q, j < n = |sdos| of its type, is the node of that type's SDO `j`; so
   * each SDO of the type appears n times.
   */
  lemma SdoChildAt(sdo: SubDataObject, reg: Registry, fuel: nat, q: nat, j: nat)
    requires ValidRegistry(reg) && sdo.doType.Some? && sdo.doType.value < |reg.doTypes| && fuel > 0
    requires q < |reg.doTypes[sdo.doType.value].sdos| && j < |reg.doTypes[sdo.doType.value].sdos|
    ensures var t := reg.doTypes[sdo.doType.value];
            var cs := SdoItem(sdo, reg, fuel).children;
            q * |t.sdos| + j < |cs| && cs[q * |t.sdos| + j] == SdoItem(t.sdos[j], reg, fuel - 1)
  {
    var t := reg.doTypes[sdo.doType.value];
    RepeatAt(SdoList(t.sdos, reg, fuel - 1), |t.sdos|, q, j);
  }

  // ---------------------------------------------------------------------------
  // Fuel: enough of it on an acyclic template changes nothing

  /** A ranking that every BDA reference descends: the DAType graph has no cycle. */
  ghost predicate DaTypesRanked(reg: Registry, rank: seq<nat>) {
    && |rank| == |reg.daTypes|
    && forall i, j :: 0 <= i < |reg.daTypes| && 0 <= j < |reg.daTypes[i].attributes| ==>
         var a := reg.daTypes[i].attributes[j].typ;
         a.DaRef? ==> a.idx < |rank| && rank[a.idx] < rank[i]
  }

  /** A ranking that every SDO reference descends: the DOType graph has no cycle. */
  ghost predicate DoTypesRanked(reg: Registry, rank: seq<nat>) {
    && |rank| == |reg.doTypes|
    && forall i, j :: 0 <= i < |reg.doTypes| && 0 <= j < |reg.doTypes[i].sdos| ==>
         var s := reg.doTypes[i].sdos[j].doType;
         s.Some? ==> s.value < |rank| && rank[s.value] < rank[i]
  }

  /** An attribute whose DAType has rank below both fuels renders the same with either. */
  lemma {:induction false} DaFuelEnough(da: DataAttribute, reg: Registry, rank: seq<nat>, f1: nat, f2: nat)
    requires ValidRegistry(reg) && RefInRange(da.typ, |reg.enums|, |reg.daTypes|) && DaTypesRanked(reg, rank)
    requires da.typ.DaRef? ==> rank[da.typ.idx] < f1 && rank[da.typ.idx] < f2
    ensures DaElement(da, reg, f1) == DaElement(da, reg, f2)
    decreases f1
  {
    if da.typ.DaRef? {
      var attrs := reg.daTypes[da.typ.idx].attributes;
      forall j | 0 <= j < |attrs|
        ensures DaElement(attrs[j], reg, f1 - 1) == DaElement(attrs[j], reg, f2 - 1)
      {
        DaFuelEnough(attrs[j], reg, rank, f1 - 1, f2 - 1);
      }
      assert DaElements(attrs, reg, f1 - 1) == DaElements(attrs, reg, f2 - 1);
    }
  }

  /** The same for an SDO, whose DOType rank plus the DAType bound is below both fuels. */
  lemma {:induction false} SdoFuelEnough(sdo: SubDataObject, reg: Registry, daRank: seq<nat>, doRank: seq<nat>,
                                         daBound: nat, f1: nat, f2: nat)
    requires ValidRegistry(reg) && DaTypesRanked(reg, daRank) && DoTypesRanked(reg, doRank)
    requires forall k :: 0 <= k < |daRank| ==> daRank[k] < daBound
    requires sdo.doType.Some? ==> sdo.doType.value < |reg.doTypes|
    requires sdo.doType.Some? ==> doRank[sdo.doType.value] + daBound < f1 && doRank[sdo.doType.value] + daBound < f2
    ensures SdoItem(sdo, reg, f1) == SdoItem(sdo, reg, f2)
    decreases f1
  {
    if sdo.doType.Some? {
      var t := reg.doTypes[sdo.doType.value];
      forall j | 0 <= j < |t.sdos|
        ensures SdoItem(t.sdos[j], reg, f1 - 1) == SdoItem(t.sdos[j], reg, f2 - 1)
      {
        SdoFuelEnough(t.sdos[j], reg, daRank, doRank, daBound, f1 - 1, f2 - 1);
      }
      assert SdoList(t.sdos, reg, f1 - 1) == SdoList(t.sdos, reg, f2 - 1);
      forall j | 0 <= j < |t.das|
        ensures DaElement(t.das[j], reg, f1 - 1) == DaElement(t.das[j], reg, f2 - 1)
      {
        DaFuelEnough(t.das[j], reg, daRank, f1 - 1, f2 - 1);
      }
      assert DaElements(t.das, reg, f1 - 1) == DaElements(t.das, reg, f2 - 1);
    }
  }

  /**
   * On a template whose DAType and DOType graphs are acyclic, every fuel
   * above the two rank bounds renders the same type catalogue: the bound is
   * where the unguarded recursion of the source would have stopped by itself.
   */
  lemma CatalogueFuelEnough(lnTypes: seq<LnType>, reg: Registry, daRank: seq<nat>, doRank: seq<nat>,
                            daBound: nat, doBound: nat, f1: nat, f2: nat)
    requires ValidRegistry(reg) && LnTypesInRange(lnTypes, |reg.doTypes|)
    requires DaTypesRanked(reg, daRank) && DoTypesRanked(reg, doRank)
    requires forall k :: 0 <= k < |daRank| ==> daRank[k] < daBound
    requires forall k :: 0 <= k < |doRank| ==> doRank[k] < doBound
    requires doBound + daBound <= f1 && doBound + daBound <= f2
    ensures LNodeTypeList(lnTypes, reg, f1) == LNodeTypeList(lnTypes, reg, f2)
  {
    forall i, j | 0 <= i < |lnTypes| && 0 <= j < |lnTypes[i].dos|
      ensures DoItem(lnTypes[i].dos[j], reg, f1) == DoItem(lnTypes[i].dos[j], reg, f2)
    {
      var d := lnTypes[i].dos[j];
      if d.typ.Some? {
        var t := reg.doTypes[d.typ.value];
        forall m | 0 <= m < |t.sdos|
          ensures SdoItem(t.sdos[m], reg, f1) == SdoItem(t.sdos[m], reg, f2)
        {
          SdoFuelEnough(t.sdos[m], reg, daRank, doRank, daBound, f1, f2);
        }
        assert SdoList(t.sdos, reg, f1) == SdoList(t.sdos, reg, f2);
        forall m | 0 <= m < |t.das|
          ensures DaElement(t.das[m], reg, f1) == DaElement(t.das[m], reg, f2)
        {
          DaFuelEnough(t.das[m], reg, daRank, f1, f2);
        }
        assert DaElements(t.das, reg, f1) == DaElements(t.das, reg, f2);
      }
    }
    forall i | 0 <= i < |lnTypes|
      ensures DosList(lnTypes[i].dos, reg, f1) == DosList(lnTypes[i].dos, reg, f2)
    {
    }
  }

  // ---------------------------------------------------------------------------
  // Fuel: where rendering reaches a cycle, no amount of it is enough

  /** Nesting depth of a display tree. */
  function Height(t: Item): nat {
    match t
    case Leaf(_) => 1
    case Branch(_, cs) => 1 + MaxHeight(cs)
  }

  function MaxHeight(cs: seq<Item>): nat {
    if cs == [] then 0
    else
      var h := Height(cs[0]);
      var rest := MaxHeight(cs[1..]);
      if h < rest then rest else h
  }

  lemma {:induction false} MaxHeightBounds(cs: seq<Item>, j: nat)
    requires j < |cs|
    ensures Height(cs[j]) <= MaxHeight(cs)
  {
    if j > 0 {
      MaxHeightBounds(cs[1..], j - 1);
    }
  }

  /** A typed SDO node is taller than the node of any SDO of its type one level down. */
  lemma SdoHeightStep(sdo: SubDataObject, reg: Registry, fuel: nat, j: nat)
    requires ValidRegistry(reg) && sdo.doType.Some? && sdo.doType.value < |reg.doTypes| && fuel > 0
    requires j < |reg.doTypes[sdo.doType.value].sdos|
    ensures Height(SdoItem(sdo, reg, fuel)) > Height(SdoItem(reg.doTypes[sdo.doType.value].sdos[j], reg, fuel - 1))
  {
    var item := SdoItem(sdo, reg, fuel);
    SdoChildAt(sdo, reg, fuel, 0, j);
    MaxHeightBounds(item.children, j);
  }

  /** DOTypes each of which has an SDO whose type is again in the set: a cycle of sub-objects. */
  ghost predicate SdoCycle(reg: Registry, s: set<nat>) {
    forall k :: k in s ==>
      && k < |reg.doTypes|
      && exists j :: 0 <= j < |reg.doTypes[k].sdos| && reg.doTypes[k].sdos[j].doType.Some?
                     && reg.doTypes[k].sdos[j].doType.value in s
  }

  /**
   * For an SDO whose type lies on a cycle of DOTypes (one that refers to
   * itself, or A and B that refer to each other) the SDO tree is deeper than
   * any fuel: once rendering reaches such an SDO, the source's `getSDosList`
   * recurses until the JavaScript call stack overflows.
   */
  lemma {:induction false} SdoCycleUnbounded(sdo: SubDataObject, reg: Registry, s: set<nat>, fuel: nat)
    requires ValidRegistry(reg) && SdoCycle(reg, s)
    requires sdo.doType.Some? && sdo.doType.value in s
    ensures Height(SdoItem(sdo, reg, fuel)) > fuel
    decreases fuel
  {
    if fuel > 0 {
      var t := reg.doTypes[sdo.doType.value];
      var j :| 0 <= j < |t.sdos| && t.sdos[j].doType.Some? && t.sdos[j].doType.value in s;
      SdoCycleUnbounded(t.sdos[j], reg, s, fuel - 1);
      SdoHeightStep(sdo, reg, fuel, j);
    }
  }

  /** DATypes each of which has a BDA whose type is again in the set: a cycle of attributes. */
  ghost predicate DaCycle(reg: Registry, s: set<nat>) {
    forall k :: k in s ==>
      && k < |reg.daTypes|
      && exists j :: 0 <= j < |reg.daTypes[k].attributes| && reg.daTypes[k].attributes[j].typ.DaRef?
                     && reg.daTypes[k].attributes[j].typ.idx in s
  }

  /**
   * Likewise for an attribute whose DAType lies on a cycle of DATypes (a
   * DAType may resolve to itself): once rendering reaches it, `getDaList`
   * recurses until the call stack overflows.
   */
  lemma {:induction false} DaCycleUnbounded(da: DataAttribute, reg: Registry, s: set<nat>, fuel: nat)
    requires ValidRegistry(reg) && DaCycle(reg, s)
    requires da.typ.DaRef? && da.typ.idx in s
    ensures Height(DaElement(da, reg, fuel)) > fuel
    decreases fuel
  {
    if fuel > 0 {
      var attrs := reg.daTypes[da.typ.idx].attributes;
      var j :| 0 <= j < |attrs| && attrs[j].typ.DaRef? && attrs[j].typ.idx in s;
      DaCycleUnbounded(attrs[j], reg, s, fuel - 1);
      assert DaElement(da, reg, fuel) == DaList(da, reg, fuel)
          == Branch(TypedLabel(da), DaElements(attrs, reg, fuel - 1));
      MaxHeightBounds(DaElement(da, reg, fuel).children, j);
    }
  }
}
