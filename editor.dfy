/**
 * The pipeline of the read-only SCL editor: parse result in, the two trees
 * of the webview out (the per-IED instance view and the LNodeType catalogue).
 */
module SclEditor {
  import opened Wrappers
  import opened Xml
  import opened SclModel
  import opened TemplateBuilder
  import opened TreeView
  import opened InstanceView

  /** Everything the webview page is made from: the linked registries and both trees. */
  datatype View = View(registry: Registry, lnTypes: seq<LnType>, ieds: seq<Item>, catalogue: seq<Item>)

  /**
   * The pipeline of `getHtmlForWebview`: the builders run in order on the
   * first `DataTypeTemplates` element, then both trees are rendered. A
   * document with no `DataTypeTemplates` element makes the first builder
   * throw, modelled as None. Otherwise every registry entry is the one its
   * element yields, linked against the finished registries.
   */
  method RenderDocument(root: Element, fuel: nat) returns (view: Option<View>)
    ensures view.None? <==> DocumentElementsByTagName(root, "DataTypeTemplates") == []
    ensures view.Some? ==>
              var templates := DocumentElementsByTagName(root, "DataTypeTemplates")[0];
              var reg := view.value.registry;
              && ValidRegistry(reg)
              && LnTypesInRange(view.value.lnTypes, |reg.doTypes|)
              && |reg.enums| == |ElementsByTagName(templates, "EnumType")|
              && |reg.daTypes| == |ElementsByTagName(templates, "DAType")|
              && |reg.doTypes| == |ElementsByTagName(templates, "DOType")|
              && |view.value.lnTypes| == |ElementsByTagName(templates, "LNodeType")|
              && (forall i :: 0 <= i < |reg.enums| ==>
                    reg.enums[i] == EnumTypeOf(ElementsByTagName(templates, "EnumType")[i]))
              && (forall i :: 0 <= i < |reg.daTypes| ==>
                    reg.daTypes[i] == LinkedDaType(FlatDaType(ElementsByTagName(templates, "DAType")[i]),
                                                   EnumIds(reg.enums), DaTypeIds(reg.daTypes)))
              && (forall i :: 0 <= i < |reg.doTypes| ==>
                    reg.doTypes[i] == LinkedDoType(FlatDoType(ElementsByTagName(templates, "DOType")[i],
                                                              EnumIds(reg.enums), DaTypeIds(reg.daTypes)),
                                                   DoTypeIds(reg.doTypes)))
              && (forall i :: 0 <= i < |view.value.lnTypes| ==>
                    view.value.lnTypes[i] == LnTypeOf(ElementsByTagName(templates, "LNodeType")[i],
                                                      DoTypeIds(reg.doTypes)))
              && view.value.ieds == IedsList(DocumentElementsByTagName(root, "IED"), view.value.lnTypes, reg, fuel)
              && view.value.catalogue == LNodeTypeList(view.value.lnTypes, reg, fuel)
  {
    var iedElements := DocumentElementsByTagName(root, "IED");
    var templateElements := DocumentElementsByTagName(root, "DataTypeTemplates");
    if |templateElements| == 0 {
      return None;
    }
    var dataTemplate := templateElements[0];
    var enumTypes := GetEnumTypes(dataTemplate);
    var daTypes := GetDaTypes(dataTemplate, enumTypes);
    var doTypes := GetDoTypes(dataTemplate, daTypes, enumTypes);
    var lnTypes := GetLnTypes(dataTemplate, doTypes);
    var reg := Registry(enumTypes, daTypes, doTypes);
    view := Some(View(reg, lnTypes, IedsList(iedElements, lnTypes, reg, fuel), LNodeTypeList(lnTypes, reg, fuel)));
  }
}
