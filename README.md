# scl-viewer template resolution and tree rendering, in Dafny

scl-viewer is a VS Code extension that shows an IEC 61850 SCL document
(an XML substation configuration) as a read-only, collapsible tree. This
project models its core in `src/sclReadonlyEditor.ts`. The core has four
parts.

- **Template registries.** Four builders read the `DataTypeTemplates`
  section into registries of enumeration types, data-attribute types
  (DAType), data-object types (DOType) and logical-node types (LNodeType).
  They then link the references between these types by id, taking the
  first match in document order.
- **The type catalogue.** Every LNodeType is rendered with its DOs. Each DO
  is expanded through its DOType into SDOs and DAs, each DA through its
  DAType or enumeration, down to untyped leaves.
- **The IED view.** For each IED, and each LDevice under it, every LN
  element is bound by its `lnType` attribute to the matching LNodeTypes.
  Those are rendered as in the catalogue.
- **The pipeline** (`getHtmlForWebview`) chains the steps above.

## Files

| file | module | what it holds |
|---|---|---|
| `wrappers.dfy` | `Wrappers` | `Option`, the source's `T \| null` |
| `xml.dfy` | `Xml` | the parsed document as a tree of elements; `getAttribute` returns `""` for a missing attribute; `getElementsByTagName` is a pre-order walk over the descendants |
| `model.dfy` | `SclModel` | the records of the interfaces under `src/models`, with references held as registry indices; first-match lookup by id |
| `builders.dfy` | `TemplateBuilder` | `getEnumTypes`, `getDaTypes`, `getDoTypes` and `getLnTypes` as methods with loops, plus the in-place linking passes over arrays |
| `tree.dfy` | `TreeView` | the renderers as functions producing a tree of `Leaf`/`Branch` items, with lemmas on their shape, on fuel and on cycles |
| `instances.dfy` | `InstanceView` | `getIedsList` and `getLdevicesList`, which bind each LN to its LNodeTypes |
| `editor.dfy` | `SclEditor` | the pipeline from a parsed document to both trees |

Rendering produces a tree, not HTML text. A `Branch(caption, children)` is
an `<li>` with a caret `<span>` and a nested `<ul>`. A `Leaf(text)` is a
plain `<li>`. The source inserts every label into the page without escaping
it. The tree therefore matches the page only for names, ids and values that
contain no `<`, `>` or `&`.

A reference that the source holds as an object pointer is an index into a
registry: `AttrRef` for a DA's `type` (none, a DAType, or an enumeration)
and `Option<nat>` for a DO's or SDO's type. The source tells a DAType from
an EnumType by probing for `isEnumType`. Here that is the `AttrRef` tag.

The source's recursion through types has no bound, so the renderers take a
`fuel` argument. `CatalogueFuelEnough` shows that on an acyclic template
any fuel above the depth of the type graph gives the same tree.
A cycle in the type graph matters only where rendering reaches it: when a
rendered DO or SDO reaches a DOType cycle through SDO types, or a rendered
DA reaches a DAType cycle through BDA types. A cycle that no rendered DO
reaches is never walked. `SdoCycleUnbounded` and `DaCycleUnbounded` show
that for a node on such a reached cycle no fuel is enough. The unguarded
recursion of the source (lines 403 and 432) then exhausts the JavaScript
call stack and throws a `RangeError`, so `getHtmlForWebview` produces no
page, as with a missing `DataTypeTemplates`. The model instead shows a tree
cut off where the fuel runs out.

### Behaviour of the source that the model keeps

- **Missing `DataTypeTemplates`.** In a document without this section,
  `getElementsByTagName(...)[0]` is `undefined` (line 67). `getEnumTypes`
  then calls a method on it (line 169) and throws, so no page is produced.
  `RenderDocument` returns `None` in exactly this case.
- **LN binding.** An LN is bound with `filter` (line 149), not `find`. Every
  LNodeType whose id matches is rendered under the LN, in registry order.
  The guard `!lnTypeObj` (line 150) never fires because an array is always
  truthy. An LN without a match is still an expandable node, with no
  children.
- **Missing attributes.** The DOM returns `""` for a missing attribute.
  - For a DA in a DOType, the lookup key is `type || ''` (line 249). A
    missing `type` is therefore looked up as the id `""`, although the
    stored `typeId` is null (line 256).
  - A missing `lnType` (line 148) and a DO's missing `type` (line 303) are
    also compared with `""`.
  - A BDA without a `type` is never linked (lines 204, 211, 228).
  - `MissingTypeContrast` states the DA/BDA difference.
- **SDO repetition.** `getSDosList` renders a typed SDO's nested SDO list
  once per nested SDO (the `k` loop at lines 431-433). An SDO type with n
  SDOs therefore shows n·n SDO children.
- **LN0** elements are collected (line 138) but never rendered.

## Model

| member | source | states |
|---|---|---|
| Xml.GetAttribute | src/sclReadonlyEditor.ts:145-148 | an attribute that is present reads as its value, and a missing one reads as `""`, as the DOM implementation the editor uses returns it |
| Xml.CollectExact | src/sclReadonlyEditor.ts:169-172 | the tag search finds an element exactly when the element lies in the searched forest and carries the tag |
| Xml.ElementsByTagName | src/sclReadonlyEditor.ts:169-172 | the result holds exactly the descendants that carry the tag (every one is found, nothing else is returned), and is no longer than the number of descendants |
| Xml.DocumentElementsByTagName | src/sclReadonlyEditor.ts:66-67 | the document search is the root, when its tag matches, followed by the full descendant search, so every result carries the tag |
| Xml.CollectAppend | src/sclReadonlyEditor.ts:66-67 | the tag search over two consecutive forests is the search over the first followed by the search over the second (document order) |
| SclModel.FirstIndex | src/sclReadonlyEditor.ts:288 | `find` by id returns the first position whose id equals the key, and returns none exactly when no id equals the key |
| SclModel.ResolveRef | src/sclReadonlyEditor.ts:229-231 | bType `Enum` resolves only among enumerations and any other bType only among DATypes, each to the first match; the result is "no type" exactly when that registry lacks the id |
| TemplateBuilder.ReadEnumType | src/sclReadonlyEditor.ts:172-187 | one pass of the outer loop yields the enumeration record of its element: its id, the enumeration flag, and one value per `EnumVal` in order |
| TemplateBuilder.GetEnumTypes | src/sclReadonlyEditor.ts:168-193 | one enumeration per `EnumType` element in document order, each the record its element yields: its `id`, the enumeration flag, and one value per `EnumVal` descendant holding that element's text and `desc` |
| TemplateBuilder.BdaOf | src/sclReadonlyEditor.ts:204-213 | a BDA record carries the element's name, bType, valKind and fc, has an empty `val` and no link, and has a type id (the `type` attribute) exactly when `type` is non-empty |
| TemplateBuilder.ReadBdas | src/sclReadonlyEditor.ts:200-215 | one unlinked BDA record per `BDA` element of a DAType, in order |
| TemplateBuilder.ReadDaType | src/sclReadonlyEditor.ts:200-221 | one pass of the first loop yields its element's DAType with its id, fc and unlinked BDAs |
| TemplateBuilder.FlatDaTypes | src/sclReadonlyEditor.ts:199-224 | one DAType per `DAType` element with its id, fc and unlinked BDAs, before any linking |
| TemplateBuilder.LinkBda | src/sclReadonlyEditor.ts:227-233 | linking changes only a BDA's `type`; a BDA without a type id is left as it was; otherwise its type is the first enumeration or DAType with that id |
| TemplateBuilder.LinkDaTypes | src/sclReadonlyEditor.ts:226-234 | the in-place pass over the registry keeps every DAType's id and fc and leaves each one linked against the registry's ids |
| TemplateBuilder.GetDaTypes | src/sclReadonlyEditor.ts:195-237 | each DAType is its element's flat record linked against the finished registry: id and fc, one attribute per BDA element in order, and every resulting reference in range |
| TemplateBuilder.DaOf | src/sclReadonlyEditor.ts:248-260 | a DOType's DA record carries the element's name, bType, valKind, val and fc; its type id is the `type` attribute when that is non-empty; its type is `ResolveRef` of the element's own bType and `type` (the empty id included), and lies in range |
| TemplateBuilder.MissingTypeContrast | src/sclReadonlyEditor.ts:249-259 | a DA without `type` binds to a DAType whose id is `""`, while a BDA without `type` stays unlinked |
| TemplateBuilder.ReadDas | src/sclReadonlyEditor.ts:244-263 | one DA record per `DA` descendant of a DOType, in order, each resolved as `DaOf` states |
| TemplateBuilder.ReadSdos | src/sclReadonlyEditor.ts:265-274 | one unlinked SDO record per `SDO` descendant, carrying its name and type id |
| TemplateBuilder.ReadDoType | src/sclReadonlyEditor.ts:244-281 | one pass of the first loop yields its element's DOType with its id, cdc, resolved DAs and unlinked SDOs |
| TemplateBuilder.FlatDoTypes | src/sclReadonlyEditor.ts:243-284 | one DOType per element with its id, cdc, resolved DAs and unlinked SDOs |
| TemplateBuilder.LinkedDoType | src/sclReadonlyEditor.ts:287-289 | linking a DOType keeps its id, cdc and DAs and every SDO's name and type id, and sets each SDO's type to the first DOType with that id |
| TemplateBuilder.LinkSdos | src/sclReadonlyEditor.ts:286-290 | the in-place pass over the DOType registry keeps every id and links every SDO against the registry's ids |
| TemplateBuilder.GetDoTypes | src/sclReadonlyEditor.ts:239-293 | each DOType is its element's flat record with SDOs linked against the finished registry: id and cdc, its DAs as `DaOf`, and its SDOs with name, type id and the first DOType of that id; every reference is in range |
| TemplateBuilder.ReadLnType | src/sclReadonlyEditor.ts:300-320 | one pass of the outer loop yields its element's LNodeType: id, prefix, lnClass, inst and one DO per `DO` descendant |
| TemplateBuilder.GetLnTypes | src/sclReadonlyEditor.ts:295-326 | each LNodeType is the record its element yields: id, prefix, lnClass and inst, and one DO per `DO` descendant (none is dropped) with its name and the first DOType whose id equals its `type`; all in range |
| TreeView.EnumList | src/sclReadonlyEditor.ts:416-422 | one leaf per enumeration value, holding the value's name, in order |
| TreeView.DaElement | src/sclReadonlyEditor.ts:369-379 | an attribute renders as a leaf exactly when it has no resolved type |
| TreeView.DaList | src/sclReadonlyEditor.ts:381-414 | a typed attribute always renders as an expandable node |
| TreeView.DaRendering | src/sclReadonlyEditor.ts:369-422 | untyped attribute: leaf `name bType [fc]` with brackets always; typed: caption with brackets only for a non-empty fc; enumeration: one leaf per value name, in order; DAType: one child per attribute of that type, in order |
| TreeView.Repeat | src/sclReadonlyEditor.ts:431-433 | n repetitions of a list have n times its length |
| TreeView.RepeatAt | src/sclReadonlyEditor.ts:431-433 | position q·len + j of the repetition holds element j |
| TreeView.SdoList | src/sclReadonlyEditor.ts:424-443 | `getSDosList` gives one node per SDO |
| TreeView.SdoItem | src/sclReadonlyEditor.ts:427-440 | every SDO is an expandable node, and one without a type has no children |
| TreeView.SdoRendering | src/sclReadonlyEditor.ts:424-443 | an untyped SDO is `SDO: name (undefined)` with no children; a typed one is `SDO: name (cdc)` and has n·n SDO children for n SDOs in its type, followed by its type's DA nodes in order |
| TreeView.SdoChildAt | src/sclReadonlyEditor.ts:431-433 | child q·n + j of a typed SDO node is the node of its type's SDO j, for every q < n, so each nested SDO appears n times |
| TreeView.DoItem | src/sclReadonlyEditor.ts:347-364 | every DO is an expandable node, and one without a type has no children |
| TreeView.DosList | src/sclReadonlyEditor.ts:344-367 | one DO node per data object, in order |
| TreeView.DoRendering | src/sclReadonlyEditor.ts:344-367 | an untyped DO is `DO: name (undefined)` with no children; a typed one shows its cdc and has its type's SDO nodes, then its type's DA nodes, in order |
| TreeView.LNodeTypeList | src/sclReadonlyEditor.ts:328-342 | one node `lnClass (id)` per LNodeType, in order, holding the rendering of that type's DOs |
| TreeView.LNodeTypeListAppend | src/sclReadonlyEditor.ts:328-342 | rendering two lists of LNodeTypes in turn is rendering their concatenation, so several LNodeTypes bound to one LN appear one after the other |
| TreeView.DaFuelEnough | src/sclReadonlyEditor.ts:401-404 | with DATypes ranked acyclically, an attribute renders the same under any two fuels above its rank |
| TreeView.SdoFuelEnough | src/sclReadonlyEditor.ts:424-443 | with both type graphs acyclic, an SDO renders the same under any two fuels above its rank plus the DAType bound |
| TreeView.CatalogueFuelEnough | src/sclReadonlyEditor.ts:328-342 | on an acyclic template, every fuel at or above the sum of the two rank bounds renders the same LNodeType catalogue |
| TreeView.SdoCycleUnbounded | src/sclReadonlyEditor.ts:424-443 | on a cycle of DOTypes through SDOs, the rendered SDO tree is deeper than any fuel, so once rendering reaches such an SDO the source's recursion ends only when the call stack overflows |
| TreeView.DaCycleUnbounded | src/sclReadonlyEditor.ts:381-414 | on a cycle of DATypes through BDAs, the rendered attribute tree is deeper than any fuel |
| InstanceView.MatchingLnTypes | src/sclReadonlyEditor.ts:149 | the LNodeTypes bound to an LN are exactly those whose id equals its `lnType`, at most as many as there are LNodeTypes |
| InstanceView.MatchingAppend | src/sclReadonlyEditor.ts:149 | the filter keeps the registry's order: filtering two consecutive parts is the first part's matches followed by the second's |
| InstanceView.LnItem | src/sclReadonlyEditor.ts:145-158 | an LN is an expandable node captioned `LN: prefix lnClass inst`, with one child per LNodeType whose id is its `lnType` |
| InstanceView.LDeviceItem | src/sclReadonlyEditor.ts:137-162 | an LDevice is an expandable node captioned with its `inst`, with one child per `LN` descendant |
| InstanceView.LDevicesList | src/sclReadonlyEditor.ts:132-166 | one node per `LDevice` descendant of the IED, in document order |
| InstanceView.LDeviceBinding | src/sclReadonlyEditor.ts:132-166 | an LDevice node has one child per `LN` descendant, in order, captioned `LN: prefix lnClass inst`; each child's children are the catalogue rendering of exactly the LNodeTypes whose id is its `lnType`, in order, and are empty when nothing matches |
| InstanceView.IedsList | src/sclReadonlyEditor.ts:112-129 | one expandable node `IED:  (name)` per IED, in order, holding that IED's logical devices |
| InstanceView.IedRendering | src/sclReadonlyEditor.ts:112-129 | one node per IED in order, captioned `IED:  (name)`, with one child per LDevice descendant, captioned by its `inst` |
| SclEditor.RenderDocument | src/sclReadonlyEditor.ts:62-73 | no result exactly when the document has no `DataTypeTemplates`; otherwise each registry entry is the record its element yields (linked against the finished registries), all references are in range, and the IED tree and catalogue are rendered from those registries |

## Left out

- The VS Code provider glue (lines 12-60 and 445 onward), `src/extension.ts`,
  the DOM parser and the page template with its stylesheet and script URIs
  (lines 75-110). These are host I/O. The model starts from a parsed
  element tree.
- HTML text. Items are a tree, not a string. The `<span>` markup, the
  `'\n\r'` separator between IEDs, and the missing closing `</li>` of each
  IED entry (line 120) are not modelled.
- Unescaped labels. Every label is inserted into the webview page as raw
  HTML: lines 120, 137, 154, 331, 348, 375, 389, 406, 419 and 428. The page
  runs with scripts enabled (line 30). A name, id, cdc, bType, fc or
  enumeration value containing `<`, `>` or `&` can therefore add items,
  change the markup or run script. The model's tree matches the page only
  for values without those characters.
- `src/models/DOType.ts` and `src/models/Node.ts` declare interfaces that
  the core does not use.
- The source has no recursion bound, so the renderers take a `fuel`
  argument. A DA typed by a DAType, or a typed SDO, reached with no fuel
  left renders with no children. A DA typed by an enumeration needs no fuel
  and always shows its values.
  - On acyclic templates the fuel changes nothing (`CatalogueFuelEnough`).
  - Suppose a rendered DO or SDO reaches a DOType cycle through SDO types,
    or a rendered DA reaches a DAType cycle through BDA types. Then the
    source overflows the call stack and throws, and no page appears
    (`SdoCycleUnbounded`, `DaCycleUnbounded`). The model instead shows a
    cut-off tree.
  - A cycle that no rendered node reaches is never walked, and the source
    renders the page normally.
- Object identity. The source shares one record between every place that
  refers to it, and links BDAs by mutating the records. The model refers by
  index and rewrites registry entries in an array. Both registries are
  complete before any renderer runs, so a reader sees the same values in
  either form.
- Guards that cannot fire are not separate branches:
  - `!lnTypeObj` at line 150;
  - `if (doElement)` at line 309;
  - `!da` at line 357;
  - `!daType` at line 383, because both callers (lines 372 and 403) pass
    only typed attributes;
  - `'values' in daType` at line 393.
- Error paths other than the missing `DataTypeTemplates` and the stack
  overflow on cycles, such as a parse error in the document text. These
  belong to the parser, which is not modelled.
