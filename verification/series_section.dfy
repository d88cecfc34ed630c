/** What the Series section of the entity editor derives before it renders
    (src/client/entity-editor/series-section/series-section.tsx): the stub
    of the entity being edited, the series items with the not-yet-created
    entity renamed to its draft name and sorted by the ordering type, the
    option lists of the two selectors, whether the Series Type selector is
    disabled, and the actions its handlers dispatch. */
module SeriesSection {
  import opened Options
  import opened SeriesSort

  /** An entity as a relationship endpoint. `bbid` is `None` while the
      entity is not yet created; `defaultAliasName` is the value at the path
      `defaultAlias.name`, `None` when absent. */
  datatype Entity = Entity(
    bbid: Option<string>,
    defaultAliasName: Option<string>,
    disambiguation: Option<string>,
    entityType: string)

  /** A relationship attribute, such as an item's number or position. */
  datatype Attribute = Attribute(name: string, value: string)

  /** A series item: a relationship between the series and another entity. */
  datatype Relationship = Relationship(
    rowId: string,
    relationshipTypeId: int,
    sourceEntity: Entity,
    targetEntity: Entity,
    attributes: seq<Attribute>)

  // ---------------------------------------------------------------------------
  // The stub of the entity being edited

  function UpperChar(c: char): (u: char)
  {
    if 'a' <= c <= 'z' then (c as int - 32) as char else c
  }

  /** lodash's `upperFirst`, for ASCII letters. */
  function UpperFirst(s: string): (r: string)
    ensures |r| == |s|
    ensures s != [] ==> r[0] == UpperChar(s[0]) && r[1..] == s[1..]
    ensures s != [] ==> !('a' <= r[0] <= 'z')
  {
    if s == [] then s else [UpperChar(s[0])] + s[1..]
  }

  /** Upper-casing the first letter a second time changes nothing. */
  lemma UpperFirstIdempotent(s: string)
    ensures UpperFirst(UpperFirst(s)) == UpperFirst(s)
  {
  }

  /** `baseEntity`: the entity being edited as a relationship endpoint. It
      carries the entity's identifier (absent while it is being created), the
      draft name as its default alias, the disambiguation comment, and the
      entity type with its first letter upper-cased. */
  function BaseEntity(entityBbid: Option<string>, entityName: string, entityType: string,
                      disambiguationComment: Option<string>): (e: Entity)
    ensures e.bbid == entityBbid && e.defaultAliasName == Some(entityName)
    ensures e.disambiguation == disambiguationComment
    ensures |e.entityType| == |entityType| && (entityType != [] ==> e.entityType[1..] == entityType[1..])
    ensures entityType != [] ==> e.entityType[0] == UpperChar(entityType[0])
  {
    Entity(entityBbid, Some(entityName), disambiguationComment, UpperFirst(entityType))
  }

  // ---------------------------------------------------------------------------
  // Renaming the entity in creation

  /** The endpoint that is the entity in creation: the first of source and
      target whose `bbid` is absent, compared with the absent `bbid` of the
      base entity. */
  function NewEndpoint(rel: Relationship): (r: Option<Entity>)
    ensures r.Some? <==> rel.sourceEntity.bbid.None? || rel.targetEntity.bbid.None?
    ensures r.Some? ==> r.value.bbid.None?
    ensures rel.sourceEntity.bbid.None? ==> r == Some(rel.sourceEntity)
    ensures rel.sourceEntity.bbid.Some? && rel.targetEntity.bbid.None? ==> r == Some(rel.targetEntity)
  {
    if rel.sourceEntity.bbid.None? then Some(rel.sourceEntity)
    else if rel.targetEntity.bbid.None? then Some(rel.targetEntity)
    else None
  }

  /** One item after the rename step: the alias name of its endpoint that is
      the entity in creation (the source before the target) becomes the draft
      name; nothing else changes. */
  function RenameNewEndpoint(rel: Relationship, entityName: string): (r: Relationship)
    ensures NewEndpoint(rel).None? ==> r == rel
    ensures rel.sourceEntity.bbid.None? ==>
      && r.sourceEntity == rel.sourceEntity.(defaultAliasName := Some(entityName))
      && r.targetEntity == rel.targetEntity
    ensures rel.sourceEntity.bbid.Some? && rel.targetEntity.bbid.None? ==>
      && r.targetEntity == rel.targetEntity.(defaultAliasName := Some(entityName))
      && r.sourceEntity == rel.sourceEntity
    ensures r.rowId == rel.rowId && r.relationshipTypeId == rel.relationshipTypeId
    ensures r.attributes == rel.attributes
    ensures NewEndpoint(r).Some? ==> NewEndpoint(r).value.defaultAliasName == Some(entityName)
  {
    if rel.sourceEntity.bbid.None? then
      rel.(sourceEntity := rel.sourceEntity.(defaultAliasName := Some(entityName)))
    else if rel.targetEntity.bbid.None? then
      rel.(targetEntity := rel.targetEntity.(defaultAliasName := Some(entityName)))
    else rel
  }

  /** The rename step over all items: applied only when the entity being
      edited has no `bbid` yet; otherwise every item passes through. */
  function RenameItems(items: seq<Relationship>, entityBbid: Option<string>, entityName: string)
    : (r: seq<Relationship>)
    ensures |r| == |items|
    ensures entityBbid.Some? ==> r == items
    ensures forall i :: 0 <= i < |items| && NewEndpoint(items[i]).None? ==> r[i] == items[i]
    ensures entityBbid.None? ==> forall i :: 0 <= i < |items| ==> r[i] == RenameNewEndpoint(items[i], entityName)
  {
    if entityBbid.Some? then items
    else seq(|items|, i requires 0 <= i < |items| => RenameNewEndpoint(items[i], entityName))
  }

  /** Renaming an item twice is renaming it once. */
  lemma RenameNewEndpointIdempotent(rel: Relationship, entityName: string)
    ensures RenameNewEndpoint(RenameNewEndpoint(rel, entityName), entityName) == RenameNewEndpoint(rel, entityName)
  {
  }

  /** The rename step is idempotent: re-rendering with the same draft name
      leaves the renamed items as they are. */
  lemma RenameItemsIdempotent(items: seq<Relationship>, entityBbid: Option<string>, entityName: string)
    ensures RenameItems(RenameItems(items, entityBbid, entityName), entityBbid, entityName)
      == RenameItems(items, entityBbid, entityName)
  {
  }

  /** The `_.forEach` of the rename step, over the copy of the store's items:
      each item whose endpoint is the entity in creation has that endpoint's
      alias name set to the draft name when it differs. */
  method RenameInPlace(a: array<Relationship>, entityName: string)
    modifies a
    ensures forall i :: 0 <= i < a.Length ==> a[i] == RenameNewEndpoint(old(a[i]), entityName)
  {
    var i := 0;
    while i < a.Length
      invariant 0 <= i <= a.Length
      invariant forall k :: 0 <= k < i ==> a[k] == RenameNewEndpoint(old(a[k]), entityName)
      invariant forall k :: i <= k < a.Length ==> a[k] == old(a[k])
    {
      var rel := a[i];
      var newEntity := NewEndpoint(rel);
      var newRelationshipName := if newEntity.Some? then newEntity.value.defaultAliasName else None;
      if newRelationshipName != Some(entityName) && newEntity.Some? {
        if rel.sourceEntity.bbid.None? {
          a[i] := rel.(sourceEntity := rel.sourceEntity.(defaultAliasName := Some(entityName)));
        } else {
          a[i] := rel.(targetEntity := rel.targetEntity.(defaultAliasName := Some(entityName)));
        }
      }
      i := i + 1;
    }
  }

  // ---------------------------------------------------------------------------
  // Sorting

  /** The attribute `sortRelationshipOrdinal` compares items by. */
  datatype OrdinalKey = ByPosition | ByNumber

  /** Ordering type 2 (Manual) sorts by position; any other value, including
      1 (Automatic), sorts by number. */
  function SortKeyFor(orderTypeValue: int): (k: OrdinalKey)
    ensures k == ByPosition <==> orderTypeValue == 2
    ensures k == ByNumber <==> orderTypeValue != 2
  {
    if orderTypeValue == 2 then ByPosition else ByNumber
  }

  /** `attachAttribToRelForDisplay` applied to every item. */
  function Attached(attach: Relationship -> Relationship, items: seq<Relationship>): (r: seq<Relationship>)
    ensures |r| == |items|
    ensures forall i :: 0 <= i < |items| ==> r[i] == attach(items[i])
  {
    seq(|items|, i requires 0 <= i < |items| => attach(items[i]))
  }

  /** The items that are shown, before sorting: the store's items, renamed
      when the entity is in creation, with their display attributes. */
  function DisplayMultiset(seriesItems: seq<Relationship>, entityBbid: Option<string>, entityName: string,
                           attach: Relationship -> Relationship): (r: multiset<Relationship>)
  {
    multiset(Attached(attach, RenameItems(seriesItems, entityBbid, entityName)))
  }

  /** The derivation of `seriesItemsArray`: a copy of the store's items (the
      store's list is a value and stays as it was), the rename step when the
      entity has no `bbid`, the display attributes, then the in-place sort by
      the comparator the ordering type selects. */
  method DisplayedItems(seriesItems: seq<Relationship>, entityBbid: Option<string>, entityName: string,
                        attach: Relationship -> Relationship, orderTypeValue: int,
                        ordinal: OrdinalKey -> (Relationship, Relationship) -> bool)
    returns (items: seq<Relationship>)
    requires TotalPreorder(ordinal(SortKeyFor(orderTypeValue)))
    ensures |items| == |seriesItems|
    ensures multiset(items) == DisplayMultiset(seriesItems, entityBbid, entityName, attach)
    ensures SortedBy(items, ordinal(SortKeyFor(orderTypeValue)))
  {
    var a := new Relationship[|seriesItems|](i requires 0 <= i < |seriesItems| => seriesItems[i]);
    if entityBbid.None? {
      RenameInPlace(a, entityName);
    }
    assert a[..] == RenameItems(seriesItems, entityBbid, entityName);
    forall i | 0 <= i < a.Length {
      a[i] := attach(a[i]);
    }
    assert a[..] == Attached(attach, RenameItems(seriesItems, entityBbid, entityName));
    SortInPlace(a, ordinal(SortKeyFor(orderTypeValue)));
    items := a[..];
    assert |multiset(items)| == |items|;
  }

  // ---------------------------------------------------------------------------
  // The two selectors

  /** An ordering type as the section receives it (`labelText` is its
      `label`, a word Dafny reserves). */
  datatype SeriesOrderingType = SeriesOrderingType(labelText: string, id: int)

  /** An option of a selector. */
  datatype SelectOption<V> = SelectOption(labelText: string, value: V)

  /** The options of the Ordering Type selector: one per ordering type, in
      the same order, its `id` becoming the option's value. */
  function OrderingTypeOptions(types: seq<SeriesOrderingType>): (r: seq<SelectOption<int>>)
    ensures |r| == |types|
    ensures forall i :: 0 <= i < |types| ==> r[i].labelText == types[i].labelText && r[i].value == types[i].id
  {
    if types == [] then []
    else [SelectOption(types[0].labelText, types[0].id)] + OrderingTypeOptions(types[1..])
  }

  /** The ordering type a selected option stands for. */
  function OrderingTypesOf(options: seq<SelectOption<int>>): (r: seq<SeriesOrderingType>)
  {
    if options == [] then []
    else [SeriesOrderingType(options[0].labelText, options[0].value)] + OrderingTypesOf(options[1..])
  }

  /** The option list loses nothing: the ordering types can be read back from
      it. */
  lemma {:induction false} OrderingTypeOptionsRoundTrip(types: seq<SeriesOrderingType>)
    ensures OrderingTypesOf(OrderingTypeOptions(types)) == types
  {
    if types != [] {
      OrderingTypeOptionsRoundTrip(types[1..]);
      assert OrderingTypeOptions(types)[1..] == OrderingTypeOptions(types[1..]);
    }
  }

  /** The entity types a series can hold, in the order they are offered. */
  const SeriesTypes: seq<string> := ["Author", "Work", "Edition", "EditionGroup", "Publisher"]

  /** The options of the Series Type selector: each entity type, labelled
      by itself. */
  function SeriesTypeOptions(): (r: seq<SelectOption<string>>)
    ensures |r| == 5
    ensures forall i :: 0 <= i < |r| ==> r[i].labelText == r[i].value == SeriesTypes[i]
  {
    seq(|SeriesTypes|, i requires 0 <= i < |SeriesTypes| => SelectOption(SeriesTypes[i], SeriesTypes[i]))
  }

  /** No entity type is offered twice. */
  lemma SeriesTypeOptionsDistinct()
    ensures forall i, j :: 0 <= i < j < |SeriesTypeOptions()| ==>
      SeriesTypeOptions()[i].value != SeriesTypeOptions()[j].value
  {
  }

  /** The Series Type selector is disabled while any item is shown. */
  function SeriesTypeDisabled(items: seq<Relationship>): (disabled: bool)
    ensures disabled <==> items != []
  {
    |items| != 0
  }

  // ---------------------------------------------------------------------------
  // The whole section

  /** Everything the section hands to its children. */
  datatype SectionView = SectionView(
    baseEntity: Entity,
    items: seq<Relationship>,
    orderingOptions: seq<SelectOption<int>>,
    seriesTypeOptions: seq<SelectOption<string>>,
    seriesTypeDisabled: bool,
    orderTypeValue: int,
    seriesTypeValue: string)

  /** The work `SeriesSection` does before it renders. The Series Type
      selector is disabled exactly when the store holds an item, since the
      shown items are as many as the stored ones. */
  method RenderSection(entityBbid: Option<string>, disambiguationComment: Option<string>, entityName: string,
                       entityType: string, seriesItems: seq<Relationship>,
                       seriesOrderingTypes: seq<SeriesOrderingType>, orderTypeValue: int, seriesTypeValue: string,
                       attach: Relationship -> Relationship,
                       ordinal: OrdinalKey -> (Relationship, Relationship) -> bool)
    returns (v: SectionView)
    requires TotalPreorder(ordinal(SortKeyFor(orderTypeValue)))
    ensures v.baseEntity == BaseEntity(entityBbid, entityName, entityType, disambiguationComment)
    ensures multiset(v.items) == DisplayMultiset(seriesItems, entityBbid, entityName, attach)
    ensures SortedBy(v.items, ordinal(SortKeyFor(orderTypeValue)))
    ensures v.orderingOptions == OrderingTypeOptions(seriesOrderingTypes)
    ensures v.seriesTypeOptions == SeriesTypeOptions()
    ensures v.seriesTypeDisabled <==> seriesItems != []
    ensures v.orderTypeValue == orderTypeValue && v.seriesTypeValue == seriesTypeValue
  {
    var baseEntity := BaseEntity(entityBbid, entityName, entityType, disambiguationComment);
    var items := DisplayedItems(seriesItems, baseEntity.bbid, entityName, attach, orderTypeValue, ordinal);
    v := SectionView(baseEntity, items, OrderingTypeOptions(seriesOrderingTypes), SeriesTypeOptions(),
                     SeriesTypeDisabled(items), orderTypeValue, seriesTypeValue);
  }

  // ---------------------------------------------------------------------------
  // Dispatched actions

  /** The actions the section's handlers dispatch; `None` stands for `null`. */
  datatype Action =
    | UpdateOrderType(orderType: Option<int>)
    | UpdateSeriesType(seriesType: Option<string>)
    | SortSeriesItems(oldIndex: Option<int>, newIndex: Option<int>)
    | EditSeriesItem(data: Relationship, rowId: string)
    | RemoveSeriesItem(rowId: string)
    | AddSeriesItem(data: Relationship)

  /** What the user does in the section. A selector change carries the value
      of the chosen option, `None` when the selection is `null`. */
  datatype SectionEvent =
    | OrderTypeChange(selected: Option<int>)
    | SeriesTypeChange(selectedType: Option<string>)
    | SortItems(from: int, to: int)
    | EditItem(item: Relationship, row: string)
    | RemoveItem(row: string)
    | AddItem(newItem: Relationship)

  /** `onOrderTypeChange`: record the new ordering type, and when it is 1
      (Automatic) re-sort the items without a moved position. */
  function OnOrderTypeChange(selected: Option<int>): (r: seq<Action>)
    ensures r != [] && r[0] == UpdateOrderType(selected)
    ensures (exists i :: 0 <= i < |r| && r[i].SortSeriesItems?) <==> selected == Some(1)
    ensures selected == Some(1) ==> r == [UpdateOrderType(selected), SortSeriesItems(None, None)]
  {
    if selected == Some(1) then
      var actions := [UpdateOrderType(selected), SortSeriesItems(None, None)];
      assert actions[1].SortSeriesItems?;
      actions
    else [UpdateOrderType(selected)]
  }

  /** The actions each handler of `mapDispatchToProps` dispatches, in order. */
  function Dispatch(ev: SectionEvent): (r: seq<Action>)
    ensures ev.OrderTypeChange? ==> r == OnOrderTypeChange(ev.selected)
    ensures ev.SortItems? ==> r == [SortSeriesItems(Some(ev.from), Some(ev.to))]
    ensures ev.SeriesTypeChange? ==> r == [UpdateSeriesType(ev.selectedType)]
    ensures ev.EditItem? ==> r == [EditSeriesItem(ev.item, ev.row)]
    ensures ev.RemoveItem? ==> r == [RemoveSeriesItem(ev.row)]
    ensures ev.AddItem? ==> r == [AddSeriesItem(ev.newItem)]
  {
    match ev
    case OrderTypeChange(selected) => OnOrderTypeChange(selected)
    case SeriesTypeChange(t) => [UpdateSeriesType(t)]
    case SortItems(from, to) => [SortSeriesItems(Some(from), Some(to))]
    case EditItem(item, row) => [EditSeriesItem(item, row)]
    case RemoveItem(row) => [RemoveSeriesItem(row)]
    case AddItem(item) => [AddSeriesItem(item)]
  }

  /** Every handler dispatches one action, except choosing Automatic
      ordering, which dispatches two, the re-sort coming last. */
  lemma OneActionPerEventExceptAutomatic(ev: SectionEvent)
    ensures |Dispatch(ev)| == if ev == OrderTypeChange(Some(1)) then 2 else 1
    ensures ev == OrderTypeChange(Some(1)) ==> Dispatch(ev)[1] == SortSeriesItems(None, None)
  {
  }
}
