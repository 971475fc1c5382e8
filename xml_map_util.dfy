/** `XmlMapUtil`: the element structure of an example serialised as XML. The
    element text Jackson writes (indentation, escaping, number formats) is not part
    of this model; the element names and their nesting are. */
module XmlMapUtil {
  import opened Common

  /** An example value: null, a scalar, a map of fields, or a list. */
  datatype Value =
    | NullValue
    | Scalar(text: string)
    | MapValue(fields: seq<(string, Value)>)
    | ListValue(items: seq<Value>)

  datatype Element = Element(name: string, text: Option<string>, children: seq<Element>)

  /** The document; the empty string for a null example. */
  datatype XmlDocument = EmptyDocument | Document(root: Element)

  const DEFAULT_ROOT: string := "root"
  const DEFAULT_LIST_ROOT: string := "items"
  const DEFAULT_LIST_ITEM: string := "item"

  /** A non-null value as an element of the given name: a scalar's text, a map's
      fields in order, or a list's items under the same name. */
  function ElementOf(name: string, value: Value): (e: Element)
    requires !value.NullValue?
    ensures e.name == name
    decreases value, 1, 0
  {
    match value
    case Scalar(text) => Element(name, Some(text), [])
    case MapValue(_) => Element(name, None, FieldsFrom(value, 0))
    case ListValue(_) => Element(name, None, ItemsFrom(name, value, 0))
  }

  /** The elements of one field: none for null (`NON_NULL` inclusion), one per item
      for a list, else one. */
  function FieldChildren(name: string, value: Value): (r: seq<Element>)
    ensures value.NullValue? ==> r == []
    ensures forall e :: e in r ==> e.name == name
    decreases value, 2, 0
  {
    if value.NullValue? then []
    else if value.ListValue? then ItemsFrom(name, value, 0)
    else [ElementOf(name, value)]
  }

  /** The elements of a map's fields from the k-th on. */
  function FieldsFrom(mapValue: Value, k: nat): seq<Element>
    requires mapValue.MapValue?
    decreases mapValue, 0, |mapValue.fields| - k
  {
    if k >= |mapValue.fields| then []
    else FieldChildren(mapValue.fields[k].0, mapValue.fields[k].1) + FieldsFrom(mapValue, k + 1)
  }

  /** A list's items from the k-th on, each as an element of the given name. The
      `NON_NULL` inclusion drops null properties, not list items: a null item is
      written as an empty element. */
  function ItemsFrom(name: string, list: Value, k: nat): (r: seq<Element>)
    requires list.ListValue?
    ensures |r| == |list.items| - k || (k > |list.items| && r == [])
    ensures forall e :: e in r ==> e.name == name
    decreases list, 0, |list.items| - k
  {
    if k >= |list.items| then []
    else
      var item := list.items[k];
      [if item.NullValue? then Element(name, None, []) else ElementOf(name, item)] + ItemsFrom(name, list, k + 1)
  }

  /** The elements of a map's fields. */
  function FieldElements(fields: seq<(string, Value)>): seq<Element> {
    FieldsFrom(MapValue(fields), 0)
  }

  /** `xmlify`: "" for null; a list is wrapped as `{itemName: list}` under the
      wrapper name; any other value is written under the root name. */
  function Xmlify(obj: Value, rootName: Option<string>, itemName: Option<string>): (d: XmlDocument)
    ensures obj.NullValue? <==> d.EmptyDocument?
    ensures obj.ListValue? ==> d.root.name == rootName.GetOr(DEFAULT_LIST_ROOT)
    ensures !obj.NullValue? && !obj.ListValue? ==> d.root.name == rootName.GetOr(DEFAULT_ROOT)
  {
    match obj
    case NullValue => EmptyDocument
    case ListValue(items) =>
      Document(ElementOf(rootName.GetOr(DEFAULT_LIST_ROOT),
                         MapValue([(itemName.GetOr(DEFAULT_LIST_ITEM), obj)])))
    case _ => Document(ElementOf(rootName.GetOr(DEFAULT_ROOT), obj))
  }

  /** A list's items are the wrapper's children, each named by `itemName` or "item". */
  lemma ListItemsNamed(items: seq<Value>, rootName: Option<string>, itemName: Option<string>)
    ensures var root := Xmlify(ListValue(items), rootName, itemName).root;
            root.children == ItemsFrom(itemName.GetOr(DEFAULT_LIST_ITEM), ListValue(items), 0) &&
            |root.children| == |items| &&
            forall e :: e in root.children ==> e.name == itemName.GetOr(DEFAULT_LIST_ITEM)
  {
    var item := itemName.GetOr(DEFAULT_LIST_ITEM);
    var wrapped := MapValue([(item, ListValue(items))]);
    assert Xmlify(ListValue(items), rootName, itemName).root == ElementOf(rootName.GetOr(DEFAULT_LIST_ROOT), wrapped);
    assert FieldsFrom(wrapped, 0) == FieldChildren(item, ListValue(items)) + FieldsFrom(wrapped, 1);
    assert FieldsFrom(wrapped, 1) == [];
  }

  /** A null list item keeps its place as an empty element of the item name. */
  lemma {:induction false} NullItemKept(name: string, list: Value, k: nat, i: nat)
    requires list.ListValue? && k <= i < |list.items| && list.items[i].NullValue?
    ensures ItemsFrom(name, list, k)[i - k] == Element(name, None, [])
    decreases i - k
  {
    if k < i {
      NullItemKept(name, list, k + 1, i);
    }
  }

  /** The item name only matters for lists. */
  lemma ItemNameIgnored(obj: Value, rootName: Option<string>, a: Option<string>, b: Option<string>)
    requires !obj.ListValue?
    ensures Xmlify(obj, rootName, a) == Xmlify(obj, rootName, b)
  {
  }

  /** A null example gives "" whatever names are asked for. */
  lemma NullIgnoresNames(rootName: Option<string>, itemName: Option<string>)
    ensures Xmlify(NullValue, rootName, itemName) == EmptyDocument
  {
  }

  /** Every element of a map comes from a non-null field of that name, so null
      fields never appear. */
  lemma {:induction false} NullFieldsOmitted(fields: seq<(string, Value)>, k: nat)
    ensures forall e :: e in FieldsFrom(MapValue(fields), k) ==>
              exists i :: k <= i < |fields| && fields[i].0 == e.name && !fields[i].1.NullValue?
    decreases |fields| - k
  {
    if k < |fields| {
      NullFieldsOmitted(fields, k + 1);
    }
  }

  /** Every scalar or map field that is not null has its element. */
  lemma {:induction false} NonNullFieldsPresent(fields: seq<(string, Value)>, k: nat, i: nat)
    requires k <= i < |fields| && !fields[i].1.NullValue? && !fields[i].1.ListValue?
    ensures ElementOf(fields[i].0, fields[i].1) in FieldsFrom(MapValue(fields), k)
    decreases i - k
  {
    if k < i {
      NonNullFieldsPresent(fields, k + 1, i);
    }
  }
}
