/** Catalog entries shared by both plugins: a template or a license, by name. */
module Catalog {
  import opened Wrappers

  /** `FuzzyItemType(name, contents)`: what the picker shows (`text`, the
      name) and what it hands back for writing (`output`, the contents). */
  datatype Item = Item(name: string, contents: string)

  /** The interactive picker `utils::fuzzy(items, multi)`, whose own behaviour
      is not part of this model: the items the user chose, or its error. */
  type Picker = (seq<Item>, bool) -> Result<seq<Item>>

  /** `items.iter().find(|item| item.name == name)`, as the index found:
      the first entry whose name equals `name` exactly, or none. */
  function FirstNamed(items: seq<Item>, name: string): (r: Option<nat>)
    ensures r.None? <==> forall k :: 0 <= k < |items| ==> items[k].name != name
    ensures r.Some? ==> r.value < |items| && items[r.value].name == name
    ensures r.Some? ==> forall k :: 0 <= k < r.value ==> items[k].name != name
  {
    if items == [] then None
    else if items[0].name == name then Some(0)
    else match FirstNamed(items[1..], name)
      case None => None
      case Some(i) => Some(i + 1)
  }

  /** The names of the entries, in catalog order. */
  function Names(items: seq<Item>): (r: seq<string>)
    ensures |r| == |items|
    ensures forall k :: 0 <= k < |items| ==> r[k] == items[k].name
  {
    if items == [] then [] else [items[0].name] + Names(items[1..])
  }

  /** The contents of the entries, in order: what `output()` yields for each. */
  function Outputs(items: seq<Item>): (r: seq<string>)
    ensures |r| == |items|
    ensures forall k :: 0 <= k < |items| ==> r[k] == items[k].contents
  {
    if items == [] then [] else [items[0].contents] + Outputs(items[1..])
  }

  /** Every listed name is found by the lookup. */
  lemma ListedNamesAreFound(items: seq<Item>, name: string)
    requires name in Names(items)
    ensures FirstNamed(items, name).Some?
  {
    var k :| 0 <= k < |Names(items)| && Names(items)[k] == name;
    assert items[k].name == name;
  }
}
