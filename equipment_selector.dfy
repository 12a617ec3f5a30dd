/**
 * The equipment selection screen: the selection is a list of equipment ids owned by the
 * page; the screen derives new lists from it (toggle one id, select or clear a whole
 * sub-category, add or remove a custom piece of equipment) and counts what is selected.
 * Custom equipment is encoded in the id itself as `custom-{category}-{sub}-{name}` or,
 * in the older form, `custom-{category}-{name}`.
 */
module EquipmentSelector {
  import opened Wrappers
  import opened JsStrings
  import opened EquipmentData

  // List operations on the selection.

  /** `list.filter((id) => !drop.includes(id))`: every entry not in `drop`, in order. */
  function Remove(list: seq<string>, drop: seq<string>): (r: seq<string>)
    ensures |r| <= |list|
    ensures forall x :: x in r <==> x in list && x !in drop
  {
    if list == [] then []
    else if list[0] in drop then Remove(list[1..], drop)
    else [list[0]] + Remove(list[1..], drop)
  }

  /** Removing keeps the order of what is left: it works on each part of a concatenation separately. */
  lemma {:induction false} RemoveAppend(a: seq<string>, b: seq<string>, drop: seq<string>)
    ensures Remove(a + b, drop) == Remove(a, drop) + Remove(b, drop)
  {
    if a == [] {
      assert a + b == b;
    } else {
      assert (a + b)[0] == a[0] && (a + b)[1..] == a[1..] + b;
      RemoveAppend(a[1..], b, drop);
    }
  }

  /** Removing what is not there changes nothing. */
  lemma {:induction false} RemoveAbsent(list: seq<string>, drop: seq<string>)
    requires forall x :: x in drop ==> x !in list
    ensures Remove(list, drop) == list
  {
    if list != [] {
      assert list[0] in list;
      RemoveAbsent(list[1..], drop);
    }
  }

  /** Removing a superset of the list empties it. */
  lemma {:induction false} RemoveCovered(list: seq<string>, drop: seq<string>)
    requires forall x :: x in list ==> x in drop
    ensures Remove(list, drop) == []
  {
    if list != [] {
      assert list[0] in list;
      RemoveCovered(list[1..], drop);
    }
  }

  /** `[...new Set(list)]` started with the entries of `seen` already in the set. */
  function UniqueFrom(list: seq<string>, seen: set<string>): (r: seq<string>)
    ensures forall x :: x in r <==> x in list && x !in seen
    ensures Distinct(r)
  {
    if list == [] then []
    else if list[0] in seen then UniqueFrom(list[1..], seen)
    else
      var rest := UniqueFrom(list[1..], seen + {list[0]});
      assert forall k :: 0 <= k < |rest| ==> rest[k] in rest;
      [list[0]] + rest
  }

  /** `[...new Set(list)]`: the first occurrence of each entry, in order. */
  function Unique(list: seq<string>): (r: seq<string>)
    ensures forall x :: x in r <==> x in list
    ensures Distinct(r)
  {
    UniqueFrom(list, {})
  }

  /** A list without repeats and without any entry of `seen` comes out of the set unchanged. */
  lemma {:induction false} UniqueFromDistinct(list: seq<string>, seen: set<string>)
    requires Distinct(list)
    requires forall x :: x in list ==> x !in seen
    ensures UniqueFrom(list, seen) == list
  {
    if list != [] {
      assert list[0] in list;
      forall x | x in list[1..] ensures x !in seen + {list[0]} {
        var k :| 0 <= k < |list[1..]| && list[1..][k] == x;
        assert list[k + 1] == x;
      }
      UniqueFromDistinct(list[1..], seen + {list[0]});
    }
  }

  /** The set walks a concatenation left to right: what the left part added is skipped in the right part. */
  lemma {:induction false} UniqueFromAppend(a: seq<string>, b: seq<string>, seen: set<string>)
    ensures UniqueFrom(a + b, seen) == UniqueFrom(a, seen) + UniqueFrom(b, seen + set x | x in a)
  {
    if a == [] {
      assert a + b == b;
      assert (set x | x in a) == {};
      assert seen + {} == seen;
    } else {
      assert (a + b)[0] == a[0] && (a + b)[1..] == a[1..] + b;
      if a[0] in seen {
        UniqueFromAppend(a[1..], b, seen);
        assert seen + (set x | x in a[1..]) == seen + (set x | x in a);
      } else {
        UniqueFromAppend(a[1..], b, seen + {a[0]});
        assert seen + {a[0]} + (set x | x in a[1..]) == seen + (set x | x in a);
      }
    }
  }

  /** `toggleEquipment`: drop every occurrence of a selected id, or append an unselected one. */
  function Toggle(selected: seq<string>, id: string): (r: seq<string>)
    ensures id in r <==> id !in selected
    ensures forall x :: x != id ==> (x in r <==> x in selected)
    ensures id !in selected ==> r == selected + [id]
    ensures id in selected ==> r == Remove(selected, [id])
  {
    if id in selected then Remove(selected, [id]) else selected + [id]
  }

  /**
   * Toggling an unselected id twice gives the selection back; toggling a selected one twice
   * keeps the rest in order and moves the id, once, to the end.
   */
  lemma ToggleTwice(selected: seq<string>, id: string)
    ensures id !in selected ==> Toggle(Toggle(selected, id), id) == selected
    ensures id in selected ==> Toggle(Toggle(selected, id), id) == Remove(selected, [id]) + [id]
  {
    if id !in selected {
      RemoveAppend(selected, [id], [id]);
      RemoveAbsent(selected, [id]);
    }
  }

  /** Every id of `ids` is selected: `ids.every((id) => selected.includes(id))`. */
  predicate AllSelected(ids: seq<string>, selected: seq<string>) {
    forall k :: 0 <= k < |ids| ==> ids[k] in selected
  }

  /** The select-all / clear-all button of a sub-category whose catalog ids are `ids`. */
  function ToggleAll(selected: seq<string>, ids: seq<string>): (r: seq<string>)
    ensures AllSelected(ids, selected) ==> forall x :: x in r <==> x in selected && x !in ids
    ensures !AllSelected(ids, selected) ==> AllSelected(ids, r) && Distinct(r)
    ensures !AllSelected(ids, selected) ==> forall x :: x in r <==> x in selected || x in ids
    ensures AllSelected(ids, selected) ==> r == Remove(selected, ids)
    ensures !AllSelected(ids, selected) ==> r == Unique(selected + ids)
  {
    if AllSelected(ids, selected) then Remove(selected, ids) else Unique(selected + ids)
  }

  /** `toggleSubCategoryAll(categoryId, subCategory)`. */
  function ToggleSubCategoryAll(selected: seq<string>, categoryId: string, sub: SubCategory): (r: seq<string>)
    ensures var ids := Ids(SubCategoryList(categoryId, sub));
      AllSelected(ids, selected) ==> forall k :: 0 <= k < |ids| ==> ids[k] !in r
    ensures var ids := Ids(SubCategoryList(categoryId, sub));
      !AllSelected(ids, selected) ==> AllSelected(ids, r)
    ensures var ids := Ids(SubCategoryList(categoryId, sub));
      forall x :: x !in ids ==> (x in r <==> x in selected)
    ensures r == ToggleAll(selected, Ids(SubCategoryList(categoryId, sub)))
  {
    ToggleAll(selected, Ids(SubCategoryList(categoryId, sub)))
  }

  /** A sub-category with no entry (or an unknown category) leaves the selection as it is. */
  lemma ToggleAllEmpty(selected: seq<string>)
    ensures ToggleAll(selected, []) == selected
  {
    RemoveAbsent(selected, []);
  }

  /** Selecting all keeps a duplicate-free selection in front, in its order, and appends the new ids after it. */
  lemma ToggleAllKeepsOrder(selected: seq<string>, ids: seq<string>)
    requires Distinct(selected) && !AllSelected(ids, selected)
    ensures |ToggleAll(selected, ids)| >= |selected|
    ensures ToggleAll(selected, ids)[..|selected|] == selected
  {
    UniqueFromAppend(selected, ids, {});
    UniqueFromDistinct(selected, {});
    assert {} + (set x | x in selected) == set x | x in selected;
  }

  /** Selecting all and then clearing all takes a duplicate-free selection back to what it was without those ids. */
  lemma SelectAllThenClear(selected: seq<string>, ids: seq<string>)
    requires Distinct(selected) && !AllSelected(ids, selected)
    ensures ToggleAll(ToggleAll(selected, ids), ids) == Remove(selected, ids)
  {
    var all := ToggleAll(selected, ids);
    var seen := set x | x in selected;
    var added := UniqueFrom(ids, seen);
    assert all == selected + added by {
      UniqueFromAppend(selected, ids, {});
      UniqueFromDistinct(selected, {});
      assert {} + seen == seen;
    }
    assert AllSelected(ids, all);
    assert Remove(all, ids) == Remove(selected, ids) + Remove(added, ids) by { RemoveAppend(selected, added, ids); }
    assert Remove(added, ids) == [] by { RemoveCovered(added, ids); }
    assert Remove(selected, ids) + [] == Remove(selected, ids);
  }

  // Custom equipment ids.

  /** `["machine", "barbell", "dumbbell"].includes(key)`, and which one. */
  function SubCategoryOfKey(key: string): (r: Option<SubCategory>)
    ensures r.Some? ==> SubCategoryKey(r.value) == key
    ensures r.None? ==> forall sub: SubCategory :: SubCategoryKey(sub) != key
  {
    if key == "machine" then Some(Machine)
    else if key == "barbell" then Some(Barbell)
    else if key == "dumbbell" then Some(Dumbbell)
    else None
  }

  /** `custom-{categoryId}-`: the prefix of every custom id of a category. */
  function CustomPrefix(categoryId: string): string {
    "custom-" + categoryId + "-"
  }

  /** The id `addCustomEquipment` and `removeCustomEquipment` build for a custom piece of equipment. */
  function CustomId(categoryId: string, sub: Option<SubCategory>, name: string): (r: string)
    ensures StartsWith(r, CustomPrefix(categoryId))
    ensures sub.Some? ==> StartsWith(r, CustomPrefix(categoryId) + SubCategoryKey(sub.value) + "-")
    ensures |name| <= |r| && r[|r| - |name|..] == name
  {
    match sub
    case Some(s) => CustomPrefix(categoryId) + SubCategoryKey(s) + "-" + name
    case None => CustomPrefix(categoryId) + name
  }

  /** A decoded custom id; the sub-category is the key string found in the id, if any. */
  datatype CustomEquipment = CustomEquipment(name: string, subCategory: Option<string>)

  /** `parts.slice(n)`. */
  function Drop(parts: seq<string>, n: nat): seq<string> {
    if n <= |parts| then parts[n..] else []
  }

  /** The decoding used when no sub-category is open: a known key in third place is the sub-category. */
  function Decode(id: string): (e: CustomEquipment)
    ensures e.subCategory.Some? ==> SubCategoryOfKey(e.subCategory.value).Some?
  {
    var parts := Split(id, '-');
    if |parts| >= 4 && SubCategoryOfKey(parts[2]).Some? then CustomEquipment(Join(parts[3..], "-"), Some(parts[2]))
    else CustomEquipment(Join(Drop(parts, 2), "-"), None)
  }

  /** The decoding used inside an open sub-category: the third part is taken as the sub-category unchecked. */
  function DecodeInSubCategory(id: string): (r: CustomEquipment)
    ensures r.subCategory.Some? ==> '-' !in r.subCategory.value
    ensures r.subCategory.None? ==> r.name == ""
  {
    var parts := Split(id, '-');
    CustomEquipment(Join(Drop(parts, 3), "-"), if |parts| >= 3 then Some(parts[2]) else None)
  }

  /** `selected.filter((id) => id.startsWith(prefix))`. */
  function WithPrefix(list: seq<string>, prefix: string): (r: seq<string>)
    ensures |r| <= |list|
    ensures forall x :: x in r <==> x in list && StartsWith(x, prefix)
  {
    if list == [] then []
    else if StartsWith(list[0], prefix) then [list[0]] + WithPrefix(list[1..], prefix)
    else WithPrefix(list[1..], prefix)
  }

  /** One id is kept exactly when it starts with the prefix. */
  lemma WithPrefixOne(id: string, prefix: string)
    ensures WithPrefix([id], prefix) == if StartsWith(id, prefix) then [id] else []
  {
    assert [id][1..] == [];
  }

  /** The filter works on each part of a concatenation, so the kept ids stay in selection order. */
  lemma {:induction false} WithPrefixAppend(a: seq<string>, b: seq<string>, prefix: string)
    ensures WithPrefix(a + b, prefix) == WithPrefix(a, prefix) + WithPrefix(b, prefix)
  {
    if a == [] {
      assert a + b == b;
    } else {
      assert (a + b)[0] == a[0] && (a + b)[1..] == a[1..] + b;
      WithPrefixAppend(a[1..], b, prefix);
    }
  }

  /** `getCustomEquipmentsForSubCategory(categoryId, subCategory)`. */
  function CustomEquipmentsFor(selected: seq<string>, categoryId: string, sub: Option<SubCategory>): (r: seq<CustomEquipment>)
    ensures |r| <= |selected|
    ensures sub.None? ==> var ids := WithPrefix(selected, CustomPrefix(categoryId));
      |r| == |ids| && forall k :: 0 <= k < |ids| ==> r[k] == Decode(ids[k])
    ensures sub.Some? ==> var ids := WithPrefix(selected, CustomPrefix(categoryId) + SubCategoryKey(sub.value) + "-");
      |r| == |ids| && forall k :: 0 <= k < |ids| ==> r[k] == DecodeInSubCategory(ids[k])
  {
    match sub
    case None =>
      var ids := WithPrefix(selected, CustomPrefix(categoryId));
      seq(|ids|, k requires 0 <= k < |ids| => Decode(ids[k]))
    case Some(s) =>
      var ids := WithPrefix(selected, CustomPrefix(categoryId) + SubCategoryKey(s) + "-");
      seq(|ids|, k requires 0 <= k < |ids| => DecodeInSubCategory(ids[k]))
  }

  function Names(items: seq<CustomEquipment>): (names: seq<string>)
    ensures |names| == |items|
    ensures forall k :: 0 <= k < |items| ==> names[k] == items[k].name
  {
    if items == [] then [] else [items[0].name] + Names(items[1..])
  }

  /** The pieces of a custom id filed under a sub-category, when the category holds no dash. */
  lemma FiledIdParts(categoryId: string, sub: SubCategory, name: string)
    requires '-' !in categoryId
    ensures Split(CustomId(categoryId, Some(sub), name), '-') == ["custom", categoryId, SubCategoryKey(sub)] + Split(name, '-')
  {
    var c, key := categoryId, SubCategoryKey(sub);
    var tail := Split(name, '-');
    var filed := key + "-" + name;
    var rest := c + "-" + filed;
    assert CustomId(c, Some(sub), name) == "custom" + "-" + rest;
    assert Split(filed, '-') == [key] + tail by { SplitAfter(key, '-', name); }
    assert Split(rest, '-') == [c] + ([key] + tail) by { SplitAfter(c, '-', filed); }
    assert Split("custom" + "-" + rest, '-') == ["custom"] + Split(rest, '-') by { SplitAfter("custom", '-', rest); }
    assert ["custom"] + ([c] + ([key] + tail)) == ["custom", c, key] + tail;
  }

  /** The pieces of an old-style custom id, when the category holds no dash. */
  lemma PlainIdParts(categoryId: string, name: string)
    requires '-' !in categoryId
    ensures Split(CustomId(categoryId, None, name), '-') == ["custom", categoryId] + Split(name, '-')
  {
    var c, tail := categoryId, Split(name, '-');
    var rest := c + "-" + name;
    assert CustomId(c, None, name) == "custom" + "-" + rest;
    assert Split(rest, '-') == [c] + tail by { SplitAfter(c, '-', name); }
    assert Split("custom" + "-" + rest, '-') == ["custom"] + Split(rest, '-') by { SplitAfter("custom", '-', rest); }
    assert ["custom"] + ([c] + tail) == ["custom", c] + tail;
  }

  /** The id of a custom piece filed under a sub-category decodes back to its name and sub-category, in both decodings. */
  lemma DecodeWithSubCategory(categoryId: string, sub: SubCategory, name: string)
    requires '-' !in categoryId
    ensures Decode(CustomId(categoryId, Some(sub), name)) == CustomEquipment(name, Some(SubCategoryKey(sub)))
    ensures DecodeInSubCategory(CustomId(categoryId, Some(sub), name)) == CustomEquipment(name, Some(SubCategoryKey(sub)))
  {
    var parts := Split(CustomId(categoryId, Some(sub), name), '-');
    FiledIdParts(categoryId, sub, name);
    assert parts[3..] == Split(name, '-');
    JoinSplit(name, '-');
  }

  /** A name that an old-style id cannot carry: it starts with a sub-category key and a dash. */
  predicate LooksFiled(name: string) {
    StartsWith(name, "machine-") || StartsWith(name, "barbell-") || StartsWith(name, "dumbbell-")
  }

  /** A name whose first dash-piece is a sub-category key, with more pieces after it, starts with that key and a dash. */
  lemma FirstPieceKey(name: string)
    requires |Split(name, '-')| >= 2 && SubCategoryOfKey(Split(name, '-')[0]).Some?
    ensures LooksFiled(name)
  {
    var p := Split(name, '-');
    JoinSplit(name, '-');
    assert name == p[0] + "-" + Join(p[1..], "-");
    assert name[..|p[0]| + 1] == p[0] + "-";
  }

  /** An old-style id (no sub-category) decodes back to its name, unless the name looks filed under a sub-category. */
  lemma DecodeWithoutSubCategory(categoryId: string, name: string)
    requires '-' !in categoryId
    requires !LooksFiled(name)
    ensures Decode(CustomId(categoryId, None, name)) == CustomEquipment(name, None)
  {
    var parts := Split(CustomId(categoryId, None, name), '-');
    PlainIdParts(categoryId, name);
    if |parts| >= 4 && SubCategoryOfKey(parts[2]).Some? {
      assert parts[2] == Split(name, '-')[0];
      FirstPieceKey(name);
    }
    assert Drop(parts, 2) == Split(name, '-');
    JoinSplit(name, '-');
  }

  /** The exception is real: an old-style name starting with a key and a dash is read back as filed under that key. */
  lemma DecodeMisreadsFiledName(categoryId: string, sub: SubCategory, rest: string)
    requires '-' !in categoryId
    ensures Decode(CustomId(categoryId, None, SubCategoryKey(sub) + "-" + rest)) == CustomEquipment(rest, Some(SubCategoryKey(sub)))
  {
    var key := SubCategoryKey(sub);
    var name := key + "-" + rest;
    var parts := Split(CustomId(categoryId, None, name), '-');
    PlainIdParts(categoryId, name);
    SplitAfter(key, '-', rest);
    assert parts == ["custom", categoryId, key] + Split(rest, '-');
    assert parts[3..] == Split(rest, '-');
    JoinSplit(rest, '-');
  }

  /**
   * `addCustomEquipment`: `None` when the handler returns early (blank input, or a name the
   * open list already shows), otherwise the selection with the new custom id appended.
   */
  function AddCustom(selected: seq<string>, categoryId: string, sub: Option<SubCategory>, input: string): (r: Option<seq<string>>)
    ensures r.None? <==> Trim(input) == "" || Trim(input) in Names(CustomEquipmentsFor(selected, categoryId, sub))
    ensures r.Some? ==> r.value == selected + [CustomId(categoryId, sub, Trim(input))]
  {
    var trimmed := Trim(input);
    if trimmed == "" || trimmed in Names(CustomEquipmentsFor(selected, categoryId, sub)) then None
    else Some(selected + [CustomId(categoryId, sub, trimmed)])
  }

  /** `removeCustomEquipment(name, subCategory)` in the open category. */
  function RemoveCustom(selected: seq<string>, categoryId: string, name: string, sub: Option<SubCategory>): (r: seq<string>)
    ensures forall x :: x in r <==> x in selected && x != CustomId(categoryId, sub, name)
    ensures r == Remove(selected, [CustomId(categoryId, sub, name)])
  {
    Remove(selected, [CustomId(categoryId, sub, name)])
  }

  /** The names listed for a selection that ends in `id`: those of the rest, then the decoded `id`. */
  lemma CustomNamesAppend(selected: seq<string>, categoryId: string, sub: Option<SubCategory>, id: string)
    requires StartsWith(id, match sub case Some(s) => CustomPrefix(categoryId) + SubCategoryKey(s) + "-" case None => CustomPrefix(categoryId))
    ensures (match sub case Some(_) => DecodeInSubCategory(id) case None => Decode(id)).name
         in Names(CustomEquipmentsFor(selected + [id], categoryId, sub))
  {
    var prefix := match sub case Some(s) => CustomPrefix(categoryId) + SubCategoryKey(s) + "-" case None => CustomPrefix(categoryId);
    var ids := WithPrefix(selected + [id], prefix);
    assert id in ids;
    var k :| 0 <= k < |ids| && ids[k] == id;
    var items := CustomEquipmentsFor(selected + [id], categoryId, sub);
    assert Names(items)[k] == items[k].name;
  }

  /** Adding the same name twice in a row is refused the second time, so no id is added twice. */
  lemma AddTwiceRefused(selected: seq<string>, categoryId: string, sub: Option<SubCategory>, input: string)
    requires '-' !in categoryId
    requires sub.None? ==> !LooksFiled(Trim(input))
    requires AddCustom(selected, categoryId, sub, input).Some?
    ensures AddCustom(AddCustom(selected, categoryId, sub, input).value, categoryId, sub, input).None?
  {
    var name := Trim(input);
    var id := CustomId(categoryId, sub, name);
    match sub {
      case Some(s) =>
        DecodeWithSubCategory(categoryId, s, name);
        assert id == (CustomPrefix(categoryId) + SubCategoryKey(s) + "-") + name;
      case None =>
        DecodeWithoutSubCategory(categoryId, name);
    }
    CustomNamesAppend(selected, categoryId, sub, id);
  }

  /** Removing a custom piece right after adding it restores the selection. */
  lemma AddThenRemove(selected: seq<string>, categoryId: string, sub: Option<SubCategory>, input: string)
    requires AddCustom(selected, categoryId, sub, input).Some?
    requires CustomId(categoryId, sub, Trim(input)) !in selected
    ensures RemoveCustom(AddCustom(selected, categoryId, sub, input).value, categoryId, Trim(input), sub) == selected
  {
    var id := CustomId(categoryId, sub, Trim(input));
    RemoveAppend(selected, [id], [id]);
    RemoveAbsent(selected, [id]);
  }

  // Counting.

  /** `items.filter((e) => selected.includes(e.id)).length`. */
  function CountSelected(items: seq<SubCategoryEquipment>, selected: seq<string>): (n: nat)
    ensures n <= |items|
    ensures n == |items| <==> forall k :: 0 <= k < |items| ==> items[k].id in selected
  {
    if items == [] then 0
    else
      var rest := CountSelected(items[1..], selected);
      assert forall k :: 1 <= k < |items| ==> items[k] == items[1..][k - 1];
      (if items[0].id in selected then 1 else 0) + rest
  }

  lemma {:induction false} CountSelectedAppend(a: seq<SubCategoryEquipment>, b: seq<SubCategoryEquipment>, selected: seq<string>)
    ensures CountSelected(a + b, selected) == CountSelected(a, selected) + CountSelected(b, selected)
  {
    if a == [] {
      assert a + b == b;
    } else {
      assert (a + b)[0] == a[0] && (a + b)[1..] == a[1..] + b;
      CountSelectedAppend(a[1..], b, selected);
    }
  }

  /** `getSubCategoryCount(categoryId, subCategory)`: catalog entries only. */
  function SubCategoryCount(selected: seq<string>, categoryId: string, sub: SubCategory): (n: nat)
    ensures n <= |SubCategoryList(categoryId, sub)|
    ensures n == |SubCategoryList(categoryId, sub)| <==> AllSelected(Ids(SubCategoryList(categoryId, sub)), selected)
  {
    CountSelected(SubCategoryList(categoryId, sub), selected)
  }

  /** The number `getCategoryCount` reports for a category record `table` (absent: 0). */
  function CategoryCountOf(table: Option<SubLists>, selected: seq<string>, categoryId: string): nat {
    match table
    case None => 0
    case Some(lists) => CountSelected(lists.All(), selected) + |WithPrefix(selected, CustomPrefix(categoryId))|
  }

  /** The number `getCategoryCount(categoryId)` reports. */
  function CategoryCount(selected: seq<string>, categoryId: string): (n: nat)
    ensures CategoryTable(categoryId).None? ==> n == 0
    ensures CategoryTable(categoryId).Some? ==> n >= |WithPrefix(selected, CustomPrefix(categoryId))|
  {
    CategoryCountOf(CategoryTable(categoryId), selected, categoryId)
  }

  /** The first `k` sub-lists of a category record, in `Object.values` order. */
  function ListsUpTo(lists: SubLists, k: nat): seq<SubCategoryEquipment>
    requires k <= |SubCategories|
  {
    if k == 0 then [] else ListsUpTo(lists, k - 1) + lists.Get(SubCategories[k - 1])
  }

  /** The `forEach` of `getCategoryCount` over the three sub-lists of a category record, adding up the selected entries. */
  method CountSelectedInLists(lists: SubLists, selected: seq<string>) returns (count: nat)
    ensures count == CountSelected(lists.All(), selected)
  {
    count := 0;
    var k := 0;
    while k < |SubCategories|
      invariant 0 <= k <= |SubCategories|
      invariant count == CountSelected(ListsUpTo(lists, k), selected)
    {
      CountSelectedAppend(ListsUpTo(lists, k), lists.Get(SubCategories[k]), selected);
      count := count + CountSelected(lists.Get(SubCategories[k]), selected);
      k := k + 1;
    }
    assert ListsUpTo(lists, 1) == lists.machine;
    assert ListsUpTo(lists, 2) == lists.machine + lists.barbell;
    assert ListsUpTo(lists, 3) == lists.All();
  }

  /** `getCategoryCount`: 0 for an unknown category, else the selected catalog entries plus the custom ids. */
  method GetCategoryCount(selected: seq<string>, categoryId: string) returns (count: nat)
    ensures count == CategoryCount(selected, categoryId)
  {
    var table := CategoryTable(categoryId);
    if table.None? {
      return 0;
    }
    count := CountSelectedInLists(table.value, selected);
    var customCount := |WithPrefix(selected, CustomPrefix(categoryId))|;
    count := count + customCount;
  }

  /** A category's count is the sum of its three sub-category counts plus its custom ids. */
  lemma CategoryCountIsSum(selected: seq<string>, categoryId: string)
    requires CategoryTable(categoryId).Some?
    ensures CategoryCount(selected, categoryId)
         == SubCategoryCount(selected, categoryId, Machine) + SubCategoryCount(selected, categoryId, Barbell)
          + SubCategoryCount(selected, categoryId, Dumbbell) + |WithPrefix(selected, CustomPrefix(categoryId))|
  {
    var lists := CategoryTable(categoryId).value;
    CountSelectedAppend(lists.machine, lists.barbell, selected);
    CountSelectedAppend(lists.machine + lists.barbell, lists.dumbbell, selected);
  }

  /** A sub-category count reaches the list's length exactly when the button reads "clear all". */
  lemma CountFullIffAllSelected(items: seq<SubCategoryEquipment>, selected: seq<string>)
    ensures CountSelected(items, selected) == |items| <==> AllSelected(Ids(items), selected)
  {
  }

  /** The next button is enabled exactly when something is selected. */
  function NextEnabled(selected: seq<string>): (enabled: bool)
    ensures enabled <==> selected != []
  {
    |selected| > 0
  }

  /** The screen's own state: the open category and sub-category, and the custom-name input. */
  class SelectorState {
    var activeCategory: string
    var activeSubCategory: Option<SubCategory>
    var customInput: string
    var showCustomInput: bool

    /** The first category open, no sub-category, the input empty and hidden. */
    constructor()
      ensures activeCategory == EquipmentCategories[0].id && activeSubCategory == None
      ensures customInput == "" && !showCustomInput
    {
      activeCategory := EquipmentCategories[0].id;
      activeSubCategory := None;
      customInput := "";
      showCustomInput := false;
    }

    /** The custom pieces the open list shows. */
    function CustomEquipments(selected: seq<string>): seq<CustomEquipment>
      reads this
    {
      CustomEquipmentsFor(selected, activeCategory, activeSubCategory)
    }

    /** `handleCategoryClick`: open a category and close its sub-category. */
    method CategoryClick(categoryId: string)
      modifies this
      ensures activeCategory == categoryId && activeSubCategory == None
      ensures customInput == old(customInput) && showCustomInput == old(showCustomInput)
    {
      activeCategory := categoryId;
      activeSubCategory := None;
    }

    /** `handleSubCategoryClick`: open a sub-category, or close it when it is already open. */
    method SubCategoryClick(sub: SubCategory)
      modifies this
      ensures activeSubCategory == if old(activeSubCategory) == Some(sub) then None else Some(sub)
      ensures activeCategory == old(activeCategory)
      ensures customInput == old(customInput) && showCustomInput == old(showCustomInput)
    {
      if activeSubCategory == Some(sub) {
        activeSubCategory := None;
      } else {
        activeSubCategory := Some(sub);
      }
    }

    /** The plus button: show the input. */
    method OpenCustomInput()
      modifies this
      ensures showCustomInput
      ensures activeCategory == old(activeCategory) && activeSubCategory == old(activeSubCategory)
      ensures customInput == old(customInput)
    {
      showCustomInput := true;
    }

    /** Typing into the input. */
    method EditCustomInput(text: string)
      modifies this
      ensures customInput == text
      ensures activeCategory == old(activeCategory) && activeSubCategory == old(activeSubCategory)
      ensures showCustomInput == old(showCustomInput)
    {
      customInput := text;
    }

    /** Escape or the close button: hide and clear the input. */
    method CloseCustomInput()
      modifies this
      ensures !showCustomInput && customInput == ""
      ensures activeCategory == old(activeCategory) && activeSubCategory == old(activeSubCategory)
    {
      showCustomInput := false;
      customInput := "";
    }

    /**
     * `addCustomEquipment` (the add button or Enter): the new selection handed to
     * `onSelectionChange`, if any; on success the input is cleared and hidden.
     */
    method AddCustomEquipment(selected: seq<string>) returns (change: Option<seq<string>>)
      modifies this
      ensures change == AddCustom(selected, old(activeCategory), old(activeSubCategory), old(customInput))
      ensures change.Some? ==> customInput == "" && !showCustomInput
      ensures change.None? ==> customInput == old(customInput) && showCustomInput == old(showCustomInput)
      ensures activeCategory == old(activeCategory) && activeSubCategory == old(activeSubCategory)
    {
      var trimmed := Trim(customInput);
      if trimmed == "" {
        return None;
      }
      var existingNames := Names(CustomEquipments(selected));
      if trimmed in existingNames {
        return None;
      }
      var customId := CustomId(activeCategory, activeSubCategory, trimmed);
      change := Some(selected + [customId]);
      customInput := "";
      showCustomInput := false;
    }
  }
}
