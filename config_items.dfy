/** Configuration items (`Config_Item`) and the pure part of
    `_ut_config_item_get`: the lookup by id and the synthesis of a new id
    from the last item's id. The list update itself is a method of
    `DeskTitle.Module`. */
module ConfigItems {
  import opened CText

  /** The gadget class name (`_gc_class.name`), the prefix of synthesised ids. */
  const ClassName := "desktitle"

  /** The check and update interval, in seconds, of every item the module creates. */
  const DefaultInterval := 60

  /** One persisted `Config_Item`. Items are compared by identity, as the
      source compares `Config_Item *` pointers; the id never changes once set. */
  class ConfigItem {
    const id: Option<string>
    var checkInterval: int
    var updateInterval: int

    constructor (id: Option<string>)
      ensures this.id == id
      ensures checkInterval == DefaultInterval && updateInterval == DefaultInterval
    {
      this.id := id;
      checkInterval := DefaultInterval;
      updateInterval := DefaultInterval;
    }
  }

  /** The position of the first item whose id is non-null and equal to `id`. */
  function FindById(items: seq<ConfigItem>, id: string): (r: Option<nat>)
    ensures r.Some? ==> r.value < |items| && items[r.value].id == Some(id)
    ensures r.Some? ==> forall j :: 0 <= j < r.value ==> items[j].id != Some(id)
    ensures r.None? ==> forall j :: 0 <= j < |items| ==> items[j].id != Some(id)
  {
    if items == [] then None
    else if items[0].id.Some? && items[0].id.value == id then Some(0)
    else match FindById(items[1..], id)
      case None => None
      case Some(k) => Some(k + 1)
  }

  /** A null id can be served only when the last item (if any) has an id:
      the source applies `strrchr` to it without a null check. */
  predicate CanSynthesize(items: seq<ConfigItem>) {
    items == [] || items[|items| - 1].id.Some?
  }

  /** The number in a synthesised id: 0 for an empty list or a last id
      without '.', otherwise `atoi` of the text after the last '.' plus one. */
  function NewIdNumber(items: seq<ConfigItem>): (n: int)
    requires CanSynthesize(items)
    ensures items == [] ==> n == 0
    ensures n != 0 ==> items != [] && '.' in items[|items| - 1].id.value
  {
    if items == [] then 0
    else match AfterLast(items[|items| - 1].id.value, '.')
      case None => 0
      case Some(suffix) => Atoi(suffix) + 1
  }

  /** `snprintf(buf, ..., "%s.%d", _gc_class.name, num)`. */
  function NewId(items: seq<ConfigItem>): (id: string)
    requires CanSynthesize(items)
    ensures |id| > |ClassName| + 1 && id[..|ClassName| + 1] == ClassName + "."
    ensures AfterLast(id, '.') == Some(FormatInt(NewIdNumber(items)))
    ensures '.' !in id[|ClassName| + 1..]
  {
    AfterLastSplit(ClassName, '.', FormatInt(NewIdNumber(items)));
    var id := ClassName + "." + FormatInt(NewIdNumber(items));
    assert ClassName + "." == ClassName + ['.'];
    id
  }

  /** What `_ut_config_item_get(id)` leaves behind: the returned item `ci`
      and the list `after` that replaces `before`. A non-null id that some
      item carries resolves to the first such item and changes nothing;
      otherwise exactly one new item with default intervals is appended,
      carrying `id` or, for a null id, a synthesised one. */
  ghost predicate Resolved(before: seq<ConfigItem>, id: Option<string>, after: seq<ConfigItem>, ci: ConfigItem)
    requires id.Some? || CanSynthesize(before)
    reads ci
    ensures Resolved(before, id, after, ci) ==> ci in after && before <= after && |after| <= |before| + 1
  {
    if id.Some? && FindById(before, id.value).Some? then
      after == before && ci == before[FindById(before, id.value).value]
    else
      && after == before + [ci]
      && ci.id == Some(if id.Some? then id.value else NewId(before))
      && ci.checkInterval == DefaultInterval
      && ci.updateInterval == DefaultInterval
  }

  /** Appending an item never changes an existing match, and a new item with
      the looked-for id is found afterwards: a second lookup of the same id
      returns what the first one created. */
  lemma {:induction false} FindByIdAppend(items: seq<ConfigItem>, c: ConfigItem, id: string)
    ensures FindById(items, id).Some? ==> FindById(items + [c], id) == FindById(items, id)
    ensures FindById(items, id).None? && c.id == Some(id) ==> FindById(items + [c], id) == Some(|items|)
    ensures FindById(items, id).None? && c.id != Some(id) ==> FindById(items + [c], id).None?
  {
    if items != [] {
      assert (items + [c])[1..] == items[1..] + [c];
      FindByIdAppend(items[1..], c, id);
    }
  }

  /** Looking up the same id twice: the second lookup returns the item the
      first one found or created, and changes nothing. */
  lemma ResolvedTwice(before: seq<ConfigItem>, id: string, mid: seq<ConfigItem>, first: ConfigItem,
                      after: seq<ConfigItem>, second: ConfigItem)
    requires Resolved(before, Some(id), mid, first)
    requires Resolved(mid, Some(id), after, second)
    ensures after == mid && second == first
  {
  }

  /** With no items the synthesised id is "desktitle.0". */
  lemma NewIdEmpty()
    ensures NewId([]) == "desktitle.0"
  {
  }

  /** A last id without '.' (such as the default item "0") gives "desktitle.0". */
  lemma NewIdNoDot(items: seq<ConfigItem>)
    requires items != [] && items[|items| - 1].id.Some?
    requires '.' !in items[|items| - 1].id.value
    ensures NewIdNumber(items) == 0
    ensures NewId(items) == "desktitle.0"
  {
  }

  /** A last id ending in '.' and a number n gives "desktitle." followed by n + 1. */
  lemma NewIdAfterNumber(items: seq<ConfigItem>, prefix: string, n: int)
    requires items != [] && items[|items| - 1].id == Some(prefix + "." + FormatInt(n))
    ensures NewIdNumber(items) == n + 1
    ensures NewId(items) == ClassName + "." + FormatInt(n + 1)
  {
    AfterLastSplit(prefix, '.', FormatInt(n));
    AtoiFormatInt(n);
  }

  /** A last id ending in ".7" gives "desktitle.8". */
  lemma NewIdAfterSeven(items: seq<ConfigItem>, prefix: string)
    requires items != [] && items[|items| - 1].id == Some(prefix + ".7")
    ensures NewId(items) == "desktitle.8"
  {
    assert FormatInt(7) == "7";
    assert prefix + "." + "7" == prefix + ".7";
    NewIdAfterNumber(items, prefix, 7);
    assert FormatInt(8) == "8";
  }

  /** A suffix after the last '.' in which no digit follows the white space
      and optional sign counts as 0 for `atoi`, giving 1. */
  lemma NewIdNotNumeric(items: seq<ConfigItem>, prefix: string, suffix: string)
    requires items != [] && items[|items| - 1].id == Some(prefix + "." + suffix)
    requires '.' !in suffix
    requires NoNumber(suffix)
    ensures NewIdNumber(items) == 1
  {
    AfterLastSplit(prefix, '.', suffix);
    AtoiNotNumeric(suffix);
  }

  /** Ids synthesised one after another count up: once an item with the
      synthesised id is appended, the next synthesised number is one higher. */
  lemma SynthesizedIdsCountUp(items: seq<ConfigItem>, c: ConfigItem)
    requires CanSynthesize(items)
    requires c.id == Some(NewId(items))
    ensures NewIdNumber(items + [c]) == NewIdNumber(items) + 1
  {
    NewIdAfterNumber(items + [c], ClassName, NewIdNumber(items));
  }

  /** No uniqueness check is made: after items "desktitle.0" and "0" the
      synthesised id is "desktitle.0" again, the id of the first item. */
  lemma NewIdMayRepeat(first: ConfigItem, last: ConfigItem)
    requires first.id == Some("desktitle.0") && last.id == Some("0")
    ensures NewId([first, last]) == first.id.value
    ensures FindById([first, last], NewId([first, last])) == Some(0)
  {
    NewIdNoDot([first, last]);
  }
}
