/** The colour-palette store: named, insertion-ordered key -> colour dicts, an
    "active" palette, and lookup by key or by 0-based position. */
module ColourPalettes {
  import opened Wrappers
  import opened Decimal

  // ---------------------------------------------------------------------------
  // Insertion-ordered dicts with string keys

  /** A Python value handed in as a colour or as a key (before `str()`). */
  datatype Value = Text(text: string) | Number(number: int)

  /** `str(v)`. */
  function StrOf(v: Value): string {
    match v
    case Text(s) => s
    case Number(i) => IntToString(i)
  }

  /** A palette: a Python dict from string keys to colours, in insertion order. */
  type Palette = seq<(string, Value)>

  predicate UniqueKeys(p: Palette) {
    forall i, j :: 0 <= i < j < |p| ==> p[i].0 != p[j].0
  }

  /** `list(p.keys())`. */
  function Keys(p: Palette): (ks: seq<string>)
    ensures |ks| == |p|
    ensures forall i :: 0 <= i < |p| ==> ks[i] == p[i].0
  {
    if p == [] then [] else [p[0].0] + Keys(p[1..])
  }

  /** `p.get(k)`. */
  function Get(p: Palette, k: string): (r: Option<Value>)
    ensures r.None? <==> k !in Keys(p)
  {
    if p == [] then None
    else if p[0].0 == k then Some(p[0].1)
    else Get(p[1..], k)
  }

  /** `p[k] = v`. */
  function Put(p: Palette, k: string, v: Value): (r: Palette)
    ensures |r| <= |p| + 1
  {
    if p == [] then [(k, v)]
    else if p[0].0 == k then [(k, v)] + p[1..]
    else [p[0]] + Put(p[1..], k, v)
  }

  /** A new key goes at the end; an existing key keeps its position. */
  lemma {:induction false} PutKeys(p: Palette, k: string, v: Value)
    ensures Keys(Put(p, k, v)) == if k in Keys(p) then Keys(p) else Keys(p) + [k]
  {
    if p != [] {
      var r := Put(p, k, v);
      assert Keys(p) == [p[0].0] + Keys(p[1..]);
      if p[0].0 == k {
        assert r[1..] == p[1..];
        assert Keys(r) == [k] + Keys(p[1..]);
      } else {
        PutKeys(p[1..], k, v);
        assert r[1..] == Put(p[1..], k, v);
        assert Keys(r) == [p[0].0] + Keys(Put(p[1..], k, v));
      }
    }
  }

  /** The key put finds the new value; every other key finds what it found before. */
  lemma {:induction false} PutGet(p: Palette, k: string, v: Value, k': string)
    ensures Get(Put(p, k, v), k') == if k' == k then Some(v) else Get(p, k')
  {
    if p != [] && p[0].0 != k {
      PutGet(p[1..], k, v, k');
      assert Put(p, k, v)[1..] == Put(p[1..], k, v);
    } else if p != [] {
      assert Put(p, k, v)[1..] == p[1..];
    }
  }

  /** Putting keeps the keys unique. */
  lemma PutUnique(p: Palette, k: string, v: Value)
    requires UniqueKeys(p)
    ensures UniqueKeys(Put(p, k, v))
  {
    PutKeys(p, k, v);
    var r := Put(p, k, v);
    forall i, j | 0 <= i < j < |r| ensures r[i].0 != r[j].0 {
      assert r[i].0 == Keys(r)[i] && r[j].0 == Keys(r)[j];
      if j < |p| {
        assert Keys(p)[i] != Keys(p)[j];
      }
    }
  }

  /** In a dict with unique keys, the entry at position i is what its key finds. */
  lemma {:induction false} GetAt(p: Palette, i: nat)
    requires UniqueKeys(p) && i < |p|
    ensures Get(p, p[i].0) == Some(p[i].1)
  {
    if i > 0 {
      assert p[0].0 != p[i].0;
      GetAt(p[1..], i - 1);
    }
  }

  // ---------------------------------------------------------------------------
  // Lookup by key or position (`use` and `PaletteAccessor.__getitem__`)

  /** The argument of a lookup: a string, an int, or anything else. */
  datatype Selector = ByKey(key: string) | ByIndex(index: int) | ByOther

  datatype PaletteError =
    | NotListOrDict           // ValueError from add_palette
    | ShortItem(position: nat)  // IndexError: a list/tuple item with fewer than two parts
    | NoSuchPalette(name: string)  // ValueError from load_palette, KeyError from store[name]
    | NoActivePalette         // ValueError from use
    | BadKeyOrIndex           // KeyError from use and from the accessor
    | NoSuchAttribute(attribute: string)  // AttributeError from store.name

  /** A string finds its value or None and never raises; an int in range
      finds the value of the key at that position; anything else raises
      KeyError. */
  function Lookup(p: Palette, sel: Selector): (r: Result<Option<Value>, PaletteError>)
    ensures r.Err? <==> sel.ByOther? || (sel.ByIndex? && !(0 <= sel.index < |p|))
    ensures r.Err? ==> r.error == BadKeyOrIndex
    ensures sel.ByKey? ==> r == Ok(Get(p, sel.key))
    ensures sel.ByIndex? && r.Ok? ==> r.value.Some?
  {
    match sel
    case ByKey(k) => Ok(Get(p, k))
    case ByIndex(i) =>
      if 0 <= i < |Keys(p)| then
        assert Keys(p)[i] in Keys(p);
        Ok(Get(p, Keys(p)[i]))
      else Err(BadKeyOrIndex)
    case ByOther => Err(BadKeyOrIndex)
  }

  /** Position i and the key stored at position i give the same colour. */
  lemma IndexMatchesKey(p: Palette, i: nat)
    requires UniqueKeys(p) && i < |p|
    ensures Lookup(p, ByIndex(i)) == Lookup(p, ByKey(Keys(p)[i])) == Ok(Some(p[i].1))
  {
    GetAt(p, i);
  }

  /** Lookup by a position in range finds the entry at that position. */
  lemma LookupByIndex(p: Palette, sel: Selector)
    ensures sel.ByIndex? && 0 <= sel.index < |p| && UniqueKeys(p) ==> Lookup(p, sel) == Ok(Some(p[sel.index].1))
  {
    if sel.ByIndex? && 0 <= sel.index < |p| && UniqueKeys(p) {
      IndexMatchesKey(p, sel.index);
    }
  }

  /** The object `store[name]` returns. */
  datatype Accessor = Accessor(palette: Palette) {
    /** `accessor[key_or_index]`: the same lookup as `use`. */
    function Item(sel: Selector): (r: Result<Option<Value>, PaletteError>)
      ensures sel.ByKey? ==> r == Ok(Get(palette, sel.key))
      ensures sel.ByIndex? && 0 <= sel.index < |palette| && UniqueKeys(palette) ==> r == Ok(Some(palette[sel.index].1))
      ensures sel.ByOther? || (sel.ByIndex? && !(0 <= sel.index < |palette|)) ==> r == Err(BadKeyOrIndex)
    {
      LookupByIndex(palette, sel);
      Lookup(palette, sel)
    }
  }

  // ---------------------------------------------------------------------------
  // The shapes `add_palette` accepts

  /** One element of a list argument: a list or tuple (key, colour, ...), or
      anything else, which is a plain colour. */
  datatype Item = Plain(colour: Value) | Group(parts: seq<Value>)

  /** The `colors` argument of `add_palette`. */
  datatype Colours = ListOf(items: seq<Item>) | DictOf(entries: seq<(Value, Value)>) | OtherShape

  /** The palette the loop over a list builds: a plain colour at 1-based
      position i goes under `str(i)`, a group under `str(group[0])`; a group
      with fewer than two parts raises IndexError. */
  function FromList(items: seq<Item>): (r: Result<Palette, PaletteError>)
    ensures r.Ok? ==> UniqueKeys(r.value) && |r.value| <= |items|
    ensures r.Ok? ==> forall i :: 0 <= i < |items| ==> items[i].Plain? || |items[i].parts| >= 2
    ensures r.Err? ==> && r.error.ShortItem? && 1 <= r.error.position <= |items|
                       && items[r.error.position - 1].Group? && |items[r.error.position - 1].parts| < 2
    decreases |items|
  {
    if items == [] then Ok([])
    else
      var n := |items|;
      match FromList(items[..n - 1])
      case Err(e) => Err(e)
      case Ok(p) =>
        match items[n - 1]
        case Plain(c) =>
          PutUnique(p, IntToString(n), c);
          Ok(Put(p, IntToString(n), c))
        case Group(parts) =>
          if |parts| < 2 then Err(ShortItem(n))
          else
            PutUnique(p, StrOf(parts[0]), parts[1]);
            Ok(Put(p, StrOf(parts[0]), parts[1]))
  }

  /** The loop of `add_palette` over a list argument. */
  method BuildFromList(items: seq<Item>) returns (r: Result<Palette, PaletteError>)
    ensures r == FromList(items)
  {
    var palette: Palette := [];
    for i := 0 to |items|
      invariant FromList(items[..i]) == Ok(palette)
    {
      assert items[..i + 1][..i] == items[..i];
      match items[i]
      case Plain(c) =>
        palette := Put(palette, IntToString(i + 1), c);
      case Group(parts) =>
        if |parts| < 2 {
          ShortItemSticks(items, i + 1);
          return Err(ShortItem(i + 1));
        }
        palette := Put(palette, StrOf(parts[0]), parts[1]);
    }
    assert items[..|items|] == items;
    r := Ok(palette);
  }

  /** An IndexError in a prefix of the list is the error of the whole list. */
  lemma {:induction false} ShortItemSticks(items: seq<Item>, i: nat)
    requires i <= |items| && FromList(items[..i]).Err?
    ensures FromList(items) == FromList(items[..i])
  {
    if i < |items| {
      assert items[..|items| - 1][..i] == items[..i];
      ShortItemSticks(items[..|items| - 1], i);
    } else {
      assert items[..i] == items;
    }
  }

  /** `{str(k): v for k, v in colors.items()}`. */
  function FromDict(entries: seq<(Value, Value)>): (r: Palette)
    ensures UniqueKeys(r) && |r| <= |entries|
    decreases |entries|
  {
    if entries == [] then []
    else
      var n := |entries|;
      PutUnique(FromDict(entries[..n - 1]), StrOf(entries[n - 1].0), entries[n - 1].1);
      Put(FromDict(entries[..n - 1]), StrOf(entries[n - 1].0), entries[n - 1].1)
  }

  /** What `add_palette` stores for each shape of argument. */
  function Build(colours: Colours): (r: Result<Palette, PaletteError>)
    ensures r.Ok? ==> UniqueKeys(r.value)
    ensures r == Err(NotListOrDict) <==> colours.OtherShape?
    ensures colours.DictOf? ==> r.Ok?
  {
    match colours
    case ListOf(items) => FromList(items)
    case DictOf(entries) => Ok(FromDict(entries))
    case OtherShape => Err(NotListOrDict)
  }

  /** A list of plain colours is stored under the keys "1", "2", ..., in order. */
  lemma {:induction false} PlainListKeys(items: seq<Item>)
    requires forall i :: 0 <= i < |items| ==> items[i].Plain?
    ensures FromList(items).Ok?
    ensures var p := FromList(items).value;
            && |p| == |items|
            && forall i :: 0 <= i < |items| ==> p[i] == (IntToString(i + 1), items[i].colour)
  {
    if items != [] {
      var n := |items|;
      var init := items[..n - 1];
      PlainListKeys(init);
      var p := FromList(init).value;
      var key := IntToString(n);
      var c := items[n - 1].colour;
      FreshPositionKey(p, n);
      PutNewKey(p, key, c);
      FromListPlainStep(items);
      forall i | 0 <= i < n
        ensures (p + [(key, c)])[i] == (IntToString(i + 1), items[i].colour)
      {
        if i < n - 1 {
          assert init[i] == items[i];
        }
      }
    }
  }

  /** One step of the list loop on a plain colour. */
  lemma FromListPlainStep(items: seq<Item>)
    requires items != [] && items[|items| - 1].Plain?
    requires FromList(items[..|items| - 1]).Ok?
    ensures FromList(items)
         == Ok(Put(FromList(items[..|items| - 1]).value, IntToString(|items|), items[|items| - 1].colour))
  {
  }

  /** Keys generated for positions 1..|p| differ from the key of position n > |p|. */
  lemma FreshPositionKey(p: Palette, n: nat)
    requires |p| < n
    requires forall i :: 0 <= i < |p| ==> p[i].0 == IntToString(i + 1)
    ensures IntToString(n) !in Keys(p)
  {
    forall i | 0 <= i < |p|
      ensures Keys(p)[i] != IntToString(n)
    {
      if Keys(p)[i] == IntToString(n) {
        IntToStringInjective(i + 1, n);
      }
    }
  }

  /** Putting a new key appends the entry. */
  lemma {:induction false} PutNewKey(p: Palette, k: string, v: Value)
    requires k !in Keys(p)
    ensures Put(p, k, v) == p + [(k, v)]
  {
    if p != [] {
      assert Keys(p)[0] == p[0].0;
      assert k !in Keys(p[1..]) by {
        forall i | 0 <= i < |p| - 1 ensures Keys(p[1..])[i] != k {
          assert Keys(p[1..])[i] == Keys(p)[i + 1];
        }
      }
      PutNewKey(p[1..], k, v);
      assert [p[0]] + (p[1..] + [(k, v)]) == p + [(k, v)];
    }
  }

  /** For a list of plain colours, position i and key `str(i + 1)` give the same colour. */
  lemma PlainListIndexMatchesKey(items: seq<Item>, i: nat)
    requires forall j :: 0 <= j < |items| ==> items[j].Plain?
    requires i < |items|
    ensures FromList(items).Ok?
    ensures Lookup(FromList(items).value, ByIndex(i)) == Lookup(FromList(items).value, ByKey(IntToString(i + 1)))
                                                      == Ok(Some(items[i].colour))
  {
    PlainListKeys(items);
    IndexMatchesKey(FromList(items).value, i);
  }

  /** The loop body on the next item: a plain colour goes under its 1-based
      position, a group of two or more parts stores `str(parts[0]) -> parts[1]`,
      and a shorter group raises IndexError. */
  lemma ListItemStored(items: seq<Item>, item: Item)
    requires FromList(items).Ok?
    ensures var p, n := FromList(items).value, |items| + 1;
            var r := FromList(items + [item]);
            && (item.Plain? ==> r == Ok(Put(p, IntToString(n), item.colour)))
            && (item.Group? && |item.parts| < 2 ==> r == Err(ShortItem(n)))
            && (item.Group? && |item.parts| >= 2 ==> r == Ok(Put(p, StrOf(item.parts[0]), item.parts[1])))
  {
    assert (items + [item])[..|items|] == items;
  }

  /** A group whose key is already present overwrites the value in the key's
      first position; any group leaves every other key's value alone. */
  lemma RepeatedKeyKeepsFirstPosition(items: seq<Item>, parts: seq<Value>)
    requires FromList(items).Ok? && |parts| >= 2
    ensures var p, k := FromList(items).value, StrOf(parts[0]);
            var r := FromList(items + [Group(parts)]);
            && r.Ok?
            && Keys(r.value) == (if k in Keys(p) then Keys(p) else Keys(p) + [k])
            && Get(r.value, k) == Some(parts[1])
            && forall k' :: k' != k ==> Get(r.value, k') == Get(p, k')
  {
    var p, k := FromList(items).value, StrOf(parts[0]);
    ListItemStored(items, Group(parts));
    PutKeys(p, k, parts[1]);
    PutGet(p, k, parts[1], k);
    forall k' | k' != k
      ensures Get(Put(p, k, parts[1]), k') == Get(p, k')
    {
      PutGet(p, k, parts[1], k');
    }
  }

  /** A dict whose keys stay distinct under `str()` is stored entry for entry,
      in the same order. */
  lemma {:induction false} DictKeepsOrder(entries: seq<(Value, Value)>)
    requires forall i, j :: 0 <= i < j < |entries| ==> StrOf(entries[i].0) != StrOf(entries[j].0)
    ensures |FromDict(entries)| == |entries|
    ensures forall i :: 0 <= i < |entries| ==> FromDict(entries)[i] == (StrOf(entries[i].0), entries[i].1)
  {
    if entries != [] {
      var n := |entries|;
      var init := entries[..n - 1];
      DictKeepsOrder(init);
      var p := FromDict(init);
      var key := StrOf(entries[n - 1].0);
      assert key !in Keys(p) by {
        forall i | 0 <= i < |p| ensures Keys(p)[i] != key {
          assert Keys(p)[i] == StrOf(entries[i].0);
        }
      }
      PutNewKey(p, key, entries[n - 1].1);
    }
  }

  // ---------------------------------------------------------------------------
  // The store

  const DutchField: Palette := [
    ("red", Text("#e60049")), ("blue", Text("#0bb4ff")), ("green", Text("#50e991")),
    ("yellow", Text("#e6d800")), ("purple", Text("#9b19f5")), ("orange", Text("#ffa300")),
    ("magenta", Text("#dc0ab4")), ("lightblue", Text("#b3d4ff")), ("turquoise", Text("#00bfa0"))]

  const SpringPastels: Palette := [
    ("red", Text("#fd7f6f")), ("blue", Text("#7eb0d5")), ("green", Text("#b2e061")),
    ("purple", Text("#bd7ebe")), ("orange", Text("#ffb55a")), ("yellow", Text("#ffee65")),
    ("lightpurple", Text("#beb9db")), ("pink", Text("#fdcce5")), ("turquoise", Text("#8bd3c7"))]

  const RiverNights: Palette := [
    ("red", Text("#b30000")), ("darkpurple", Text("#7c1158")), ("purple", Text("#4421af")),
    ("darkblue", Text("#1a53ff")), ("blue", Text("#0d88e6")), ("cyan", Text("#00b7c7")),
    ("green", Text("#5ad45a")), ("lightgreen", Text("#8be04e")), ("yellow", Text("#ebdc78"))]

  function Defaults(): map<string, Palette> {
    map["dutch_field" := DutchField, "spring_pastels" := SpringPastels, "river_nights" := RiverNights]
  }

  /** The store starts with exactly three palettes of nine distinct keys each. */
  lemma DefaultsShape()
    ensures Defaults().Keys == {"dutch_field", "spring_pastels", "river_nights"}
    ensures forall n :: n in Defaults() ==> |Defaults()[n]| == 9 && UniqueKeys(Defaults()[n])
  {
  }

  class ColorPalette {
    var palettes: map<string, Palette>
    var active: Option<Palette>

    /** Every stored palette is a dict (unique keys), and so is the active one. */
    ghost predicate Valid()
      reads this
    {
      && (forall n :: n in palettes ==> UniqueKeys(palettes[n]))
      && (active.Some? ==> UniqueKeys(active.value))
    }

    constructor ()
      ensures Valid()
      ensures palettes == Defaults() && active == None
    {
      palettes := Defaults();
      active := None;
    }

    /** `add_palette`: store the palette built from `colours` under `name`,
        replacing only that name; raise on a bad argument and change nothing. */
    method AddPalette(name: string, colours: Colours) returns (err: Option<PaletteError>)
      requires Valid()
      modifies this
      ensures Valid()
      ensures Build(colours).Ok? ==> err == None && palettes == old(palettes)[name := Build(colours).value]
      ensures Build(colours).Err? ==> err == Some(Build(colours).error) && palettes == old(palettes)
      ensures active == old(active)
    {
      err := None;
      match colours
      case ListOf(items) =>
        var built := BuildFromList(items);
        if built.Err? {
          return Some(built.error);
        }
        palettes := palettes[name := built.value];
      case DictOf(entries) =>
        palettes := palettes[name := FromDict(entries)];
      case OtherShape =>
        err := Some(NotListOrDict);
    }

    /** `get_palette`: the stored palette or None. */
    function GetPalette(name: string): (r: Option<Palette>)
      reads this
      ensures r.Some? <==> name in palettes
      ensures r.Some? ==> r.value == palettes[name]
    {
      if name in palettes then Some(palettes[name]) else None
    }

    /** `load_palette`: activate a palette that exists and is not empty;
        otherwise raise and leave the active palette alone. */
    method LoadPalette(name: string) returns (err: Option<PaletteError>)
      requires Valid()
      modifies this
      ensures Valid()
      ensures palettes == old(palettes)
      ensures err.None? <==> name in palettes && palettes[name] != []
      ensures err.None? ==> active == Some(palettes[name])
      ensures err.Some? ==> err == Some(NoSuchPalette(name)) && active == old(active)
    {
      var palette := GetPalette(name);
      if palette.Some? && palette.value != [] {
        active := palette;
        err := None;
      } else {
        err := Some(NoSuchPalette(name));
      }
    }

    /** `use`: look a colour up in the active palette; raise when there is none. */
    function Use(sel: Selector): (r: Result<Option<Value>, PaletteError>)
      reads this
      ensures active.None? || active.value == [] ==> r == Err(NoActivePalette)
      ensures active.Some? && active.value != [] ==> r == Lookup(active.value, sel)
    {
      if active.None? || active.value == [] then Err(NoActivePalette) else Lookup(active.value, sel)
    }

    /** `store[name]`: an accessor on a stored, non-empty palette; KeyError otherwise. */
    function At(name: string): (r: Result<Accessor, PaletteError>)
      reads this
      ensures r.Ok? <==> name in palettes && palettes[name] != []
      ensures r.Ok? ==> r.value.palette == palettes[name]
      ensures r.Err? ==> r.error == NoSuchPalette(name)
    {
      var palette := GetPalette(name);
      if palette.Some? && palette.value != [] then Ok(Accessor(palette.value)) else Err(NoSuchPalette(name))
    }

    /** `store.name`: the attribute-style accessor, which also hands out an
        empty palette. */
    function Attribute(name: string): (r: Result<Accessor, PaletteError>)
      reads this
      ensures r.Ok? <==> name in palettes
      ensures r.Ok? ==> r.value.palette == palettes[name]
      ensures r.Err? ==> r.error == NoSuchAttribute(name)
    {
      if name in palettes then Ok(Accessor(palettes[name])) else Err(NoSuchAttribute(name))
    }
  }

  /** After a successful `load_palette(name)`, `use` answers every lookup
      exactly as `store[name]` does. */
  method LoadThenUse(store: ColorPalette, name: string, sel: Selector) returns (err: Option<PaletteError>)
    requires store.Valid()
    modifies store
    ensures err.None? ==> store.At(name).Ok? && store.Use(sel) == store.At(name).value.Item(sel)
    ensures err.Some? ==> store.At(name).Err?
  {
    err := store.LoadPalette(name);
    if err.None? {
      LookupByIndex(store.active.value, sel);
    }
  }
}
