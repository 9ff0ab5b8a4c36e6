/** The frozen `FieldInfo` record: display metadata for one simulation field,
    viewed as a read-only mapping over five fixed keys. */
module Metadata {
  import opened Wrappers

  /** A value the mapping view can hand out: one of the record's fields. */
  datatype FieldValue =
    | Text(text: string)                  // label, symbol, group
    | TextList(items: seq<string>)        // options
    | TextMap(entries: map<string, string>)  // units

  /** The record. A Dafny datatype value cannot be updated in place, which is
      what the frozen dataclass promises. */
  datatype FieldInfo = FieldInfo(
    fieldLabel: string,  // `label` in Python (a reserved word here)
    symbol: string,
    options: seq<string>,
    units: map<string, string>,
    group: string)

  datatype LookupError = KeyError(key: string)

  /** The keys of the mapping view, in iteration order. */
  const FieldKeys: seq<string> := ["label", "symbol", "options", "units", "group"]

  /** Construction with only the required label: every other field takes its default. */
  function WithLabel(text: string): (info: FieldInfo)
    ensures info.fieldLabel == text
    ensures info.symbol == "" && info.options == [] && info.units == map[] && info.group == ""
  {
    FieldInfo(text, "", [], map[], "")
  }

  /** The instance `__dict__` of the dataclass: the five fields under their
      own names, in declaration order. */
  function InstanceDict(info: FieldInfo): (d: seq<(string, FieldValue)>)
    ensures |d| == 5
  {
    [("label", Text(info.fieldLabel)), ("symbol", Text(info.symbol)),
     ("options", TextList(info.options)), ("units", TextMap(info.units)),
     ("group", Text(info.group))]
  }

  /** Python dict lookup in a list of entries. */
  function Find(d: seq<(string, FieldValue)>, key: string): (r: Option<FieldValue>)
    ensures r.Some? <==> exists i :: 0 <= i < |d| && d[i].0 == key
  {
    if d == [] then None
    else if d[0].0 == key then Some(d[0].1)
    else Find(d[1..], key)
  }

  /** A lookup finds the first entry carrying the key. */
  lemma {:induction false} FindFirst(d: seq<(string, FieldValue)>, key: string, i: nat)
    requires i < |d| && d[i].0 == key
    requires forall j :: 0 <= j < i ==> d[j].0 != key
    ensures Find(d, key) == Some(d[i].1)
  {
    if i > 0 {
      FindFirst(d[1..], key, i - 1);
    }
  }

  /** `info[key]`: the attribute of that name when it is in the instance dict,
      KeyError for any other key. */
  function Get(info: FieldInfo, key: string): (r: Result<FieldValue, LookupError>)
    ensures r.Ok? <==> key in FieldKeys
    ensures r.Err? ==> r.error == KeyError(key)
  {
    var d := InstanceDict(info);
    assert forall i :: 0 <= i < |d| ==> d[i].0 == FieldKeys[i];
    match Find(d, key)
    case Some(v) => Ok(v)
    case None => Err(KeyError(key))
  }

  /** Each of the five keys hands out exactly its own field. */
  lemma GetReturnsField(info: FieldInfo)
    ensures Get(info, "label") == Ok(Text(info.fieldLabel))
    ensures Get(info, "symbol") == Ok(Text(info.symbol))
    ensures Get(info, "options") == Ok(TextList(info.options))
    ensures Get(info, "units") == Ok(TextMap(info.units))
    ensures Get(info, "group") == Ok(Text(info.group))
  {
    var d := InstanceDict(info);
    FindFirst(d, "label", 0);
    FindFirst(d, "symbol", 1);
    FindFirst(d, "options", 2);
    FindFirst(d, "units", 3);
    FindFirst(d, "group", 4);
  }

  /** `key in info`, which the mapping mixin answers by trying `info[key]`. */
  function Contains(info: FieldInfo, key: string): (b: bool)
    ensures b <==> key in FieldKeys
  {
    Get(info, key).Ok?
  }

  /** `iter(info)`: the five keys, always in the same order. */
  function Iter(info: FieldInfo): (keys: seq<string>)
    ensures |keys| == 5
    ensures keys[0] == "label" && keys[1] == "symbol" && keys[2] == "options"
    ensures keys[3] == "units" && keys[4] == "group"
    ensures forall k :: k in keys <==> Contains(info, k)
  {
    FieldKeys
  }

  /** `len(info)`: the size of the instance dict, always five. */
  function Len(info: FieldInfo): (n: nat)
    ensures n == 5 && n == |Iter(info)|
  {
    |InstanceDict(info)|
  }

  /** The dict that `repr(info)` prints: each key of the iteration paired with
      what `info[key]` returns, in iteration order. */
  function ReprView(info: FieldInfo): (view: seq<(string, FieldValue)>)
    ensures |view| == |Iter(info)|
    ensures forall i :: 0 <= i < |view| ==>
      view[i].0 == Iter(info)[i] && Get(info, view[i].0) == Ok(view[i].1)
  {
    seq(|FieldKeys|, i requires 0 <= i < |FieldKeys| => (FieldKeys[i], Get(info, FieldKeys[i]).value))
  }

  /** The mapping view loses nothing: two records that answer every lookup
      alike are the same record. */
  lemma ViewDeterminesRecord(a: FieldInfo, b: FieldInfo)
    requires forall k :: k in FieldKeys ==> Get(a, k) == Get(b, k)
    ensures a == b
  {
    GetReturnsField(a);
    GetReturnsField(b);
    assert Get(a, "label") == Get(b, "label");
    assert Get(a, "symbol") == Get(b, "symbol");
    assert Get(a, "options") == Get(b, "options");
    assert Get(a, "units") == Get(b, "units");
    assert Get(a, "group") == Get(b, "group");
  }

  /** The printed form of a record built from a label alone. */
  lemma ReprOfLabelOnly(text: string)
    ensures ReprView(WithLabel(text)) ==
      [("label", Text(text)), ("symbol", Text("")), ("options", TextList([])),
       ("units", TextMap(map[])), ("group", Text(""))]
  {
    GetReturnsField(WithLabel(text));
    var v := ReprView(WithLabel(text));
    assert v[0].0 == "label" && v[1].0 == "symbol" && v[2].0 == "options";
    assert v[3].0 == "units" && v[4].0 == "group";
  }
}
