/** The parsed `pyproject.toml` tree and the dictionary look-ups check-sdist performs on it. */
module Toml {
  import opened Outcomes

  /** A configuration value as the TOML parser hands it over (floats and dates are not modelled). */
  datatype Value =
    | Str(s: string)
    | Int(i: int)
    | Bool(b: bool)
    | Arr(items: seq<Value>)
    | Table(fields: map<string, Value>)

  const EmptyTable: Value := Table(map[])
  const EmptyArray: Value := Arr([])

  /** Python truthiness, as used by `if default_ignore:`. */
  predicate Truthy(v: Value) {
    match v
    case Str(s) => s != ""
    case Int(i) => i != 0
    case Bool(b) => b
    case Arr(xs) => xs != []
    case Table(m) => m != map[]
  }

  /** `v.get(key, default)`: only a table has `.get`, anything else raises. */
  function Get(v: Value, key: string, default: Value): Result<Value> {
    if !v.Table? then Err(WrongType(key))
    else if key in v.fields then Ok(v.fields[key])
    else Ok(default)
  }

  /** `v.get(k1, {}).get(k2, {})...` along `keys`, each missing level defaulting to an empty table. */
  function Dig(v: Value, keys: seq<string>): (r: Result<Value>)
    ensures r.Err? ==> r.error.WrongType?
    ensures keys != [] && !v.Table? ==> r == Err(WrongType(keys[0]))
    decreases |keys|
  {
    if keys == [] then Ok(v)
    else
      var w :- Get(v, keys[0], EmptyTable);
      Dig(w, keys[1..])
  }

  /** `root.get(t1, {})...get(tn, {}).get(key, default)`, the shape of every configuration read. */
  function Setting(root: map<string, Value>, tables: seq<string>, key: string, default: Value): Result<Value> {
    var t :- Dig(Table(root), tables);
    Get(t, key, default)
  }

  /** The strings of a list whose every element is a string; any other element is an error. */
  function Texts(items: seq<Value>, key: string): (r: Result<seq<string>>)
    ensures r.Ok? <==> forall i :: 0 <= i < |items| ==> items[i].Str?
    ensures r.Err? ==> r.error == WrongType(key)
    ensures r.Ok? ==> |r.value| == |items| && forall i :: 0 <= i < |items| ==> r.value[i] == items[i].s
    decreases |items|
  {
    if items == [] then Ok([])
    else if !items[0].Str? then Err(WrongType(key))
    else
      var rest :- Texts(items[1..], key);
      Ok([items[0].s] + rest)
  }

  /** A configuration value used as a list of patterns: it must be an array of strings. */
  function Strings(v: Value, key: string): (r: Result<seq<string>>)
    ensures r.Ok? <==> v.Arr? && forall i :: 0 <= i < |v.items| ==> v.items[i].Str?
    ensures r.Ok? ==> |r.value| == |v.items| && forall i :: 0 <= i < |v.items| ==> r.value[i] == v.items[i].s
  {
    if v.Arr? then Texts(v.items, key) else Err(WrongType(key))
  }

  /** A pattern list read from the configuration, an empty list when the key is absent. */
  function PatternSetting(root: map<string, Value>, tables: seq<string>, key: string): Result<seq<string>> {
    var v :- Setting(root, tables, key, EmptyArray);
    Strings(v, key)
  }

  /** Digging into an empty table finds nothing at any depth. */
  lemma {:induction false} DigEmpty(keys: seq<string>)
    ensures Dig(EmptyTable, keys) == Ok(EmptyTable)
    decreases |keys|
  {
    if keys != [] {
      DigEmpty(keys[1..]);
    }
  }

  /** Digging along `a + b` digs along `a`, then along `b` from wherever `a` led. */
  lemma {:induction false} DigAppend(v: Value, a: seq<string>, b: seq<string>)
    ensures Dig(v, a + b) == (if Dig(v, a).Ok? then Dig(Dig(v, a).value, b) else Dig(v, a))
    decreases |a|
  {
    if a == [] {
      assert a + b == b;
    } else {
      assert (a + b)[0] == a[0];
      assert (a + b)[1..] == a[1..] + b;
      if Get(v, a[0], EmptyTable).Ok? {
        DigAppend(Get(v, a[0], EmptyTable).value, a[1..], b);
      }
    }
  }

  /** A chain that reaches a non-table and still has keys to look up raises at the next key. */
  lemma DigHitsNonTable(v: Value, a: seq<string>, b: seq<string>)
    requires Dig(v, a).Ok? && !Dig(v, a).value.Table? && b != []
    ensures Dig(v, a + b) == Err(WrongType(b[0]))
  {
    DigAppend(v, a, b);
  }

  /** A setting whose path stops at a table without the next key takes its default:
      a missing table anywhere on the way behaves like a missing key at the end. */
  lemma SettingAbsent(root: map<string, Value>, tables: seq<string>, key: string, default: Value,
                      i: nat, m: map<string, Value>)
    requires i <= |tables|
    requires Dig(Table(root), tables[..i]) == Ok(Table(m))
    requires i < |tables| ==> tables[i] !in m
    requires i == |tables| ==> key !in m
    ensures Setting(root, tables, key, default) == Ok(default)
  {
    assert tables == tables[..i] + tables[i..];
    DigAppend(Table(root), tables[..i], tables[i..]);
    if i < |tables| {
      assert Dig(Table(m), tables[i..]) == Dig(EmptyTable, tables[i + 1..]);
      DigEmpty(tables[i + 1..]);
    } else {
      assert tables[i..] == [];
    }
  }

  /** A pattern list whose path is absent from the configuration is empty. */
  lemma PatternSettingAbsent(root: map<string, Value>, tables: seq<string>, key: string,
                             i: nat, m: map<string, Value>)
    requires i <= |tables|
    requires Dig(Table(root), tables[..i]) == Ok(Table(m))
    requires i < |tables| ==> tables[i] !in m
    requires i == |tables| ==> key !in m
    ensures PatternSetting(root, tables, key) == Ok([])
  {
    SettingAbsent(root, tables, key, EmptyArray, i, m);
  }
}
