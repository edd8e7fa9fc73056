/**
 * JSON values as JavaScript's JSON.parse produces them and as res.json()
 * sends them. Numbers are idealised as reals (JSON has no NaN or Infinity).
 * An object keeps its members in source order, duplicates included; reading
 * a member yields the LAST member of that name, as JSON.parse does.
 */
module Json {
  import opened Wrappers

  datatype Value =
    | Null
    | Bool(b: bool)
    | Number(n: real)
    | Str(s: string)
    | Array(items: seq<Value>)
    | Object(members: seq<(string, Value)>)

  /** The value bound to `key` in an object's member list: its last binding. */
  function Get(members: seq<(string, Value)>, key: string): (r: Option<Value>)
    ensures r.None? <==> forall i :: 0 <= i < |members| ==> members[i].0 != key
    ensures r.Some? ==>
      exists i :: 0 <= i < |members| && members[i] == (key, r.value) &&
        forall j :: i < j < |members| ==> members[j].0 != key
  {
    if |members| == 0 then None
    else if members[|members| - 1].0 == key then Some(members[|members| - 1].1)
    else Get(members[..|members| - 1], key)
  }

  /**
   * Property `key` of a non-null value, for the names the program reads
   * (none of which a string, number, boolean or array carries): a member of
   * an object, `undefined` (None) for every other kind of value.
   */
  function Member(v: Value, key: string): Option<Value> {
    if v.Object? then Get(v.members, key) else None
  }

  /** The member list with every binding of `key` dropped. */
  function Without(members: seq<(string, Value)>, key: string): (r: seq<(string, Value)>)
    ensures forall i :: 0 <= i < |r| ==> r[i].0 != key
    ensures |r| <= |members|
  {
    if |members| == 0 then []
    else
      var rest := Without(members[..|members| - 1], key);
      if members[|members| - 1].0 == key then rest else rest + [members[|members| - 1]]
  }

  /** Dropping the bindings of one name does not change what any other name reads. */
  lemma {:induction false} GetWithout(members: seq<(string, Value)>, key: string, other: string)
    requires other != key
    ensures Get(Without(members, key), other) == Get(members, other)
  {
    if |members| > 0 {
      var init := members[..|members| - 1];
      var last := members[|members| - 1];
      GetWithout(init, key, other);
      if last.0 != key {
        var w := Without(init, key) + [last];
        assert w[..|w| - 1] == Without(init, key);
      }
    }
  }
}
