/**
 * JSON values as the client sees them, without any textual encoding, and the
 * serialisation of a C# anonymous object (a list of named properties) into a
 * JSON object, with or without `NullValueHandling.Ignore`.
 */
module Json {
  import opened Wrappers

  /** A JSON value; numbers are exact rationals, so both 7 and 21.5 fit. */
  datatype Json =
    | JNull
    | JBool(b: bool)
    | JNumber(n: real)
    | JString(s: string)
    | JArray(items: seq<Json>)
    | JObject(members: map<string, Json>)

  /** A possibly-null C# string as a JSON value. */
  function OfString(s: Option<string>): (j: Json)
    ensures j.JNull? <==> s.None?
    ensures s.Some? ==> j == JString(s.value)
  {
    match s
    case None => JNull
    case Some(v) => JString(v)
  }

  /** One property of an anonymous object: its name and its value. */
  type Property = (string, Json)

  function Names(props: seq<Property>): set<string> {
    set i | 0 <= i < |props| :: props[i].0
  }

  /** C# refuses two properties of the same name in one anonymous object. */
  predicate DistinctNames(props: seq<Property>) {
    forall i, j :: 0 <= i < j < |props| ==> props[i].0 != props[j].0
  }

  /** Whether a property is written out: a null one is dropped only under `NullValueHandling.Ignore`. */
  predicate Emitted(p: Property, ignoreNulls: bool) {
    !(ignoreNulls && p.1.JNull?)
  }

  /**
   * `JsonConvert.SerializeObject` of an anonymous object: the properties are
   * written in order, each becoming a member with its value, except that a
   * null-valued one is skipped when `ignoreNulls` is set.
   */
  function SerializeObject(props: seq<Property>, ignoreNulls: bool): (r: map<string, Json>)
    ensures ignoreNulls ==> forall k :: k in r ==> !r[k].JNull?
  {
    if props == [] then map[]
    else
      var front := SerializeObject(props[..|props| - 1], ignoreNulls);
      var last := props[|props| - 1];
      if Emitted(last, ignoreNulls) then front[last.0 := last.1] else front
  }

  /** Dropping the last property keeps the names distinct. */
  lemma DistinctNamesFront(props: seq<Property>)
    requires props != [] && DistinctNames(props)
    ensures DistinctNames(props[..|props| - 1])
    ensures forall i :: 0 <= i < |props| - 1 ==> props[i].0 != props[|props| - 1].0
  {
    var front := props[..|props| - 1];
    forall i, j | 0 <= i < j < |front| ensures front[i].0 != front[j].0 {
      assert front[i] == props[i] && front[j] == props[j];
    }
  }

  /** The serialised object has no member that is not one of the properties. */
  lemma {:induction false} SerializeObjectKeys(props: seq<Property>, ignoreNulls: bool)
    ensures forall k :: k in SerializeObject(props, ignoreNulls) ==> k in Names(props)
  {
    if props != [] {
      var n := |props| - 1;
      var front := props[..n];
      SerializeObjectKeys(front, ignoreNulls);
      forall k | k in Names(front) ensures k in Names(props) {
        var i :| 0 <= i < n && front[i].0 == k;
        assert props[i].0 == k;
      }
      assert props[n].0 in Names(props);
    }
  }

  /**
   * With distinct property names, a property is a member of the serialised
   * object exactly when it is emitted, and then with its own value.
   */
  lemma {:induction false} SerializeObjectMembers(props: seq<Property>, ignoreNulls: bool)
    requires DistinctNames(props)
    ensures forall i :: 0 <= i < |props| ==>
      (props[i].0 in SerializeObject(props, ignoreNulls) <==> Emitted(props[i], ignoreNulls))
    ensures forall i :: 0 <= i < |props| && Emitted(props[i], ignoreNulls) ==>
      SerializeObject(props, ignoreNulls)[props[i].0] == props[i].1
  {
    if props != [] {
      var n := |props| - 1;
      var front := props[..n];
      DistinctNamesFront(props);
      SerializeObjectMembers(front, ignoreNulls);
      SerializeObjectKeys(front, ignoreNulls);
      forall i | 0 <= i < n ensures front[i] == props[i] { }
      assert props[n].0 !in Names(front);
    }
  }

  /**
   * The whole contract of the serialisation: with distinct names the object
   * holds the emitted properties, with their values, and nothing else.
   */
  lemma SerializeObjectSpec(props: seq<Property>, ignoreNulls: bool)
    requires DistinctNames(props)
    ensures forall k :: k in SerializeObject(props, ignoreNulls) ==> k in Names(props)
    ensures forall i :: 0 <= i < |props| ==>
      (props[i].0 in SerializeObject(props, ignoreNulls) <==> Emitted(props[i], ignoreNulls))
    ensures forall i :: 0 <= i < |props| && Emitted(props[i], ignoreNulls) ==>
      SerializeObject(props, ignoreNulls)[props[i].0] == props[i].1
  {
    SerializeObjectKeys(props, ignoreNulls);
    SerializeObjectMembers(props, ignoreNulls);
  }

  /** Appending a property to an anonymous object is adding (or skipping) that one member. */
  lemma SerializeObjectAppend(props: seq<Property>, p: Property, ignoreNulls: bool)
    ensures SerializeObject(props + [p], ignoreNulls)
         == if Emitted(p, ignoreNulls) then SerializeObject(props, ignoreNulls)[p.0 := p.1]
            else SerializeObject(props, ignoreNulls)
  {
    assert (props + [p])[..|props|] == props;
  }
}
