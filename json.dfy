/** The parsed JSON tree that cJSON hands to the configuration parser.
    Tokenising the text is done by the cJSON library, which is not part of this model;
    its result, a tree or no tree at all, is an input here. */
module Json {

  datatype Option<T> = None | Some(value: T)

  /** One cJSON node. Object members keep the order in which they appear in the text. */
  datatype Json =
    | Null
    | Bool(b: bool)
    | Number(n: int)
    | Str(s: string)
    | Array(items: seq<Json>)
    | Object(members: seq<(string, Json)>)

  /** `i` is the position of the first member called `key`. */
  ghost predicate IsFirstKey(members: seq<(string, Json)>, key: string, i: int)
  {
    0 <= i < |members| && members[i].0 == key &&
    forall k :: 0 <= k < i ==> members[k].0 != key
  }

  /** Walks the member list front to back and yields the value of the first member named `key`. */
  function FindMember(members: seq<(string, Json)>, key: string): (r: Option<Json>)
    ensures r.None? <==> forall i :: 0 <= i < |members| ==> members[i].0 != key
  {
    if |members| == 0 then None
    else if members[0].0 == key then Some(members[0].1)
    else
      var rest := FindMember(members[1..], key);
      assert forall i :: 1 <= i < |members| ==> members[i] == members[1..][i - 1];
      rest
  }

  /** The member found is the first one carrying that key ... */
  lemma {:induction false} FindMemberIsFirst(members: seq<(string, Json)>, key: string)
    requires FindMember(members, key).Some?
    ensures exists i :: IsFirstKey(members, key, i) && members[i].1 == FindMember(members, key).value
  {
    if members[0].0 == key {
      assert IsFirstKey(members, key, 0);
    } else {
      FindMemberIsFirst(members[1..], key);
      var i :| IsFirstKey(members[1..], key, i) && members[1..][i].1 == FindMember(members[1..], key).value;
      assert IsFirstKey(members, key, i + 1);
    }
  }

  /** ... and the first member carrying the key is the one found. */
  lemma {:induction false} FirstKeyIsFound(members: seq<(string, Json)>, key: string, i: int)
    requires IsFirstKey(members, key, i)
    ensures FindMember(members, key) == Some(members[i].1)
  {
    if i > 0 {
      assert members[0].0 != key;
      assert IsFirstKey(members[1..], key, i - 1);
      FirstKeyIsFound(members[1..], key, i - 1);
    }
  }

  /** cJSON_GetObjectItem: a member of an object by name; nodes that are not objects
      have no named members, so the lookup finds nothing on them. */
  function GetObjectItem(j: Json, key: string): Option<Json>
  {
    if j.Object? then FindMember(j.members, key) else None
  }
}
