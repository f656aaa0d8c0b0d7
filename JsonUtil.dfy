/**
 * `parse_json` (app/utils/json.py): the recursive conversion that turns
 * every MongoDB ObjectId inside a document into its string form.
 */
module JsonUtil {

  /**
   * A value a MongoDB document can hold. A dictionary is its list of
   * members in insertion order; an ObjectId is held as its 24 lower-case
   * hexadecimal digits, which is also what `str()` gives for it.
   */
  datatype JsonValue =
    | Null
    | Bool(b: bool)
    | Number(x: real)
    | Text(s: string)
    | ObjectId(hex: string)
    | List(items: seq<JsonValue>)
    | Dict(members: seq<Member>)

  datatype Member = Member(key: string, value: JsonValue)

  /** The keys of a dictionary, in order. */
  function Keys(members: seq<Member>): (ks: seq<string>)
    ensures |ks| == |members|
    ensures forall i :: 0 <= i < |members| ==> ks[i] == members[i].key
  {
    seq(|members|, i requires 0 <= i < |members| => members[i].key)
  }

  /** `parse_json`: ObjectIds become strings, lists and dictionaries are converted item by item. */
  function ParseJson(v: JsonValue): (r: JsonValue)
    decreases v
  {
    match v
    case ObjectId(hex) => Text(hex)
    case List(items) => List(seq(|items|, i requires 0 <= i < |items| => ParseJson(items[i])))
    case Dict(members) =>
      Dict(seq(|members|, i requires 0 <= i < |members| => Member(members[i].key, ParseJson(members[i].value))))
    case _ => v
  }

  /** No ObjectId occurs anywhere in `v`. */
  predicate NoObjectId(v: JsonValue)
    decreases v
  {
    match v
    case ObjectId(_) => false
    case List(items) => forall i :: 0 <= i < |items| ==> NoObjectId(items[i])
    case Dict(members) => forall i :: 0 <= i < |members| ==> NoObjectId(members[i].value)
    case _ => true
  }

  /**
   * The conversion keeps the shape: an ObjectId becomes the string of its
   * digits; a list keeps its length and order, each item converted; a
   * dictionary keeps its keys in order, each value converted; anything
   * else is returned as it is.
   */
  lemma ParseKeepsShape(v: JsonValue)
    ensures v.ObjectId? ==> ParseJson(v) == Text(v.hex)
    ensures v.List? ==> ParseJson(v).List? && |ParseJson(v).items| == |v.items|
                        && forall i :: 0 <= i < |v.items| ==> ParseJson(v).items[i] == ParseJson(v.items[i])
    ensures v.Dict? ==> ParseJson(v).Dict? && Keys(ParseJson(v).members) == Keys(v.members)
                        && forall i :: 0 <= i < |v.members| ==> ParseJson(v).members[i].value == ParseJson(v.members[i].value)
    ensures !v.ObjectId? && !v.List? && !v.Dict? ==> ParseJson(v) == v
  {
  }

  /** The result holds no ObjectId, at any depth. */
  lemma {:induction false} ParseLeavesNoObjectId(v: JsonValue)
    ensures NoObjectId(ParseJson(v))
    decreases v
  {
    match v
    case List(items) =>
      forall i | 0 <= i < |items| ensures NoObjectId(ParseJson(items[i])) {
        ParseLeavesNoObjectId(items[i]);
      }
    case Dict(members) =>
      forall i | 0 <= i < |members| ensures NoObjectId(ParseJson(members[i].value)) {
        ParseLeavesNoObjectId(members[i].value);
      }
    case _ =>
  }

  /** A value without ObjectIds is left unchanged. */
  lemma {:induction false} ParseKeepsClean(v: JsonValue)
    requires NoObjectId(v)
    ensures ParseJson(v) == v
    decreases v
  {
    match v
    case List(items) =>
      forall i | 0 <= i < |items| ensures ParseJson(items[i]) == items[i] {
        ParseKeepsClean(items[i]);
      }
      assert ParseJson(v).items == items;
    case Dict(members) =>
      forall i | 0 <= i < |members| ensures ParseJson(members[i].value) == members[i].value {
        ParseKeepsClean(members[i].value);
      }
      assert ParseJson(v).members == members;
    case _ =>
  }

  /** Converting twice is converting once. */
  lemma ParseIdempotent(v: JsonValue)
    ensures ParseJson(ParseJson(v)) == ParseJson(v)
  {
    ParseLeavesNoObjectId(v);
    ParseKeepsClean(ParseJson(v));
  }
}
