/**
 * JSON values as the agent client sees them once a reply body is decoded,
 * and the parts of Python's container semantics the client relies on.
 * Python's `None` is JSON `null`, so `JNull` stands for both.
 */
module JsonValues {
  import opened Wrappers

  datatype Json =
    | JNull
    | JBool(b: bool)
    | JNumber(n: int)
    | JString(s: string)
    | JArray(items: seq<Json>)
    | JObject(fields: map<string, Json>)

  /** Python's `needle in hay` for two strings: a contiguous occurrence. */
  predicate OccursIn(needle: string, hay: string)
    decreases |hay|
  {
    needle <= hay || (|hay| > 0 && OccursIn(needle, hay[1..]))
  }

  /** `needle` occurs in `hay` starting at position `i`. */
  ghost predicate OccursAt(needle: string, hay: string, i: int) {
    0 <= i && i + |needle| <= |hay| && hay[i..i + |needle|] == needle
  }

  /** Reference definition of a substring, by position. */
  ghost predicate IsSubstring(needle: string, hay: string) {
    exists i :: OccursAt(needle, hay, i)
  }

  lemma {:induction false} OccursInIsSubstring(needle: string, hay: string)
    ensures OccursIn(needle, hay) <==> IsSubstring(needle, hay)
    decreases |hay|
  {
    if needle <= hay {
      assert OccursAt(needle, hay, 0);
    } else if |hay| > 0 {
      OccursInIsSubstring(needle, hay[1..]);
      if IsSubstring(needle, hay) {
        var i :| OccursAt(needle, hay, i);
        assert i != 0;
        assert hay[1..][i - 1..i - 1 + |needle|] == hay[i..i + |needle|];
        assert OccursAt(needle, hay[1..], i - 1);
      }
      if IsSubstring(needle, hay[1..]) {
        var i :| OccursAt(needle, hay[1..], i);
        assert hay[i + 1..i + 1 + |needle|] == hay[1..][i..i + |needle|];
        assert OccursAt(needle, hay, i + 1);
      }
    }
  }

  /**
   * Python's `item in container` for a string `item`: key membership for an
   * object, element equality for an array, substring for a string. Any
   * other value raises a TypeError, written `None` here.
   */
  function Contains(container: Json, item: string): Option<bool> {
    match container
    case JObject(fields) => Some(item in fields)
    case JArray(items) => Some(JString(item) in items)
    case JString(s) => Some(OccursIn(item, s))
    case _ => None
  }

  /** Python's `value.get(key, default)` on an object. */
  function GetOr(value: Json, key: string, default: Json): Json
    requires value.JObject?
  {
    if key in value.fields then value.fields[key] else default
  }
}
