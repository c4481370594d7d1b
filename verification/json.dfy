/** The JSON-like values the layout engine returns for a block's `res` field,
    and the text extraction that tolerates any shape of them. */
module Json {

  /** A Python value as the layout engine hands it over: a dict keyed by strings,
      a list, a string, an integer, or anything else (None, floats, images, ...). */
  datatype Value =
    | Dict(fields: map<string, Value>)
    | List(items: seq<Value>)
    | Str(s: string)
    | Int(i: int)
    | Other

  /** `d.get(key)` on a dict: the missing key reads as None. */
  function Get(fields: map<string, Value>, key: string): Value
  {
    if key in fields then fields[key] else Other
  }

  /** The element is a dict that carries a "text" entry. */
  predicate HasText(v: Value)
  {
    v.Dict? && "text" in v.fields
  }

  /** The texts one list element contributes: its "text" entry, or nothing. */
  function TextOf(v: Value): (r: seq<Value>)
  {
    if HasText(v) then [v.fields["text"]] else []
  }

  /** The loop over a list result, element by element. */
  function TextsOf(items: seq<Value>): seq<Value>
    decreases |items|
  {
    if |items| == 0 then [] else TextsOf(items[..|items| - 1]) + TextOf(items[|items| - 1])
  }

  /** Never raises: a dict with "text" gives that text, a list gives the texts of
      its dict elements that have one (one entry each), anything else gives nothing. */
  function ExtractTextSafe(res: Value): (r: seq<Value>)
    ensures !res.Dict? && !res.List? ==> r == []
    ensures res.Dict? ==> r == (if "text" in res.fields then [res.fields["text"]] else [])
    ensures res.List? ==> |r| == |set i | 0 <= i < |res.items| && HasText(res.items[i])|
    ensures res.List? ==> forall t :: t in r <==>
      exists i :: 0 <= i < |res.items| && HasText(res.items[i]) && res.items[i].fields["text"] == t
  {
    match res
    case Dict(fields) => if "text" in fields then [fields["text"]] else []
    case List(items) => TextsOfLength(items); TextsOfMembers(items); TextsOf(items)
    case _ => []
  }

  /** Splitting a list result splits its texts: the extraction keeps element order. */
  lemma {:induction false} TextsOfAppend(a: seq<Value>, b: seq<Value>)
    ensures TextsOf(a + b) == TextsOf(a) + TextsOf(b)
    decreases |b|
  {
    if |b| == 0 {
      assert a + b == a;
    } else {
      var b0 := b[..|b| - 1];
      assert (a + b)[..|a + b| - 1] == a + b0;
      TextsOfAppend(a, b0);
    }
  }

  /** Each element that has a text contributes exactly one entry, every other
      element none. */
  lemma {:induction false} TextsOfLength(items: seq<Value>)
    ensures |TextsOf(items)| == |set i | 0 <= i < |items| && HasText(items[i])|
    ensures |TextsOf(items)| <= |items|
    decreases |items|
  {
    if |items| > 0 {
      var n := |items| - 1;
      var prefix := items[..n];
      TextsOfLength(prefix);
      var before := set i | 0 <= i < n && HasText(prefix[i]);
      var all := set i | 0 <= i < |items| && HasText(items[i]);
      assert before == set i | 0 <= i < n && HasText(items[i]);
      if HasText(items[n]) {
        assert all == before + {n};
      } else {
        assert all == before;
      }
    }
  }

  /** Every extracted text is the "text" of some element, and every element with a
      text has it extracted. */
  lemma {:induction false} TextsOfMembers(items: seq<Value>)
    ensures forall t :: t in TextsOf(items) ==>
      exists i :: 0 <= i < |items| && HasText(items[i]) && items[i].fields["text"] == t
    ensures forall i :: 0 <= i < |items| && HasText(items[i]) ==> items[i].fields["text"] in TextsOf(items)
    decreases |items|
  {
    if |items| > 0 {
      var n := |items| - 1;
      var prefix := items[..n];
      TextsOfMembers(prefix);
      assert forall i :: 0 <= i < n ==> prefix[i] == items[i];
    }
  }
}
