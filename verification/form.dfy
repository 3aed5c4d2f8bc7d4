/** The form encoder `buildForm` (scraper.go): it walks a Go map and glues
    `key=value` segments together with `&`, with no escaping. Go leaves the
    map's iteration order unspecified, so the order is a parameter. */
module Form {
  import opened Base
  import opened GoStrings

  /** `order` visits every key in `keys` exactly once. */
  ghost predicate IsKeyOrder(order: seq<string>, keys: set<string>) {
    && (forall k :: 0 <= k < |order| ==> order[k] in keys)
    && (forall key :: key in keys ==> key in order)
    && Distinct(order)
  }

  /** The `key=value` segments in visiting order. */
  function Segments(values: map<string, string>, order: seq<string>): (segs: seq<string>)
    requires forall k :: 0 <= k < |order| ==> order[k] in values
    ensures |segs| == |order|
    ensures forall k :: 0 <= k < |order| ==> segs[k] == order[k] + "=" + values[order[k]]
  {
    if |order| == 0 then []
    else [order[0] + "=" + values[order[0]]] + Segments(values, order[1..])
  }

  /** The key/value pairs in visiting order. */
  function Pairs(values: map<string, string>, order: seq<string>): (ps: seq<(string, string)>)
    requires forall k :: 0 <= k < |order| ==> order[k] in values
    ensures |ps| == |order|
    ensures forall k :: 0 <= k < |order| ==> ps[k] == (order[k], values[order[k]])
  {
    if |order| == 0 then []
    else [(order[0], values[order[0]])] + Pairs(values, order[1..])
  }

  /** Reference definition: the segments separated by single `&`s. */
  function Join(segs: seq<string>): string {
    if |segs| == 0 then ""
    else if |segs| == 1 then segs[0]
    else segs[0] + "&" + Join(segs[1..])
  }

  /** One loop iteration of `buildForm`: add `&` unless the form is still
      empty, then the next segment. */
  function Append(form: string, segment: string): string {
    (if form != "" then form + "&" else form) + segment
  }

  function Fold(form: string, segs: seq<string>): string
    decreases |segs|
  {
    if |segs| == 0 then form else Fold(Append(form, segs[0]), segs[1..])
  }

  /** `buildForm(values)` with the map visited in `order`. */
  function BuildForm(values: map<string, string>, order: seq<string>): string
    requires forall k :: 0 <= k < |order| ==> order[k] in values
  {
    Fold("", Segments(values, order))
  }

  /** Continuing a non-empty form appends `&` and the joined segments. */
  lemma {:induction false} FoldFromNonEmpty(form: string, segs: seq<string>)
    requires form != ""
    ensures Fold(form, segs) == if |segs| == 0 then form else form + "&" + Join(segs)
    decreases |segs|
  {
    if |segs| > 0 {
      FoldFromNonEmpty(Append(form, segs[0]), segs[1..]);
      if |segs| > 1 {
        assert form + "&" + segs[0] + "&" + Join(segs[1..])
            == form + "&" + (segs[0] + "&" + Join(segs[1..]));
      }
    }
  }

  /** The encoder agrees with the reference join: an empty map gives the
      empty form, and n pairs give n segments separated by n - 1 `&`s. */
  lemma BuildFormIsJoin(values: map<string, string>, order: seq<string>)
    requires IsKeyOrder(order, values.Keys)
    ensures BuildForm(values, order) == Join(Segments(values, order))
    ensures values == map[] ==> BuildForm(values, order) == ""
  {
    var segs := Segments(values, order);
    if |segs| > 0 {
      assert |segs[0]| > 0;
      assert Append("", segs[0]) == segs[0];
      FoldFromNonEmpty(segs[0], segs[1..]);
    }
  }

  /** Splitting on every `&` (`strings.Split(s, "&")`). */
  function SplitAmp(s: string): (parts: seq<string>)
    ensures |parts| >= 1
  {
    if |s| == 0 then [""]
    else
      var rest := SplitAmp(s[1..]);
      if s[0] == '&' then [""] + rest else [[s[0]] + rest[0]] + rest[1..]
  }

  /** A segment read back as `key=value`, cut at the first `=`. */
  function ParsePair(segment: string): (string, string) {
    var key := BeforeFirst(segment, '=');
    (key, if |key| < |segment| then segment[|key| + 1..] else "")
  }

  /** Decoding a form body into its pairs, in order. */
  function ParseForm(body: string): seq<(string, string)> {
    if body == "" then []
    else
      var parts := SplitAmp(body);
      seq(|parts|, k requires 0 <= k < |parts| => ParsePair(parts[k]))
  }

  lemma {:induction false} SplitAfter(a: string, b: string)
    requires '&' !in a
    ensures SplitAmp(a + "&" + b) == [a] + SplitAmp(b)
    decreases |a|
  {
    if |a| == 0 {
      assert a + "&" + b == "&" + b;
      assert ("&" + b)[1..] == b;
    } else {
      SplitAfter(a[1..], b);
      assert (a + "&" + b)[1..] == a[1..] + "&" + b;
      assert [a[0]] + a[1..] == a;
    }
  }

  lemma {:induction false} SplitWhole(a: string)
    requires '&' !in a
    ensures SplitAmp(a) == [a]
    decreases |a|
  {
    if |a| > 0 {
      SplitWhole(a[1..]);
      assert [a[0]] + a[1..] == a;
    }
  }

  lemma {:induction false} SplitJoin(segs: seq<string>)
    requires |segs| >= 1
    requires forall k :: 0 <= k < |segs| ==> '&' !in segs[k]
    ensures SplitAmp(Join(segs)) == segs
  {
    if |segs| == 1 {
      SplitWhole(segs[0]);
    } else {
      SplitJoin(segs[1..]);
      SplitAfter(segs[0], Join(segs[1..]));
    }
  }

  lemma {:induction false} CutAtEquals(key: string, value: string)
    requires '=' !in key
    ensures ParsePair(key + "=" + value) == (key, value)
    decreases |key|
  {
    var seg := key + "=" + value;
    if |key| == 0 {
      assert seg[0] == '=';
      assert seg[1..] == value;
    } else {
      CutAtEquals(key[1..], value);
      assert seg[1..] == key[1..] + "=" + value;
      assert BeforeFirst(seg, '=') == [key[0]] + key[1..] == key;
      assert seg[|key| + 1..] == value;
    }
  }

  /** Round trip: when no key holds `&` or `=` and no value holds `&`, the
      form decodes back to exactly the pairs it was built from, in the order
      the map was visited. */
  lemma FormRoundTrip(values: map<string, string>, order: seq<string>)
    requires IsKeyOrder(order, values.Keys)
    requires Clean(values)
    ensures ParseForm(BuildForm(values, order)) == Pairs(values, order)
  {
    BuildFormIsJoin(values, order);
    var segs := Segments(values, order);
    if |segs| > 0 {
      forall k | 0 <= k < |segs| ensures '&' !in segs[k] {
        assert segs[k] == order[k] + "=" + values[order[k]];
      }
      SplitJoin(segs);
      assert segs[0][|order[0]|] == '=';
      if |segs| > 1 {
        assert Join(segs) == segs[0] + "&" + Join(segs[1..]);
      }
      assert Join(segs) != "";
      forall k | 0 <= k < |segs| ensures ParsePair(segs[k]) == (order[k], values[order[k]]) {
        CutAtEquals(order[k], values[order[k]]);
      }
    }
  }

  /** The round trip as an implication, for callers whose fields may or may
      not contain the separators. */
  lemma RoundTripWhenClean(values: map<string, string>, order: seq<string>)
    requires IsKeyOrder(order, values.Keys)
    ensures Clean(values) ==> ParseForm(BuildForm(values, order)) == Pairs(values, order)
  {
    if Clean(values) {
      FormRoundTrip(values, order);
    }
  }

  /** No key holds `&` or `=`, and no value holds `&`. */
  ghost predicate Clean(values: map<string, string>) {
    forall key :: key in values ==> '&' !in key && '=' !in key && '&' !in values[key]
  }

  /** Every pair of a clean map can be read back from the encoded form. */
  lemma FormCarriesPair(values: map<string, string>, order: seq<string>, key: string)
    requires IsKeyOrder(order, values.Keys) && Clean(values) && key in values
    ensures (key, values[key]) in ParseForm(BuildForm(values, order))
  {
    FormRoundTrip(values, order);
    var i :| 0 <= i < |order| && order[i] == key;
    assert Pairs(values, order)[i] == (key, values[key]);
  }
}
