/** Values and string operations shared by the browser client, the Express
    server and the Flask backend: optional values, JavaScript truthiness of
    strings, the two languages' notions of white space, trimming, splitting
    on one character and searching for a substring. */
module Common {

  datatype Option<+T> = None | Some(value: T)

  /** What a client sees of one HTTP call: the JSON body of a 2xx reply, an
      error status, or no reply at all. */
  datatype Reply<B> = Ok(body: B) | HttpError(status: int) | NetworkError

  /** Truthiness of a value that is a string or absent (`null`/`undefined`):
      only a present, non-empty string is truthy, in JavaScript and (as
      `not x` negated) in Python alike. */
  predicate Truthy(o: Option<string>)
  {
    o.Some? && o.value != ""
  }

  /** Looks a key up in a string map, as `localStorage.getItem` and `dict.get` do. */
  function Get(m: map<string, string>, key: string): (r: Option<string>)
    ensures r.Some? <==> key in m
    ensures r.Some? ==> r.value == m[key]
  {
    if key in m then Some(m[key]) else None
  }

  /** ECMAScript WhiteSpace and LineTerminator code points, the set that
      `String.prototype.trim` and `parseInt` skip. */
  predicate IsJsSpace(c: char)
  {
    c == '\t' || c == '\n' || c == '\U{B}' || c == '\U{C}' || c == '\r' || c == ' '
    || c == '\U{A0}' || c == '\U{1680}' || ('\U{2000}' <= c <= '\U{200A}')
    || c == '\U{2028}' || c == '\U{2029}' || c == '\U{202F}' || c == '\U{205F}'
    || c == '\U{3000}' || c == '\U{FEFF}'
  }

  /** The code points for which Python's `str.isspace` holds, the set that
      `str.strip()` removes. */
  predicate IsPySpace(c: char)
  {
    ('\t' <= c <= '\r') || ('\U{1C}' <= c <= ' ') || c == '\U{85}' || c == '\U{A0}'
    || c == '\U{1680}' || ('\U{2000}' <= c <= '\U{200A}') || c == '\U{2028}' || c == '\U{2029}'
    || c == '\U{202F}' || c == '\U{205F}' || c == '\U{3000}'
  }

  /** Drops the longest prefix made of characters satisfying `ws`. */
  function TrimStart(s: string, ws: char -> bool): (r: string)
    ensures |r| <= |s| && r == s[|s| - |r|..]
    ensures r == [] || !ws(r[0])
    ensures forall i :: 0 <= i < |s| - |r| ==> ws(s[i])
  {
    if s != [] && ws(s[0]) then
      var r := TrimStart(s[1..], ws);
      assert s[1..][|s| - 1 - |r|..] == s[|s| - |r|..];
      assert forall i :: 1 <= i < |s| - |r| ==> s[i] == s[1..][i - 1];
      r
    else s
  }

  /** Drops the longest suffix made of characters satisfying `ws`. */
  function TrimEnd(s: string, ws: char -> bool): (r: string)
    ensures |r| <= |s| && r == s[..|r|]
    ensures r == [] || !ws(r[|r| - 1])
    ensures forall i :: |r| <= i < |s| ==> ws(s[i])
  {
    if s != [] && ws(s[|s| - 1]) then TrimEnd(s[..|s| - 1], ws) else s
  }

  /** Both ends trimmed: neither end of the result is white space. */
  function Trim(s: string, ws: char -> bool): (r: string)
    ensures r == [] || (!ws(r[0]) && !ws(r[|r| - 1]))
  {
    TrimEnd(TrimStart(s, ws), ws)
  }

  /** The trimmed text is a slice `s[i..j]`, and everything cut off is
      white space. */
  lemma TrimSlice(s: string, ws: char -> bool)
    ensures exists i, j :: 0 <= i <= j <= |s| && Trim(s, ws) == s[i..j]
                          && (forall k :: 0 <= k < i ==> ws(s[k]))
                          && (forall k :: j <= k < |s| ==> ws(s[k]))
  {
    var t := TrimStart(s, ws);
    var u := TrimEnd(t, ws);
    var i, j := |s| - |t|, |s| - |t| + |u|;
    PrefixOfSuffix(s, i, t, u);
    assert Trim(s, ws) == s[i..j];
    assert forall k :: 0 <= k < i ==> ws(s[k]);
    assert forall k :: j <= k < |s| ==> ws(s[k]) by {
      forall k | j <= k < |s|
        ensures ws(s[k])
      {
        assert s[k] == t[k - i];
      }
    }
  }

  /** A prefix `u` of the suffix `t == s[i..]` is the slice starting at `i`. */
  lemma PrefixOfSuffix(s: string, i: nat, t: string, u: string)
    requires i <= |s| && t == s[i..] && |u| <= |t| && u == t[..|u|]
    ensures u == s[i..i + |u|]
    ensures forall k :: i + |u| <= k < |s| ==> s[k] == t[k - i]
  {
  }

  /** JavaScript's `String.prototype.trim`. */
  function JsTrim(s: string): string
  {
    Trim(s, IsJsSpace)
  }

  /** Python's `str.strip()` with no argument. */
  function PyStrip(s: string): string
  {
    Trim(s, IsPySpace)
  }

  /** Number of occurrences of `c` in `s`. */
  function Count(s: string, c: char): nat
  {
    if s == [] then 0 else (if s[0] == c then 1 else 0) + Count(s[1..], c)
  }

  /** Python's `s.split(sep)` for a one-character separator: the pieces
      between separators, none of which contains the separator. */
  function Split(s: string, sep: char): (r: seq<string>)
    ensures |r| >= 1
    ensures forall i :: 0 <= i < |r| ==> sep !in r[i]
  {
    if s == [] then [""]
    else
      var rest := Split(s[1..], sep);
      if s[0] == sep then [""] + rest else [[s[0]] + rest[0]] + rest[1..]
  }

  /** `sep.join(parts)`. */
  function Join(parts: seq<string>, sep: char): string
  {
    if parts == [] then ""
    else if |parts| == 1 then parts[0]
    else parts[0] + [sep] + Join(parts[1..], sep)
  }

  /** Splitting loses nothing: joining the pieces gives the text back. */
  lemma {:induction false} JoinSplit(s: string, sep: char)
    ensures Join(Split(s, sep), sep) == s
  {
    if s != [] {
      JoinSplit(s[1..], sep);
      var rest := Split(s[1..], sep);
      if s[0] == sep {
        assert Split(s, sep) == [""] + rest;
      } else {
        assert Split(s, sep) == [[s[0]] + rest[0]] + rest[1..];
        if |rest| > 1 {
          assert rest == [rest[0]] + rest[1..];
        }
      }
    }
  }

  /** There is one more piece than there are separators. */
  lemma {:induction false} SplitCount(s: string, sep: char)
    ensures |Split(s, sep)| == Count(s, sep) + 1
  {
    if s != [] {
      SplitCount(s[1..], sep);
    }
  }

  /** The values `f` gives for the elements of `xs`, in order, skipping
      those it gives none for: never more values than elements, all of them
      when `f` gives one for every element, and each the value of some
      element. */
  function FilterMap<A, B>(xs: seq<A>, f: A -> Option<B>): (r: seq<B>)
    ensures |r| <= |xs|
    ensures (forall i :: 0 <= i < |xs| ==> f(xs[i]).Some?) ==> |r| == |xs|
    ensures forall k :: 0 <= k < |r| ==> exists i :: 0 <= i < |xs| && f(xs[i]) == Some(r[k])
  {
    if xs == [] then []
    else
      var init := xs[..|xs| - 1];
      var r := FilterMap(init, f);
      assert forall i :: 0 <= i < |init| ==> init[i] == xs[i];
      match f(xs[|xs| - 1])
      case None => r
      case Some(y) => r + [y]
  }

  /** Mapping one more element appends its value, if it has one. */
  lemma FilterMapSnoc<A, B>(xs: seq<A>, x: A, f: A -> Option<B>)
    ensures FilterMap(xs + [x], f) == if f(x).Some? then FilterMap(xs, f) + [f(x).value] else FilterMap(xs, f)
  {
    assert (xs + [x])[..|xs + [x]| - 1] == xs;
  }

  /** `idx` holds, in increasing order, exactly the positions of the elements
      of `xs` that `f` gives a value for, and `r` holds those values. */
  ghost predicate PicksValues<A, B>(xs: seq<A>, f: A -> Option<B>, r: seq<B>, idx: seq<int>)
  {
    && |idx| == |r|
    && (forall k :: 0 <= k < |idx| ==> 0 <= idx[k] < |xs| && f(xs[idx[k]]) == Some(r[k]))
    && (forall k, l :: 0 <= k < l < |idx| ==> idx[k] < idx[l])
    && (forall i :: 0 <= i < |xs| && f(xs[i]).Some? ==> i in idx)
  }

  /** Every element `f` gives a value for contributes that value, in the
      order of the elements, and nothing else is kept. */
  lemma {:induction false} FilterMapInOrder<A, B>(xs: seq<A>, f: A -> Option<B>)
    ensures exists idx :: PicksValues(xs, f, FilterMap(xs, f), idx)
  {
    if xs == [] {
      assert PicksValues(xs, f, FilterMap(xs, f), []);
    } else {
      var init, last := xs[..|xs| - 1], xs[|xs| - 1];
      assert xs == init + [last];
      FilterMapInOrder(init, f);
      FilterMapSnoc(init, last, f);
      var idx :| PicksValues(init, f, FilterMap(init, f), idx);
      var idx' := PicksSnoc(init, last, f, FilterMap(init, f), idx);
    }
  }

  /** One more element extends the picked positions by its own when `f`
      gives it a value. */
  lemma PicksSnoc<A, B>(init: seq<A>, last: A, f: A -> Option<B>, r: seq<B>, idx: seq<int>) returns (idx': seq<int>)
    requires PicksValues(init, f, r, idx)
    ensures PicksValues(init + [last], f, if f(last).Some? then r + [f(last).value] else r, idx')
  {
    var xs := init + [last];
    var r' := if f(last).Some? then r + [f(last).value] else r;
    idx' := if f(last).Some? then idx + [|init|] else idx;
    forall k | 0 <= k < |idx'|
      ensures 0 <= idx'[k] < |xs| && f(xs[idx'[k]]) == Some(r'[k])
    {
      if k < |idx| {
        assert idx'[k] == idx[k] && r'[k] == r[k] && xs[idx[k]] == init[idx[k]];
      }
    }
    forall k, l | 0 <= k < l < |idx'|
      ensures idx'[k] < idx'[l]
    {
      assert idx'[k] == idx[k];
    }
    forall i | 0 <= i < |xs| && f(xs[i]).Some?
      ensures i in idx'
    {
      if i < |init| {
        assert xs[i] == init[i];
        var k :| 0 <= k < |idx| && idx[k] == i;
        assert idx'[k] == i;
      } else {
        assert idx'[|idx|] == i;
      }
    }
  }

  /** The loop that builds `FilterMap(xs, f)`: each element the step maps
      to a value appends that value, in order. */
  method CollectSome<A, B>(xs: seq<A>, f: A -> Option<B>) returns (r: seq<B>)
    ensures r == FilterMap(xs, f)
  {
    r := [];
    var i := 0;
    while i < |xs|
      invariant 0 <= i <= |xs|
      invariant r == FilterMap(xs[..i], f)
    {
      assert xs[..i + 1] == xs[..i] + [xs[i]];
      FilterMapSnoc(xs[..i], xs[i], f);
      var y := f(xs[i]);
      if y.Some? {
        r := r + [y.value];
      }
      i := i + 1;
    }
    assert xs[..i] == xs;
  }

  /** `pat` occurs in `s` starting at index `i`. */
  predicate OccursAt(s: string, pat: string, i: nat)
  {
    i + |pat| <= |s| && s[i..i + |pat|] == pat
  }

  /** Leftmost occurrence of `pat` in `s` at or after `from`. */
  function FindFrom(s: string, pat: string, from: nat): (r: Option<nat>)
    requires from <= |s|
    ensures r.Some? ==> from <= r.value && OccursAt(s, pat, r.value)
    ensures r.Some? ==> forall j :: from <= j < r.value ==> !OccursAt(s, pat, j)
    ensures r.None? ==> forall j :: from <= j <= |s| ==> !OccursAt(s, pat, j)
    decreases |s| - from
  {
    if OccursAt(s, pat, from) then Some(from)
    else if from == |s| then None
    else FindFrom(s, pat, from + 1)
  }

  /** Leftmost occurrence of `pat` in `s`, as Python's `str.find`. */
  function Find(s: string, pat: string): (r: Option<nat>)
    ensures r.Some? ==> OccursAt(s, pat, r.value)
    ensures r.Some? ==> forall j :: 0 <= j < r.value ==> !OccursAt(s, pat, j)
    ensures r.None? ==> forall j :: 0 <= j <= |s| ==> !OccursAt(s, pat, j)
  {
    FindFrom(s, pat, 0)
  }

  /** Python's `pat in s` for strings. */
  predicate Contains(s: string, pat: string)
  {
    Find(s, pat).Some?
  }

  /** Python's `s.split(pat, 1)` when `pat` occurs: the text before the first
      occurrence and the text after it (Python refuses an empty separator). */
  function SplitOnce(s: string, pat: string): (r: (string, string))
    requires pat != "" && Contains(s, pat)
    ensures r.0 + pat + r.1 == s
    ensures !Contains(r.0, pat)
    ensures forall j :: 0 <= j < |r.0| ==> !OccursAt(s, pat, j)
  {
    var i := Find(s, pat).value;
    var before := s[..i];
    assert s == before + pat + s[i + |pat|..];
    forall j: nat | j <= |before| ensures !OccursAt(before, pat, j) {
      if OccursAt(before, pat, j) {
        assert s[j..j + |pat|] == before[j..j + |pat|];
        assert OccursAt(s, pat, j) && j < i;
      }
    }
    (before, s[i + |pat|..])
  }
}
