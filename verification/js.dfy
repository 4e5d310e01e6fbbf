/** The plain-object machinery the symptom-evaluation form works with
    (components/SymptomEvaluation.tsx): JavaScript values, truthiness, the coercion of an
    input's string value, dotted keys, and reading and writing along a key path. */
module Js {
  import opened Types

  /** The values the form stores: numbers, booleans, strings, lists of selected options,
      nested objects, and `null`. */
  datatype JsValue =
    | JNull
    | JNum(n: int)
    | JBool(b: bool)
    | JStr(s: string)
    | JList(items: seq<string>)
    | JObj(fields: map<string, JsValue>)

  /** JavaScript truthiness: `null`, 0, `false` and the empty string are falsy; every list
      and every object, even an empty one, is truthy. */
  predicate Truthy(v: JsValue) {
    match v
    case JNull => false
    case JNum(n) => n != 0
    case JBool(b) => b
    case JStr(s) => s != []
    case JList(_) => true
    case JObj(_) => true
  }

  // ---------------------------------------------------------------------------
  // Coercion of an input's value

  predicate IsDigit(c: char) { '0' <= c <= '9' }

  predicate AllDigits(s: string) {
    forall i :: 0 <= i < |s| ==> IsDigit(s[i])
  }

  /** The decimal value of a digit string; the empty string is 0, as `Number('')` is. */
  function DigitsValue(s: string): (n: nat)
    requires AllDigits(s)
  {
    if s == [] then 0
    else DigitsValue(s[..|s| - 1]) * 10 + (s[|s| - 1] as int - '0' as int)
  }

  function DigitChar(d: nat): (c: char)
    requires d < 10
    ensures IsDigit(c) && c as int - '0' as int == d
  {
    ('0' as int + d) as char
  }

  /** The decimal text of a number, as `toString` writes it. */
  function NatToString(n: nat): (s: string)
    ensures s != [] && AllDigits(s)
  {
    if n < 10 then [DigitChar(n)] else NatToString(n / 10) + [DigitChar(n % 10)]
  }

  /** Reading back the text of a number gives the number. */
  lemma {:induction false} DigitsRoundTrip(n: nat)
    ensures DigitsValue(NatToString(n)) == n
  {
    if n >= 10 {
      var s := NatToString(n);
      assert s[..|s| - 1] == NatToString(n / 10);
      DigitsRoundTrip(n / 10);
    }
  }

  /** What an input hands over: the string value of a radio button or text area, or the
      list a check-box group builds. */
  datatype Raw = RawText(text: string) | RawList(options: seq<string>)

  /** "true" and "false" become booleans, a digit string (the empty one included) a
      number, any other string stays a string; a list passes through. */
  function Coerce(raw: Raw): (v: JsValue)
    ensures !v.JNull? && !v.JObj?
    ensures raw.RawList? <==> v.JList?
    ensures v.JStr? ==> raw == RawText(v.s) && !AllDigits(v.s)
    ensures raw.RawList? ==> v == JList(raw.options)
    ensures raw == RawText("true") ==> v == JBool(true)
    ensures raw == RawText("false") ==> v == JBool(false)
    ensures raw.RawText? && AllDigits(raw.text) ==> v == JNum(DigitsValue(raw.text))
    ensures raw.RawText? && raw.text != "true" && raw.text != "false" && !AllDigits(raw.text) ==> v == JStr(raw.text)
    ensures Truthy(v) <==> !(raw == RawText("false") || (raw.RawText? && AllDigits(raw.text) && DigitsValue(raw.text) == 0))
  {
    match raw
    case RawList(items) => JList(items)
    case RawText(s) =>
      if s == "true" then JBool(true)
      else if s == "false" then JBool(false)
      else if AllDigits(s) then JNum(DigitsValue(s))
      else JStr(s)
  }

  /** A scale answer comes back as the number that was offered. */
  lemma ScaleAnswerRoundTrip(n: nat)
    ensures Coerce(RawText(NatToString(n))) == JNum(n)
  {
    DigitsRoundTrip(n);
  }

  /** Clearing a text answer stores the number 0, not an empty string. */
  lemma EmptyTextBecomesZero()
    ensures Coerce(RawText("")) == JNum(0)
  {
  }

  // ---------------------------------------------------------------------------
  // Dotted keys

  /** `split('.')`: the pieces between dots, empty pieces kept. */
  function SplitDots(s: string): (parts: seq<string>)
    ensures |parts| >= 1
    ensures forall i :: 0 <= i < |parts| ==> '.' !in parts[i]
  {
    if s == [] then [[]]
    else
      var rest := SplitDots(s[1..]);
      if s[0] == '.' then [[]] + rest
      else [[s[0]] + rest[0]] + rest[1..]
  }

  /** `join('.')`. */
  function JoinDots(parts: seq<string>): string
    requires |parts| >= 1
  {
    if |parts| == 1 then parts[0] else parts[0] + "." + JoinDots(parts[1..])
  }

  /** Splitting a key and joining the pieces gives the key back. */
  lemma {:induction false} JoinSplit(s: string)
    ensures JoinDots(SplitDots(s)) == s
  {
    if s != [] {
      var rest := SplitDots(s[1..]);
      JoinSplit(s[1..]);
      if s[0] == '.' {
        assert SplitDots(s)[1..] == rest;
      } else {
        var parts := SplitDots(s);
        assert parts[1..] == rest[1..];
        if |rest| > 1 {
          assert JoinDots(rest) == rest[0] + "." + JoinDots(rest[1..]);
        }
      }
    }
  }

  /** A key without a dot is a single segment. */
  lemma {:induction false} NoDotSingleSegment(s: string)
    requires '.' !in s
    ensures SplitDots(s) == [s]
  {
    if s != [] {
      NoDotSingleSegment(s[1..]);
      assert [s[0]] + s[1..] == s;
    }
  }

  /** A key that does not start with a dot has a first segment starting with the key's
      first character. */
  lemma FirstSegmentStart(s: string)
    requires s != [] && s[0] != '.'
    ensures SplitDots(s)[0] != [] && SplitDots(s)[0][0] == s[0]
  {
  }

  // ---------------------------------------------------------------------------
  // Reading and writing along a key path

  /** Reading a path: undefined (`None`) as soon as a segment is missing or null, or the
      value reached is not an object. */
  function Lookup(v: JsValue, keys: seq<string>): (r: Option<JsValue>)
    ensures r.Some? ==> !r.value.JNull? || keys == []
    decreases |keys|
  {
    if keys == [] then Some(v)
    else match v
      case JObj(m) =>
        if keys[0] in m && !m[keys[0]].JNull? then Lookup(m[keys[0]], keys[1..]) else None
      case _ => None
  }

  /** Writing a path: each missing or falsy intermediate becomes an empty object, a truthy
      intermediate is walked into, and the last segment is assigned. A truthy intermediate
      that is not an object cannot take a property: the write fails (`None`). */
  function SetPath(obj: map<string, JsValue>, keys: seq<string>, v: JsValue): (r: Option<map<string, JsValue>>)
    requires keys != []
    ensures |keys| == 1 ==> r == Some(obj[keys[0] := v])
    ensures r.Some? ==> keys[0] in r.value && r.value.Keys == obj.Keys + {keys[0]}
    decreases |keys|
  {
    if |keys| == 1 then Some(obj[keys[0] := v])
    else
      var k := keys[0];
      var child := if k in obj && Truthy(obj[k]) then obj[k] else JObj(map[]);
      match child
      case JObj(m) =>
        (match SetPath(m, keys[1..], v)
         case Some(m') => Some(obj[k := JObj(m')])
         case None => None)
      case _ => None
  }

  /** Every intermediate on the path is missing, falsy or an object, so a write succeeds. */
  predicate Writable(obj: map<string, JsValue>, keys: seq<string>)
    decreases |keys|
  {
    |keys| <= 1 ||
    (keys[0] !in obj || !Truthy(obj[keys[0]])) ||
    (obj[keys[0]].JObj? && Writable(obj[keys[0]].fields, keys[1..]))
  }

  /** A write succeeds exactly when the path is writable. */
  lemma {:induction false} WritableIffWriteSucceeds(obj: map<string, JsValue>, keys: seq<string>, v: JsValue)
    requires keys != []
    ensures SetPath(obj, keys, v).Some? <==> Writable(obj, keys)
    decreases |keys|
  {
    if |keys| > 1 {
      var k := keys[0];
      if k in obj && Truthy(obj[k]) && obj[k].JObj? {
        WritableIffWriteSucceeds(obj[k].fields, keys[1..], v);
      } else if !(k in obj && Truthy(obj[k])) {
        FreshPathWritable(keys[1..]);
        WritableIffWriteSucceeds(map[], keys[1..], v);
      }
    }
  }

  lemma {:induction false} FreshPathWritable(keys: seq<string>)
    ensures Writable(map[], keys)
  {
  }

  /** Reading back a path just written gives the value written. */
  lemma {:induction false} ReadAfterWrite(obj: map<string, JsValue>, keys: seq<string>, v: JsValue)
    requires keys != [] && !v.JNull?
    requires SetPath(obj, keys, v).Some?
    ensures Lookup(JObj(SetPath(obj, keys, v).value), keys) == Some(v)
    decreases |keys|
  {
    var r := SetPath(obj, keys, v).value;
    if |keys| > 1 {
      var k := keys[0];
      var child := if k in obj && Truthy(obj[k]) then obj[k] else JObj(map[]);
      ReadAfterWrite(child.fields, keys[1..], v);
      assert r[k] == JObj(SetPath(child.fields, keys[1..], v).value);
    }
  }

  /** A write leaves every path that parts from the written one unchanged: both paths agree
      on their first `j` segments and differ at segment `j`. */
  lemma {:induction false} WriteLeavesOtherPaths(obj: map<string, JsValue>, keys: seq<string>, v: JsValue, other: seq<string>, j: nat)
    requires keys != []
    requires SetPath(obj, keys, v).Some?
    requires j < |keys| && j < |other|
    requires keys[..j] == other[..j] && keys[j] != other[j]
    ensures Lookup(JObj(SetPath(obj, keys, v).value), other) == Lookup(JObj(obj), other)
    decreases j
  {
    var r := SetPath(obj, keys, v).value;
    var k := keys[0];
    if j > 0 {
      assert other[0] == k by { assert keys[..j][0] == other[..j][0]; }
      assert |keys| > 1;
      var child := if k in obj && Truthy(obj[k]) then obj[k] else JObj(map[]);
      assert keys[1..][..j - 1] == other[1..][..j - 1];
      WriteLeavesOtherPaths(child.fields, keys[1..], v, other[1..], j - 1);
      assert r[k] == JObj(SetPath(child.fields, keys[1..], v).value);
      if !(k in obj && Truthy(obj[k])) {
        EmptyObjectLookup(other[1..]);
        if k in obj {
          FalsyLookup(obj[k], other[1..]);
        }
      }
    }
  }

  lemma EmptyObjectLookup(keys: seq<string>)
    requires keys != []
    ensures Lookup(JObj(map[]), keys) == None
  {
  }

  lemma FalsyLookup(v: JsValue, keys: seq<string>)
    requires !Truthy(v) && keys != []
    ensures Lookup(v, keys) == None
  {
  }

  /** `getAnswer`: walks the segments of a path one by one and stops with undefined at
      the first missing or null one. */
  method GetAnswer(evaluation: map<string, JsValue>, keys: seq<string>) returns (r: Option<JsValue>)
    ensures r == Lookup(JObj(evaluation), keys)
  {
    var current := JObj(evaluation);
    var i := 0;
    while i < |keys|
      invariant 0 <= i <= |keys|
      invariant Lookup(JObj(evaluation), keys) == Lookup(current, keys[i..])
    {
      if !Truthy(current) || !current.JObj? || keys[i] !in current.fields || current.fields[keys[i]].JNull? {
        return None;
      }
      assert keys[i..][1..] == keys[i + 1..];
      current := current.fields[keys[i]];
      i := i + 1;
    }
    return Some(current);
  }

  // ---------------------------------------------------------------------------
  // Lists of selected options

  /** `filter(x => x !== o)`: the list without any copy of `o`, order kept. */
  function Without(xs: seq<string>, o: string): (r: seq<string>)
    ensures |r| <= |xs|
    ensures forall x :: x in r <==> x in xs && x != o
    ensures |xs| == 1 ==> r == if xs[0] == o then [] else xs
  {
    if xs == [] then []
    else
      assert xs == xs[..|xs| - 1] + [xs[|xs| - 1]];
      Without(xs[..|xs| - 1], o) + if xs[|xs| - 1] == o then [] else [xs[|xs| - 1]]
  }

  /** Filtering a list with one more entry filters the list, then that entry. */
  lemma WithoutSnoc(xs: seq<string>, last: string, o: string)
    ensures Without(xs + [last], o) == Without(xs, o) + if last == o then [] else [last]
  {
    assert (xs + [last])[..|xs|] == xs;
  }

  /** The filter works entry by entry: filtering a concatenation filters each part, so
      the kept entries stay in their order. */
  lemma {:induction false} WithoutAppend(a: seq<string>, b: seq<string>, o: string)
    ensures Without(a + b, o) == Without(a, o) + Without(b, o)
  {
    if b == [] {
      assert a + b == a;
    } else {
      var b', last := b[..|b| - 1], b[|b| - 1];
      assert a + b == (a + b') + [last];
      assert b == b' + [last];
      WithoutSnoc(a + b', last, o);
      WithoutSnoc(b', last, o);
      WithoutAppend(a, b', o);
    }
  }

  /** The filter drops every copy of the option and keeps every other entry as many
      times as it was listed. */
  lemma {:induction false} WithoutCounts(xs: seq<string>, o: string)
    ensures multiset(Without(xs, o))[o] == 0
    ensures forall x :: x != o ==> multiset(Without(xs, o))[x] == multiset(xs)[x]
  {
    if xs != [] {
      var init, last := xs[..|xs| - 1], xs[|xs| - 1];
      assert xs == init + [last];
      WithoutCounts(init, o);
      WithoutSnoc(init, last, o);
    }
  }

  /** Removing an option that is not listed leaves the list as it was. */
  lemma {:induction false} WithoutAbsent(xs: seq<string>, o: string)
    requires o !in xs
    ensures Without(xs, o) == xs
  {
    if xs != [] {
      var init := xs[..|xs| - 1];
      assert xs == init + [xs[|xs| - 1]];
      assert o !in init;
      WithoutAbsent(init, o);
      assert Without(xs, o) == Without(init, o) + [xs[|xs| - 1]];
    }
  }

  /** Ticking an option appends it; clearing it removes every copy. */
  function Toggle(xs: seq<string>, option: string, checked: bool): (r: seq<string>)
    ensures checked ==> r == xs + [option]
    ensures !checked ==> option !in r && forall x :: x != option ==> (x in r <==> x in xs)
    ensures !checked ==> forall x :: x != option ==> multiset(r)[x] == multiset(xs)[x]
  {
    if checked then xs + [option]
    else
      WithoutCounts(xs, option);
      Without(xs, option)
  }

  /** Clearing an option keeps the other entries in their order: it clears each part of
      the list separately. */
  lemma UntickKeepsOrder(a: seq<string>, b: seq<string>, option: string)
    ensures Toggle(a + b, option, false) == Toggle(a, option, false) + Toggle(b, option, false)
  {
    WithoutAppend(a, b, option);
  }

  /** Ticking an option that was not ticked and clearing it again restores the list. */
  lemma {:induction false} ToggleRoundTrip(xs: seq<string>, option: string)
    requires option !in xs
    ensures Toggle(Toggle(xs, option, true), option, false) == xs
  {
    var ys := xs + [option];
    assert ys[..|ys| - 1] == xs;
    WithoutAbsent(xs, option);
  }
}
