/** `OmniAuth::Utils`: the recursive hash merge and the camelization of
    strategy names. */
module Utils {
  import opened Values

  // ---------------------------------------------------------------------
  // deep_merge
  // ---------------------------------------------------------------------

  /** True when both sides hold nested records, so that the merge recurses. */
  predicate BothRecords(a: Value, b: Value) {
    a.Record? && b.Record?
  }

  /** `Utils.deep_merge(base, other)`: every key of `other` is written over
      `base`; where both sides hold records the two are merged recursively,
      otherwise the value from `other` replaces the one from `base`. Keys
      only in `base` are kept. Neither input is changed. */
  function DeepMerge(base: map<string, Value>, other: map<string, Value>): (r: map<string, Value>)
    ensures r.Keys == base.Keys + other.Keys
    ensures forall k :: k in r && k !in other ==> r[k] == base[k]
    ensures forall k :: k in other && !(k in base && BothRecords(base[k], other[k])) ==> r[k] == other[k]
    ensures forall k :: k in other && k in base && BothRecords(base[k], other[k]) ==>
      r[k].Record? && r[k].fields.Keys == base[k].fields.Keys + other[k].fields.Keys
    decreases Record(other)
  {
    map k | k in base.Keys + other.Keys ::
      if k in other then
        if k in base && BothRecords(base[k], other[k]) then
          Record(DeepMerge(base[k].fields, other[k].fields))
        else other[k]
      else base[k]
  }

  /** `other` writes nothing at `path` itself, and on the way there it holds
      only records (so it never replaces a prefix of `path` with a leaf). */
  predicate Untouched(other: map<string, Value>, path: seq<string>)
    decreases path
  {
    path != [] &&
    (path[0] !in other ||
     (other[path[0]].Record? && Untouched(other[path[0]].fields, path[1..])))
  }

  /** Every leaf of `other` is found at the same path in the merge: at every
      depth the override wins. */
  lemma {:induction false} DeepMergeKeepsOtherLeaves(base: map<string, Value>, other: map<string, Value>, path: seq<string>, v: Value)
    requires Dig(Record(other), path) == Some(v) && !v.Record?
    ensures Dig(Record(DeepMerge(base, other)), path) == Some(v)
    decreases path
  {
    var m := DeepMerge(base, other);
    var k, rest := path[0], path[1..];
    assert path == [k] + rest;
    DigCons(other, k, rest);
    DigCons(m, k, rest);
    if k in base && BothRecords(base[k], other[k]) {
      DigCons(other[k].fields, rest[0], rest[1..]);
      assert rest == [rest[0]] + rest[1..];
      DeepMergeKeepsOtherLeaves(base[k].fields, other[k].fields, rest, v);
    }
  }

  /** No data loss: a value of `base` that `other` does not write over is
      found at the same path in the merge. */
  lemma {:induction false} DeepMergeKeepsBase(base: map<string, Value>, other: map<string, Value>, path: seq<string>, v: Value)
    requires Dig(Record(base), path) == Some(v) && Untouched(other, path)
    ensures Dig(Record(DeepMerge(base, other)), path) == Some(v)
    decreases path
  {
    var m := DeepMerge(base, other);
    var k, rest := path[0], path[1..];
    assert path == [k] + rest;
    DigCons(base, k, rest);
    DigCons(m, k, rest);
    if k in other {
      assert rest != [];
      assert base[k].Record?;
      DigCons(base[k].fields, rest[0], rest[1..]);
      assert rest == [rest[0]] + rest[1..];
      DeepMergeKeepsBase(base[k].fields, other[k].fields, rest, v);
    }
  }

  /** Nothing is invented: every leaf of the merge comes from `other` or,
      failing that, from `base` at the same path. */
  lemma {:induction false} DeepMergeLeafOrigin(base: map<string, Value>, other: map<string, Value>, path: seq<string>, v: Value)
    requires Dig(Record(DeepMerge(base, other)), path) == Some(v) && !v.Record?
    ensures Dig(Record(other), path) == Some(v) || Dig(Record(base), path) == Some(v)
    decreases path
  {
    var m := DeepMerge(base, other);
    var k, rest := path[0], path[1..];
    assert path == [k] + rest;
    DigCons(base, k, rest);
    DigCons(other, k, rest);
    DigCons(m, k, rest);
    if k in other && k in base && BothRecords(base[k], other[k]) {
      DigCons(m[k].fields, rest[0], rest[1..]);
      assert rest == [rest[0]] + rest[1..];
      DeepMergeLeafOrigin(base[k].fields, other[k].fields, rest, v);
    }
  }

  /** Merging a hash with itself gives it back. */
  lemma {:induction false} DeepMergeIdempotent(h: map<string, Value>)
    ensures DeepMerge(h, h) == h
    decreases Record(h)
  {
    forall k | k in h && h[k].Record?
      ensures DeepMerge(h[k].fields, h[k].fields) == h[k].fields
    {
      DeepMergeIdempotent(h[k].fields);
    }
  }

  /** The merged pair from the test suite: both inner keys survive. */
  lemma DeepMergeCombinesNested()
    ensures DeepMerge(map["abc" := Record(map["def" := Int(123)])],
                      map["abc" := Record(map["foo" := Str("bar")])])
         == map["abc" := Record(map["def" := Int(123), "foo" := Str("bar")])]
  {
    var inner := DeepMerge(map["def" := Int(123)], map["foo" := Str("bar")]);
    assert inner == map["def" := Int(123), "foo" := Str("bar")];
  }

  // ---------------------------------------------------------------------
  // camelize
  // ---------------------------------------------------------------------

  predicate IsLower(c: char) { 'a' <= c <= 'z' }

  predicate IsUpper(c: char) { 'A' <= c <= 'Z' }

  /** ASCII upper-casing; every other character is left as it is. */
  function Upcase(c: char): (u: char)
    ensures !IsLower(u)
    ensures IsLower(c) ==> IsUpper(u)
    ensures !IsLower(c) ==> u == c
  {
    if IsLower(c) then (c as int - 32) as char else c
  }

  /** ASCII lower-casing; every other character is left as it is. */
  function Downcase(c: char): (d: char)
    ensures !IsUpper(d)
    ensures IsUpper(c) ==> IsLower(d)
    ensures !IsUpper(c) ==> d == c
  {
    if IsUpper(c) then (c as int + 32) as char else c
  }

  /** The lower-case form of a token, the key of the camelization table. */
  function Downcased(s: string): (r: string)
    ensures |r| == |s|
    ensures forall i :: 0 <= i < |s| ==> r[i] == Downcase(s[i])
  {
    seq(|s|, i requires 0 <= i < |s| => Downcase(s[i]))
  }

  /** Puts `sep` between consecutive parts. */
  function Join(parts: seq<string>, sep: char): string
  {
    if parts == [] then []
    else if |parts| == 1 then parts[0]
    else parts[0] + [sep] + Join(parts[1..], sep)
  }

  /** Splits `s` at every `sep`, keeping empty segments. */
  function Split(s: string, sep: char): (parts: seq<string>)
    ensures |parts| >= 1
    ensures forall i :: 0 <= i < |parts| ==> sep !in parts[i]
  {
    if s == [] then [[]]
    else
      var rest := Split(s[1..], sep);
      if s[0] == sep then [[]] + rest
      else [[s[0]] + rest[0]] + rest[1..]
  }

  /** Joining the parts of a split with the separator gives the string
      back, so splitting loses nothing. */
  lemma {:induction false} SplitJoin(s: string, sep: char)
    ensures Join(Split(s, sep), sep) == s
  {
    if s != [] {
      SplitJoin(s[1..], sep);
      var rest := Split(s[1..], sep);
      if s[0] == sep {
        assert s == [sep] + s[1..];
      } else {
        assert s == [s[0]] + s[1..];
        if |rest| > 1 {
          assert rest == [rest[0]] + rest[1..];
        }
      }
    }
  }

  /** Upper-cases the first character of a segment and leaves the rest of
      it untouched. */
  function Capitalize(seg: string): (r: string)
    ensures |r| == |seg|
    ensures seg != [] ==> r[0] == Upcase(seg[0]) && r[1..] == seg[1..]
  {
    if seg == [] then [] else [Upcase(seg[0])] + seg[1..]
  }

  function CapitalizeEach(segs: seq<string>): seq<string>
  {
    if segs == [] then [] else [Capitalize(segs[0])] + CapitalizeEach(segs[1..])
  }

  function Concat(segs: seq<string>): string
  {
    if segs == [] then [] else segs[0] + Concat(segs[1..])
  }

  /** The camelization algorithm without the exception table: split on `_`,
      capitalize every segment, concatenate. It agrees with the one-pass
      rewrite `CamelizeScan`. */
  function CamelizeWords(word: string): (r: string)
    ensures r == CamelizeScan(word, true)
  {
    var parts := Split(word, '_');
    ScanMatchesSegments(word, true);
    assert parts == [parts[0]] + parts[1..];
    Concat(CapitalizeEach(parts))
  }

  /** The same algorithm in one pass: drop every `_` and upper-case the
      character that starts the token or follows an `_`. `atStart` says
      whether the next character begins a segment. */
  function CamelizeScan(word: string, atStart: bool): string
  {
    if word == [] then []
    else if word[0] == '_' then CamelizeScan(word[1..], true)
    else [if atStart then Upcase(word[0]) else word[0]] + CamelizeScan(word[1..], false)
  }

  /** The split-based and the one-pass definitions agree on a suffix: its
      first segment is copied (or capitalized when it starts a segment) and
      the remaining segments are capitalized. */
  lemma {:induction false} ScanMatchesSegments(word: string, atStart: bool)
    ensures var parts := Split(word, '_');
      CamelizeScan(word, atStart)
        == (if atStart then Capitalize(parts[0]) else parts[0]) + Concat(CapitalizeEach(parts[1..]))
  {
    if word != [] {
      var parts, rest := Split(word, '_'), Split(word[1..], '_');
      var tail := Concat(CapitalizeEach(rest[1..]));
      if word[0] == '_' {
        ScanMatchesSegments(word[1..], true);
        assert parts == [[]] + rest && parts[1..] == rest;
        assert CapitalizeEach(rest) == [Capitalize(rest[0])] + CapitalizeEach(rest[1..]);
        assert Concat(CapitalizeEach(rest)) == Capitalize(rest[0]) + tail;
      } else {
        ScanMatchesSegments(word[1..], false);
        assert CamelizeScan(word[1..], false) == rest[0] + tail;
        assert parts[0] == [word[0]] + rest[0] && parts[1..] == rest[1..];
        assert CamelizeScan(word, atStart) == [if atStart then Upcase(word[0]) else word[0]] + (rest[0] + tail);
        if atStart {
          assert Capitalize(parts[0]) == [Upcase(word[0])] + rest[0];
        }
      }
    }
  }

  /** The one-pass form never emits `_`, never lengthens the token and
      never starts a segment with a lower-case letter. */
  lemma {:induction false} ScanShape(word: string, atStart: bool)
    ensures var r := CamelizeScan(word, atStart);
      '_' !in r && |r| <= |word| && (atStart && r != [] ==> !IsLower(r[0]))
  {
    if word != [] {
      if word[0] == '_' {
        ScanShape(word[1..], true);
      } else {
        ScanShape(word[1..], false);
      }
    }
  }

  /** One-pass form of a token `a + "_" + rest` whose first segment is `a`. */
  lemma {:induction false} ScanSegment(a: string, rest: string, atStart: bool)
    requires '_' !in a
    ensures CamelizeScan(a + "_" + rest, atStart)
         == (if atStart then Capitalize(a) else a) + CamelizeScan(rest, true)
  {
    if a == [] {
      assert a + "_" + rest == "_" + rest;
    } else {
      assert (a + "_" + rest)[1..] == a[1..] + "_" + rest;
      ScanSegment(a[1..], rest, false);
    }
  }

  /** One-pass form of a token without `_`. */
  lemma {:induction false} ScanSingle(a: string, atStart: bool)
    requires '_' !in a
    ensures CamelizeScan(a, atStart) == (if atStart then Capitalize(a) else a)
  {
    if a != [] {
      ScanSingle(a[1..], false);
      assert a == [a[0]] + a[1..];
    }
  }

  /** The default camelization yields PascalCase: no `_` is left, the result
      does not start with a lower-case letter, and it is no longer than the
      token. */
  lemma CamelizeWordsShape(word: string)
    ensures var r := CamelizeWords(word);
      '_' !in r && |r| <= |word| && (r != [] ==> !IsLower(r[0]))
  {
    ScanShape(word, true);
  }

  /** An `_` ends a segment: the segment before it is capitalized and the
      rest of the token is camelized on its own. */
  lemma CamelizeWordsSegment(a: string, rest: string)
    requires '_' !in a
    ensures CamelizeWords(a + "_" + rest) == Capitalize(a) + CamelizeWords(rest)
  {
    ScanSegment(a, rest, true);
  }

  /** A token without `_` is one segment: only its first character is
      upper-cased, the rest is left untouched. */
  lemma CamelizeWordsUnderscoreFree(a: string)
    requires '_' !in a
    ensures CamelizeWords(a) == Capitalize(a)
  {
    ScanSingle(a, true);
  }

  /** Camelizing words joined with `_` concatenates the capitalized words:
      the default algorithm undoes the join and capitalizes each word. */
  lemma {:induction false} CamelizeWordsJoin(words: seq<string>)
    requires |words| >= 1 && forall i :: 0 <= i < |words| ==> '_' !in words[i]
    ensures CamelizeWords(Join(words, '_')) == Concat(CapitalizeEach(words))
  {
    if |words| == 1 {
      CamelizeWordsUnderscoreFree(words[0]);
      assert CapitalizeEach(words) == [Capitalize(words[0])];
    } else {
      CamelizeWordsJoin(words[1..]);
      CamelizeWordsSegment(words[0], Join(words[1..], '_'));
      assert words[0] + ['_'] + Join(words[1..], '_') == words[0] + "_" + Join(words[1..], '_');
    }
  }

  /** A token that is already camel case (no `_`, not starting with a
      lower-case letter) comes back unchanged, as `AnotherWord` does. */
  lemma CamelizeWordsKeepsCamelCase(word: string)
    requires '_' !in word && (word != [] ==> !IsLower(word[0]))
    ensures CamelizeWords(word) == word
  {
    CamelizeWordsUnderscoreFree(word);
    if word != [] {
      assert word == [word[0]] + word[1..];
    }
  }

  /** Camelizing twice is camelizing once. */
  lemma CamelizeWordsIdempotent(word: string)
    ensures CamelizeWords(CamelizeWords(word)) == CamelizeWords(word)
  {
    CamelizeWordsShape(word);
    CamelizeWordsKeepsCamelCase(CamelizeWords(word));
  }

  /** `Utils.camelize(word)`: a token whose lower-case form is in the
      camelization table gets the stored form verbatim; any other token is
      camelized by the default algorithm: every `_` is dropped and the
      character starting each segment is upper-cased, so no `_` is left and
      the result does not start with a lower-case letter. */
  function Camelize(camelizations: map<string, string>, word: string): (r: string)
    ensures Downcased(word) in camelizations ==> r == camelizations[Downcased(word)]
    ensures Downcased(word) !in camelizations ==> r == CamelizeScan(word, true)
    ensures Downcased(word) !in camelizations ==>
      '_' !in r && |r| <= |word| && (r != [] ==> !IsLower(r[0]))
  {
    var key := Downcased(word);
    if key in camelizations then camelizations[key]
    else
      CamelizeWordsShape(word);
      CamelizeWords(word)
  }

  // The tokens from the test suite, camelized with an empty table. Each
  // token is passed in rather than written inline, which keeps the verifier
  // from unfolding the definitions character by character.

  lemma CamelizeSomeWord(word: string)
    requires word == "some_word"
    ensures Camelize(map[], word) == "SomeWord"
  {
    var empty: map<string, string> := map[];
    assert Camelize(empty, word) == CamelizeWords(word) by {
      assert Downcased(word) !in empty;
    }
    assert word == "some" + "_" + "word";
    CamelizeWordsSegment("some", "word");
    CamelizeWordsUnderscoreFree("word");
  }

  lemma CamelizeAnotherWord(word: string)
    requires word == "AnotherWord"
    ensures Camelize(map[], word) == "AnotherWord"
  {
    var empty: map<string, string> := map[];
    assert Downcased(word) !in empty;
    CamelizeWordsKeepsCamelCase(word);
  }

  lemma CamelizeOne(word: string)
    requires word == "one"
    ensures Camelize(map[], word) == "One"
  {
    var empty: map<string, string> := map[];
    assert Downcased(word) !in empty;
    CamelizeWordsUnderscoreFree(word);
  }

  lemma CamelizeThreeWordsNow(word: string)
    requires word == "three_words_now"
    ensures Camelize(map[], word) == "ThreeWordsNow"
  {
    var empty: map<string, string> := map[];
    assert Camelize(empty, word) == CamelizeWords(word) by {
      assert Downcased(word) !in empty;
    }
    assert word == "three" + "_" + ("words" + "_" + "now");
    CamelizeWordsJoinThree("three", "words", "now");
  }

  /** `CamelizeWordsJoin` for a list of three words, written out for tokens
      such as `three_words_now`. */
  lemma CamelizeWordsJoinThree(a: string, b: string, c: string)
    requires '_' !in a && '_' !in b && '_' !in c
    ensures CamelizeWords(a + "_" + (b + "_" + c)) == Capitalize(a) + (Capitalize(b) + Capitalize(c))
  {
    assert [a, b, c][1..] == [b, c] && [b, c][1..] == [c];
    assert Join([b, c], '_') == b + "_" + c;
    CamelizeWordsJoin([a, b, c]);
    var x, y, z := Capitalize(a), Capitalize(b), Capitalize(c);
    assert CapitalizeEach([c]) == [z];
    assert CapitalizeEach([b, c]) == [y, z];
    assert CapitalizeEach([a, b, c]) == [x, y, z];
    assert [x, y, z][1..] == [y, z] && [y, z][1..] == [z];
    assert Concat([y, z]) == y + z by {
      assert Concat([z]) == z + [];
    }
  }
}
