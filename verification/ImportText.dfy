/** What a line of an imported key list means, told from its text: its fields, its keys and their name. */
module ImportText {
  import opened Text
  import opened Seqs
  import opened KeyImport

  // ---------------------------------------------------------------- fields

  /** s is the fields in this order, with at least one separator between any two and any number around them. */
  ghost predicate Separated(s: string, fields: seq<string>, sep: char -> bool)
    decreases |fields|, 1
  {
    exists i: nat :: Leading(s, i, sep) && FieldsFrom(s, i, fields, sep)
  }

  /** The first field starts at position i; without fields this is the end. */
  ghost predicate FieldsFrom(s: string, i: nat, fields: seq<string>, sep: char -> bool)
    decreases |fields|, 0
  {
    if fields == [] then i == |s|
    else FieldAt(s, i, fields[0], sep) && Separated(s[i + |fields[0]|..], fields[1..], sep)
  }

  /** The first i characters are separators. */
  ghost predicate Leading(s: string, i: nat, sep: char -> bool) {
    i <= |s| && forall m :: 0 <= m < i ==> sep(s[m])
  }

  /** Field f starts at position i and ends at a separator or with the string. */
  ghost predicate FieldAt(s: string, i: nat, f: string, sep: char -> bool) {
    f != "" && i + |f| <= |s| && s[i..i + |f|] == f && (forall m :: 0 <= m < |f| ==> !sep(f[m])) &&
    (i + |f| == |s| || sep(s[i + |f|]))
  }

  lemma {:induction false} NonEmptyFirst(p: string, rest: seq<string>)
    ensures NonEmpty([p] + rest) == (if p == "" then [] else [p]) + NonEmpty(rest)
  {
    var all := [p] + rest;
    if rest == [] {
      assert all[..0] == [];
    } else {
      NonEmptyFirst(p, rest[..|rest| - 1]);
      assert all[..|all| - 1] == [p] + rest[..|rest| - 1];
    }
  }

  /** The first piece ends where the first separator stands. */
  lemma FirstPiece(s: string, sep: char -> bool)
    ensures var p := SplitBy(s, sep)[0];
      |p| <= |s| && p == s[..|p|] && (forall m :: 0 <= m < |p| ==> !sep(p[m])) && (|p| == |s| || sep(s[|p|]))
  {
    if s != "" && !sep(s[0]) {
      FirstPiece(s[1..], sep);
    }
  }

  /** One more character in front: a separator changes nothing, anything else makes the first piece longer. */
  lemma FieldsByStep(s: string, sep: char -> bool)
    requires s != ""
    ensures var rest := SplitBy(s[1..], sep);
      if sep(s[0]) then FieldsBy(s, sep) == FieldsBy(s[1..], sep)
      else
        FieldsBy(s, sep) == [[s[0]] + rest[0]] + NonEmpty(rest[1..]) &&
        FieldsBy(s[1..], sep) == (if rest[0] == "" then [] else [rest[0]]) + NonEmpty(rest[1..])
  {
    var rest := SplitBy(s[1..], sep);
    assert rest == [rest[0]] + rest[1..];
    hide NonEmpty;
    NonEmptyFirst(rest[0], rest[1..]);
    NonEmptyFirst("", rest);
    NonEmptyFirst([s[0]] + rest[0], rest[1..]);
    assert [] + NonEmpty(rest) == NonEmpty(rest);
  }

  lemma {:induction false} FieldsSeparate(s: string, sep: char -> bool)
    ensures Separated(s, FieldsBy(s, sep), sep)
  {
    if s == "" {
      assert [""][..0] == [] && NonEmpty([""]) == [];
      assert Leading(s, 0, sep);
    } else {
      FieldsByStep(s, sep);
      hide FieldsBy, NonEmpty, Separated;
      FieldsSeparate(s[1..], sep);
      if sep(s[0]) {
        OneMoreSeparator(s, FieldsBy(s[1..], sep), sep);
      } else {
        var rest := SplitBy(s[1..], sep);
        FirstPiece(s[1..], sep);
        LongerField(s, rest[0], NonEmpty(rest[1..]), sep);
      }
    }
  }

  lemma OneMoreSeparator(s: string, fields: seq<string>, sep: char -> bool)
    requires s != "" && sep(s[0]) && Separated(s[1..], fields, sep)
    ensures Separated(s, fields, sep)
  {
    var t := s[1..];
    var i: nat :| Leading(t, i, sep) && FieldsFrom(t, i, fields, sep);
    forall m | 0 <= m < i + 1 ensures sep(s[m]) {
      assert m > 0 ==> s[m] == t[m - 1];
    }
    assert Leading(s, i + 1, sep);
    if fields != [] {
      var f := fields[0];
      assert s[i + 1..i + 1 + |f|] == t[i..i + |f|] && s[i + 1 + |f|..] == t[i + |f|..];
      assert FieldAt(s, i + 1, f, sep);
    }
  }

  /** The piece before the first separator, one character longer. */
  lemma LongerField(s: string, p: string, fields: seq<string>, sep: char -> bool)
    requires s != "" && !sep(s[0])
    requires |p| <= |s| - 1 && p == s[1..][..|p|] && (forall m :: 0 <= m < |p| ==> !sep(p[m]))
    requires |p| == |s| - 1 || sep(s[1..][|p|])
    requires Separated(s[1..], (if p == "" then [] else [p]) + fields, sep)
    ensures Separated(s, [[s[0]] + p] + fields, sep)
  {
    var t, f, all := s[1..], [s[0]] + p, [[s[0]] + p] + fields;
    assert f == s[..|p| + 1] && all[0] == f && all[1..] == fields;
    assert Leading(s, 0, sep) && FieldAt(s, 0, f, sep);
    if p == "" {
      assert [] + fields == fields && s[|f|..] == t;
    } else {
      var both := [p] + fields;
      assert both[0] == p && both[1..] == fields;
      var i: nat :| Leading(t, i, sep) && FieldsFrom(t, i, both, sep);
      assert !sep(p[0]) && t[0] == p[0] && i == 0;
      assert s[|f|..] == t[|p|..];
    }
  }

  lemma {:induction false} OneSeparation(s: string, a: seq<string>, b: seq<string>, sep: char -> bool)
    requires Separated(s, a, sep) && Separated(s, b, sep)
    ensures a == b
    decreases |a|
  {
    var i: nat :| Leading(s, i, sep) && FieldsFrom(s, i, a, sep);
    var j: nat :| Leading(s, j, sep) && FieldsFrom(s, j, b, sep);
    if a != [] {
      assert s[i] == a[0][0];
    }
    if b != [] {
      assert s[j] == b[0][0];
    }
    assert i == j;
    if a != [] && b != [] {
      SameField(s, i, a[0], b[0], sep);
      OneSeparation(s[i + |a[0]|..], a[1..], b[1..], sep);
      assert a == [a[0]] + a[1..] && b == [b[0]] + b[1..];
    }
  }

  lemma SameField(s: string, i: nat, f: string, g: string, sep: char -> bool)
    requires FieldAt(s, i, f, sep) && FieldAt(s, i, g, sep)
    ensures f == g
  {
    NoSeparatorWithin(s, i, f, sep);
    NoSeparatorWithin(s, i, g, sep);
    assert |f| == |g|;
  }

  lemma NoSeparatorWithin(s: string, i: nat, f: string, sep: char -> bool)
    requires FieldAt(s, i, f, sep)
    ensures forall m :: i <= m < i + |f| ==> !sep(s[m])
  {
    forall m | i <= m < i + |f| ensures !sep(s[m]) {
      assert s[m] == f[m - i];
    }
  }

  /** Splitting a text into fields finds exactly its fields. */
  lemma {:induction false} FieldsIff(s: string, fields: seq<string>, sep: char -> bool)
    ensures FieldsBy(s, sep) == fields <==> Separated(s, fields, sep)
  {
    FieldsSeparate(s, sep);
    if Separated(s, fields, sep) {
      OneSeparation(s, fields, FieldsBy(s, sep), sep);
    }
  }

  /** The leftmost run of four dashes becomes a comma, then the rest is looked at. */
  lemma {:induction false} FirstRunReplaced(a: string, b: string)
    requires forall i :: 0 <= i < |a| ==> !("----" <= (a + "----" + b)[i..])
    ensures ReplaceDashes(a + "----" + b) == a + "," + ReplaceDashes(b)
  {
    var s := a + "----" + b;
    if a == "" {
      assert s[4..] == b && "----" <= s;
    } else {
      assert !("----" <= s[0..]) && s[1..] == a[1..] + "----" + b;
      forall i | 0 <= i < |a[1..]| ensures !("----" <= s[1..][i..]) {
        assert s[1..][i..] == s[i + 1..];
      }
      FirstRunReplaced(a[1..], b);
      assert [a[0]] + (a[1..] + "," + ReplaceDashes(b)) == a + "," + ReplaceDashes(b);
    }
  }

  // ---------------------------------------------------------------- keys and names

  predicate KeyShape(s: string) {
    (("jev_" <= s || "ts_" <= s) && Utf8Len(s) >= 8) || ("apikey_" <= s && Utf8Len(s) >= 12)
  }

  /** s is this lower-case word, in whatever case. */
  predicate IsWord(s: string, word: string) {
    |s| == |word| && forall i :: 0 <= i < |s| ==> s[i] == word[i] || s[i] as int + 32 == word[i] as int
  }

  predicate NameShape(s: string) {
    s != "" && !KeyShape(s) && !("key_" <= s) &&
    !IsWord(s, "auto") && !IsWord(s, "manual") && !IsWord(s, "true") && !IsWord(s, "false")
  }

  predicate LowerCase(word: string) {
    forall i :: 0 <= i < |word| ==> 'a' <= word[i] <= 'z'
  }

  lemma WordIff(s: string, word: string)
    requires LowerCase(word)
    ensures ToLower(s) == word <==> IsWord(s, word)
  {
    assert |ToLower(s)| == |s|;
    if ToLower(s) == word {
      forall i | 0 <= i < |s| ensures s[i] == word[i] || s[i] as int + 32 == word[i] as int {
        assert ToLower(s)[i] == word[i];
      }
    }
  }

  lemma ShapesAre(s: string)
    ensures LooksLikeUpstreamKey(s) <==> KeyShape(s)
    ensures LooksLikeAccountName(s) <==> NameShape(s)
  {
    if "apikey_" <= s {
      PrefixesExclude(s);
    }
    WordIff(s, "auto");
    WordIff(s, "manual");
    WordIff(s, "true");
    WordIff(s, "false");
  }

  lemma PrefixesExclude(s: string)
    requires "apikey_" <= s
    ensures !("jev_" <= s) && !("ts_" <= s)
  {
    assert s[0] == 'a' && "jev_"[0] == 'j' && "ts_"[0] == 't';
  }

  /** The first field that can name an account, or no name if there is none. */
  ghost predicate NameIs(fields: seq<string>, name: string) {
    (name == "" && forall f :: f in fields ==> !NameShape(f)) ||
    exists n: nat ::
      n < |fields| && fields[n] == name && NameShape(name) && forall m :: 0 <= m < n ==> !NameShape(fields[m])
  }

  /** The fields that are keys, as often as they stand there and in that order. */
  ghost predicate KeysAre(fields: seq<string>, keys: seq<string>) {
    (forall f :: multiset(keys)[f] == if KeyShape(f) then multiset(fields)[f] else 0) &&
    exists at :: TakenFrom(keys, fields, at)
  }

  lemma {:induction false} NameOfIs(fields: seq<string>)
    ensures NameIs(fields, NameOf(fields))
  {
    if fields != [] {
      var n := |fields| - 1;
      NameOfIs(fields[..n]);
      ShapesAre(fields[n]);
      assert fields == fields[..n] + [fields[n]];
    }
  }

  function KeyPlaces(fields: seq<string>): seq<nat> {
    if fields == [] then []
    else
      var n := |fields| - 1;
      KeyPlaces(fields[..n]) + (if LooksLikeUpstreamKey(fields[n]) then [n] else [])
  }

  lemma {:induction false} KeysOfAre(fields: seq<string>)
    ensures forall f :: multiset(KeysOf(fields))[f] == if KeyShape(f) then multiset(fields)[f] else 0
    ensures TakenFrom(KeysOf(fields), fields, KeyPlaces(fields))
  {
    if fields != [] {
      var n := |fields| - 1;
      KeysOfAre(fields[..n]);
      ShapesAre(fields[n]);
      assert fields == fields[..n] + [fields[n]];
      var more := if LooksLikeUpstreamKey(fields[n]) then [fields[n]] else [];
      assert multiset(KeysOf(fields)) == multiset(KeysOf(fields[..n])) + multiset(more);
    }
  }

  /** What a line means: nothing if it is blank or a comment, otherwise each of its keys under its one name. */
  ghost predicate Means(line: string, fields: seq<string>, items: seq<ParsedKey>) {
    if line == "" || line[0] == '#' then items == []
    else
      KeysAre(fields, seq(|items|, i requires 0 <= i < |items| => items[i].key)) &&
      forall x :: x in items ==> NameIs(fields, x.name)
  }

  /**
   Every line of an import gives what it says: trim it, cut it into fields at commas, semicolons, bars, white space
   and runs of four dashes, and take the fields that are keys under the first field that can be a name.
   */
  lemma {:induction false} LineMeans(raw: string, line: string, fields: seq<string>)
    requires Clean(line) && Padded(raw, line)
    requires Separated(ReplaceDashes(line), fields, (c: char) => c in {',', ';', '|'} || IsSpace(c))
    ensures Means(line, fields, LineMentions(raw))
  {
    TrimIff(raw, line);
    SameSeparators(ReplaceDashes(line), fields, (c: char) => c in {',', ';', '|'} || IsSpace(c), IsSeparator());
    FieldsIff(ReplaceDashes(line), fields, IsSeparator());
    hide Separated, ReplaceDashes, FieldsBy, Trim, Clean, Padded;
    FieldsMean(line, fields);
  }

  lemma FieldsMean(line: string, fields: seq<string>)
    ensures Means(line, fields,
                  if line == "" || HasPrefix(line, "#") then [] else Named(NameOf(fields), KeysOf(fields)))
  {
    var keys, name := KeysOf(fields), NameOf(fields);
    var items := Named(name, keys);
    NameOfIs(fields);
    KeysOfAre(fields);
    hide KeysOf, NameOf, NameIs, KeyShape, TakenFrom, KeyPlaces;
    assert seq(|items|, i requires 0 <= i < |items| => items[i].key) == keys;
    assert HasPrefix(line, "#") <==> line != "" && line[0] == '#';
  }

  lemma {:induction false} SameSeparators(s: string, fields: seq<string>, p: char -> bool, q: char -> bool)
    requires Separated(s, fields, p) && forall c :: p(c) == q(c)
    ensures Separated(s, fields, q)
    decreases |fields|
  {
    var i: nat :| Leading(s, i, p) && FieldsFrom(s, i, fields, p);
    assert Leading(s, i, q);
    if fields != [] {
      assert FieldAt(s, i, fields[0], q);
      SameSeparators(s[i + |fields[0]|..], fields[1..], p, q);
    }
  }
}
