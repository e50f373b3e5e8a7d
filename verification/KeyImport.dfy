/** Bulk import of upstream keys: one account per line, in several loose formats (parseKeyLines). */
module KeyImport {
  import opened Text

  datatype ParsedKey = ParsedKey(name: string, key: string)

  const DASHES := "----"

  predicate HasPrefix(s: string, p: string) {
    p <= s
  }

  predicate LooksLikeUpstreamKey(s: string) {
    if HasPrefix(s, "jev_") || HasPrefix(s, "ts_") then Utf8Len(s) >= 8
    else if HasPrefix(s, "apikey_") then Utf8Len(s) >= 12
    else false
  }

  /** strings.ToLower, as far as equality with an ASCII word without `i` and `k` can tell. */
  function ToLower(s: string): string {
    seq(|s|, i requires 0 <= i < |s| => if 'A' <= s[i] <= 'Z' then (s[i] as int + 32) as char else s[i])
  }

  predicate LooksLikeAccountName(s: string) {
    s != "" && !LooksLikeUpstreamKey(s) && !HasPrefix(s, "key_") &&
    ToLower(s) !in {"auto", "manual", "true", "false"}
  }

  /** strings.ReplaceAll(line, "----", ","). */
  function ReplaceDashes(s: string): string {
    if s == "" then ""
    else if HasPrefix(s, DASHES) then "," + ReplaceDashes(s[4..])
    else [s[0]] + ReplaceDashes(s[1..])
  }

  function IsSeparator(): char -> bool {
    (c: char) => c == ',' || c == ';' || c == '|' || IsSpace(c)
  }

  function IsNewline(): char -> bool {
    (c: char) => c == '\n'
  }

  function SplitImportFields(line: string): seq<string> {
    FieldsBy(ReplaceDashes(line), IsSeparator())
  }

  function KeysOf(fields: seq<string>): seq<string> {
    if fields == [] then []
    else
      var f := fields[|fields| - 1];
      KeysOf(fields[..|fields| - 1]) + (if LooksLikeUpstreamKey(f) then [f] else [])
  }

  /** The first field that looks like an account name. */
  function NameOf(fields: seq<string>): string {
    if fields == [] then ""
    else
      var before := NameOf(fields[..|fields| - 1]);
      var f := fields[|fields| - 1];
      if before == "" && LooksLikeAccountName(f) then f else before
  }

  function Named(name: string, keys: seq<string>): seq<ParsedKey> {
    seq(|keys|, i requires 0 <= i < |keys| => ParsedKey(name, keys[i]))
  }

  /** What one line of the text offers, before repeated keys are dropped. */
  function LineMentions(raw: string): seq<ParsedKey> {
    var line := Trim(raw);
    if line == "" || HasPrefix(line, "#") then []
    else
      var fields := SplitImportFields(line);
      Named(NameOf(fields), KeysOf(fields))
  }

  function Mentions(lines: seq<string>): seq<ParsedKey> {
    if lines == [] then [] else Mentions(lines[..|lines| - 1]) + LineMentions(lines[|lines| - 1])
  }

  predicate HasKey(items: seq<ParsedKey>, key: string) {
    exists i :: 0 <= i < |items| && items[i].key == key
  }

  /** The closure `add`, on a key and name that have already been trimmed. */
  function Keep(out: seq<ParsedKey>, x: ParsedKey): seq<ParsedKey> {
    if HasKey(out, x.key) then out else out + [x]
  }

  /** The first mention of every key, in the order of the text. */
  function FirstByKey(items: seq<ParsedKey>): seq<ParsedKey> {
    if items == [] then [] else Keep(FirstByKey(items[..|items| - 1]), items[|items| - 1])
  }

  function Parsed(text: string): seq<ParsedKey> {
    FirstByKey(Mentions(SplitBy(text, IsNewline())))
  }

  /** The closure `add`: what it captures comes in and goes out. */
  method Add(out: seq<ParsedKey>, seen: set<string>, name: string, key: string)
    returns (out': seq<ParsedKey>, seen': set<string>)
    requires forall k :: k in seen <==> HasKey(out, k)
    ensures forall k :: k in seen' <==> HasKey(out', k)
    ensures out' == if LooksLikeUpstreamKey(Trim(key)) then Keep(out, ParsedKey(Trim(name), Trim(key))) else out
  {
    out', seen' := out, seen;
    var k := Trim(key);
    if !LooksLikeUpstreamKey(k) {
      return;
    }
    if k in seen {
      return;
    }
    var x := ParsedKey(Trim(name), k);
    seen', out' := seen + {k}, out + [x];
    HasKeyAppend(out, x);
  }

  /** The keys of a line and the first field that can name their account. */
  method ReadFields(fields: seq<string>) returns (name: string, keys: seq<string>)
    ensures name == NameOf(fields) && keys == KeysOf(fields)
  {
    name, keys := "", [];
    for f := 0 to |fields|
      invariant keys == KeysOf(fields[..f]) && name == NameOf(fields[..f])
    {
      assert fields[..f + 1][..f] == fields[..f];
      if LooksLikeUpstreamKey(fields[f]) {
        keys := keys + [fields[f]];
        continue;
      }
      if name == "" && LooksLikeAccountName(fields[f]) {
        name := fields[f];
      }
    }
    assert fields[..|fields|] == fields;
  }

  /** The loop over the keys of one line. */
  method AddAll(ghost before: seq<ParsedKey>, out: seq<ParsedKey>, seen: set<string>, name: string, keys: seq<string>)
    returns (out': seq<ParsedKey>, seen': set<string>)
    requires out == FirstByKey(before) && forall k :: k in seen <==> HasKey(out, k)
    requires Trim(name) == name && forall k :: k in keys ==> LooksLikeUpstreamKey(k) && Trim(k) == k
    ensures out' == FirstByKey(before + Named(name, keys))
    ensures forall k :: k in seen' <==> HasKey(out', k)
  {
    out', seen' := out, seen;
    assert before + Named(name, keys[..0]) == before;
    for k := 0 to |keys|
      invariant out' == FirstByKey(before + Named(name, keys[..k]))
      invariant forall k :: k in seen' <==> HasKey(out', k)
    {
      FirstByKeySnoc(before, name, keys, k);
      out', seen' := Add(out', seen', name, keys[k]);
    }
    assert keys[..|keys|] == keys;
  }

  method ParseKeyLines(text: string) returns (out: seq<ParsedKey>)
    ensures out == Parsed(text)
  {
    out := [];
    var seen: set<string> := {};
    var lines := SplitBy(text, IsNewline());
    assert Mentions(lines[..0]) == [] && FirstByKey([]) == [];
    hide Mentions, FirstByKey, HasKey, KeysOf, NameOf, SplitImportFields, Trim, SplitBy;
    for l := 0 to |lines|
      invariant out == FirstByKey(Mentions(lines[..l]))
      invariant forall k :: k in seen <==> HasKey(out, k)
    {
      ghost var before := Mentions(lines[..l]);
      MentionsSnoc(lines, l);
      var line := Trim(lines[l]);
      if line == "" || HasPrefix(line, "#") {
        assert before + [] == before;
        continue;
      }
      var fields := SplitImportFields(line);
      var name, keys := ReadFields(fields);
      MentionsAreTrimmed(line);
      out, seen := AddAll(before, out, seen, name, keys);
    }
    assert lines[..|lines|] == lines;
  }

  lemma MentionsSnoc(lines: seq<string>, l: nat)
    requires l < |lines|
    ensures Mentions(lines[..l + 1]) == Mentions(lines[..l]) + LineMentions(lines[l])
  {
    assert lines[..l + 1][..l] == lines[..l];
  }

  lemma FirstByKeySnoc(before: seq<ParsedKey>, name: string, keys: seq<string>, k: nat)
    requires k < |keys|
    ensures FirstByKey(before + Named(name, keys[..k + 1]))
         == Keep(FirstByKey(before + Named(name, keys[..k])), ParsedKey(name, keys[k]))
  {
    var more, next := before + Named(name, keys[..k]), before + Named(name, keys[..k + 1]);
    assert next[..|next| - 1] == more && next[|next| - 1] == ParsedKey(name, keys[k]);
  }

  // ---- what a field can be ----

  lemma HasKeyAppend(items: seq<ParsedKey>, x: ParsedKey)
    ensures forall k :: HasKey(items + [x], k) <==> HasKey(items, k) || k == x.key
  {
    var all := items + [x];
    assert all[|items|] == x;
    forall k | HasKey(items, k) ensures HasKey(all, k) {
      var i :| 0 <= i < |items| && items[i].key == k;
      assert all[i] == items[i];
    }
  }

  /** A run of four dashes would have been a separator. */
  predicate NoRun(s: string) {
    s == "" || (!HasPrefix(s, DASHES) && NoRun(s[1..]))
  }

  /** What a field of a line can be: non-empty, without separators. */
  predicate Field(s: string) {
    s != "" && NoRun(s) && forall c :: c in s ==> !IsSeparator()(c)
  }

  /** The number of dashes the string starts with. */
  function LeadingDashes(s: string): nat {
    if s != "" && s[0] == '-' then 1 + LeadingDashes(s[1..]) else 0
  }

  lemma FourDashes(s: string)
    ensures HasPrefix(s, DASHES) <==> LeadingDashes(s) >= 4
  {
    if |s| >= 4 {
      assert s[1..][0] == s[1] && s[1..][1..][0] == s[2] && s[1..][1..][1..][0] == s[3];
      assert LeadingDashes(s[1..]) >= 3 <==> s[1] == '-' && s[2] == '-' && s[3] == '-';
    } else if |s| > 0 {
      assert |s| > 1 ==> LeadingDashes(s[1..][1..]) <= 1;
    }
  }

  /** Fewer than four leading dashes survive; four become a comma. */
  lemma {:induction false} NoLeadingRun(s: string)
    ensures !HasPrefix(ReplaceDashes(s), DASHES)
    ensures LeadingDashes(s) < 4 ==> LeadingDashes(ReplaceDashes(s)) == LeadingDashes(s)
  {
    FourDashes(s);
    FourDashes(ReplaceDashes(s));
    if s != "" && LeadingDashes(s) < 4 {
      NoLeadingRun(s[1..]);
      assert ReplaceDashes(s)[1..] == ReplaceDashes(s[1..]);
    }
  }

  lemma {:induction false} ReplacedHasNoRun(s: string)
    ensures NoRun(ReplaceDashes(s))
  {
    NoLeadingRun(s);
    if s != "" {
      var n := if HasPrefix(s, DASHES) then 4 else 1;
      ReplacedHasNoRun(s[n..]);
      assert ReplaceDashes(s)[1..] == ReplaceDashes(s[n..]);
    }
  }

  lemma {:induction false} NothingToReplace(s: string)
    requires NoRun(s)
    ensures ReplaceDashes(s) == s
  {
    if s != "" {
      NothingToReplace(s[1..]);
    }
  }

  lemma {:induction false} PiecesHaveNoRun(s: string, sep: char -> bool)
    requires NoRun(s)
    ensures SplitBy(s, sep)[0] <= s
    ensures forall p :: p in SplitBy(s, sep) ==> NoRun(p)
  {
    if s != "" {
      PiecesHaveNoRun(s[1..], sep);
      var rest := SplitBy(s[1..], sep);
      assert rest[0] in rest && forall p :: p in rest[1..] ==> p in rest;
      var p := [s[0]] + rest[0];
      assert p <= s && p[1..] == rest[0];
      assert NoRun(p);
    }
  }

  lemma FieldsAreFields(line: string)
    ensures forall f :: f in SplitImportFields(line) ==> Field(f)
  {
    var s := ReplaceDashes(line);
    ReplacedHasNoRun(line);
    PiecesHaveNoRun(s, IsSeparator());
    PiecesClean(s, IsSeparator());
    NonEmptyAre(SplitBy(s, IsSeparator()));
  }

  lemma {:induction false} KeysAndNameAreFields(fields: seq<string>)
    ensures forall k :: k in KeysOf(fields) ==> k in fields && LooksLikeUpstreamKey(k)
    ensures NameOf(fields) == "" || (NameOf(fields) in fields && LooksLikeAccountName(NameOf(fields)))
  {
    if fields != [] {
      KeysAndNameAreFields(fields[..|fields| - 1]);
      assert fields == fields[..|fields| - 1] + [fields[|fields| - 1]];
    }
  }

  /** A key and the name the line gives it: the key is long enough, neither could be split further. */
  predicate WellFormed(x: ParsedKey) {
    LooksLikeUpstreamKey(x.key) && Field(x.key) && (x.name == "" || (LooksLikeAccountName(x.name) && Field(x.name)))
  }

  lemma FieldIsTrimmed(s: string)
    requires s == "" || Field(s)
    ensures Trim(s) == s
  {
    if s != "" {
      assert s[0] in s && s[|s| - 1] in s;
      assert !IsSeparator()(s[0]) && !IsSeparator()(s[|s| - 1]);
    }
    TrimClean(s);
  }

  lemma {:induction false} MentionsAreTrimmed(line: string)
    ensures var fields := SplitImportFields(line);
      Trim(NameOf(fields)) == NameOf(fields) &&
      forall k :: k in KeysOf(fields) ==> WellFormed(ParsedKey(NameOf(fields), k)) && Trim(k) == k
  {
    var fields := SplitImportFields(line);
    FieldsAreFields(line);
    KeysAndNameAreFields(fields);
    FieldIsTrimmed(NameOf(fields));
    forall k | k in KeysOf(fields) ensures Trim(k) == k {
      FieldIsTrimmed(k);
    }
  }

  lemma {:induction false} MentionsAreWellFormed(lines: seq<string>)
    ensures forall x :: x in Mentions(lines) ==> WellFormed(x)
  {
    if lines != [] {
      MentionsAreWellFormed(lines[..|lines| - 1]);
      MentionsAreTrimmed(Trim(lines[|lines| - 1]));
    }
  }

  // ---- the result: distinct, well-formed, in the order of first appearance ----

  predicate Distinct(items: seq<ParsedKey>) {
    forall i, j :: 0 <= i < j < |items| ==> items[i].key != items[j].key
  }

  /** Where the key is first mentioned; the length of the list when it never is. */
  function FirstAt(items: seq<ParsedKey>, key: string): (i: nat)
    ensures i <= |items| && (i < |items| <==> HasKey(items, key))
    ensures i < |items| ==> items[i].key == key && forall j :: 0 <= j < i ==> items[j].key != key
  {
    if items == [] then 0
    else
      var i := FirstAt(items[..|items| - 1], key);
      if i < |items| - 1 || items[|items| - 1].key == key then i else i + 1
  }

  /** `out` lists each key of `items` once, with the name of its first mention, in the order of first mention. */
  predicate FirstMentions(items: seq<ParsedKey>, out: seq<ParsedKey>) {
    (forall x :: x in items ==> HasKey(out, x.key)) &&
    (forall i :: 0 <= i < |out| ==> HasKey(items, out[i].key) && items[FirstAt(items, out[i].key)] == out[i]) &&
    (forall i, j :: 0 <= i < j < |out| ==> FirstAt(items, out[i].key) < FirstAt(items, out[j].key))
  }

  lemma FirstAtAppend(items: seq<ParsedKey>, x: ParsedKey, key: string)
    ensures FirstAt(items + [x], key)
         == if HasKey(items, key) then FirstAt(items, key) else if key == x.key then |items| else |items| + 1
  {
    assert (items + [x])[..|items|] == items;
  }

  lemma {:induction false} FirstByKeyIsFirstMentions(items: seq<ParsedKey>)
    ensures FirstMentions(items, FirstByKey(items)) && Distinct(FirstByKey(items))
  {
    if items != [] {
      var before, x := items[..|items| - 1], items[|items| - 1];
      FirstByKeyIsFirstMentions(before);
      assert items == before + [x];
      KeepFirstMention(before, FirstByKey(before), x);
    }
  }

  lemma {:induction false} KeepFirstMention(items: seq<ParsedKey>, out: seq<ParsedKey>, x: ParsedKey)
    requires FirstMentions(items, out) && Distinct(out)
    ensures FirstMentions(items + [x], Keep(out, x)) && Distinct(Keep(out, x))
  {
    hide FirstAt;
    var all, kept := items + [x], Keep(out, x);
    HasKeyAppend(items, x);
    HasKeyAppend(out, x);
    assert HasKey(items, x.key) ==> HasKey(out, x.key) by {
      if HasKey(items, x.key) {
        assert items[FirstAt(items, x.key)] in items;
      }
    }
    forall i | 0 <= i < |kept|
      ensures HasKey(all, kept[i].key) && all[FirstAt(all, kept[i].key)] == kept[i]
      ensures FirstAt(all, kept[i].key) == if i < |out| then FirstAt(items, out[i].key) else |items|
    {
      FirstAtAppend(items, x, kept[i].key);
    }
  }

  /** Keys are pairwise distinct and well formed, and stand in the order in which the text first mentions them. */
  lemma {:induction false} ImportNormalForm(text: string)
    ensures Distinct(Parsed(text)) && forall x :: x in Parsed(text) ==> WellFormed(x)
    ensures FirstMentions(Mentions(SplitBy(text, IsNewline())), Parsed(text))
  {
    var items := Mentions(SplitBy(text, IsNewline()));
    FirstByKeyIsFirstMentions(items);
    MentionsAreWellFormed(SplitBy(text, IsNewline()));
    forall x | x in Parsed(text) ensures x in items {
      var i :| 0 <= i < |Parsed(text)| && Parsed(text)[i] == x;
      assert items[FirstAt(items, x.key)] == x;
    }
  }

  // ---- printing a list and importing it again ----

  function Line(x: ParsedKey, nameFirst: bool): string {
    if x.name == "" then x.key else if nameFirst then x.name + [' '] + x.key else x.key + [' '] + x.name
  }

  function Print(items: seq<ParsedKey>, nameFirst: bool): string {
    if items == [] then "" else Line(items[0], nameFirst) + ['\n'] + Print(items[1..], nameFirst)
  }

  /** The line would read as a comment. */
  predicate Commented(x: ParsedKey, nameFirst: bool) {
    nameFirst && HasPrefix(x.name, "#")
  }

  /** What importing the printed list gives: the lines that read as comments are lost. */
  function Legible(items: seq<ParsedKey>, nameFirst: bool): seq<ParsedKey> {
    if items == [] then []
    else (if Commented(items[0], nameFirst) then [] else [items[0]]) + Legible(items[1..], nameFirst)
  }

  lemma {:induction false} NoRunAcrossSpace(a: string, b: string)
    requires NoRun(a) && NoRun(b)
    ensures LeadingDashes(a + [' '] + b) == LeadingDashes(a)
    ensures NoRun(a + [' '] + b)
  {
    var s := a + [' '] + b;
    if a == "" {
      assert s[1..] == b && s[0] == ' ';
    } else {
      NoRunAcrossSpace(a[1..], b);
      assert s[1..] == a[1..] + [' '] + b && s[0] == a[0];
    }
    FourDashes(s);
    FourDashes(a);
  }

  lemma NonEmptyPair(a: string, b: string)
    requires a != "" && b != ""
    ensures NonEmpty([a]) == [a] && NonEmpty([a, b]) == [a, b]
  {
    assert [a, b][..1] == [a] && [a][..0] == [];
    assert NonEmpty([a]) == NonEmpty([]) + [a];
    assert NonEmpty([a, b]) == NonEmpty([a]) + [b];
  }

  lemma OneField(a: string)
    requires Field(a)
    ensures Trim(a) == a
    ensures SplitImportFields(a) == [a]
  {
    FieldIsTrimmed(a);
    NothingToReplace(a);
    SplitWhole(a, IsSeparator());
    NonEmptyPair(a, a);
  }

  /** Two fields on a line are read back as they were written. */
  lemma TwoFields(a: string, b: string)
    requires Field(a) && Field(b)
    ensures SplitImportFields(a + [' '] + b) == [a, b]
  {
    var s := a + [' '] + b;
    NoRunAcrossSpace(a, b);
    NothingToReplace(s);
    assert IsSeparator()(' ');
    SplitJoin(a, ' ', b, IsSeparator());
    SplitWhole(a, IsSeparator());
    SplitWhole(b, IsSeparator());
    NonEmptyPair(a, b);
    assert [a] + [b] == [a, b];
  }

  lemma TwoFieldsTrimmed(a: string, b: string)
    requires Field(a) && Field(b)
    ensures Trim(a + [' '] + b) == a + [' '] + b
  {
    var s := a + [' '] + b;
    assert a[0] in a && b[|b| - 1] in b && s[0] == a[0] && s[|s| - 1] == b[|b| - 1];
    assert !IsSeparator()(a[0]) && !IsSeparator()(b[|b| - 1]);
    TrimClean(s);
  }

  lemma FieldsOfTwo(a: string, b: string)
    ensures KeysOf([a, b]) == KeysOf([a]) + KeysOf([b])
    ensures NameOf([a, b]) == if NameOf([a]) != "" then NameOf([a]) else NameOf([b])
  {
    assert [a, b][..1] == [a] && [b][..0] == [];
    assert NameOf([b]) == if LooksLikeAccountName(b) then b else "";
  }

  lemma FieldsOfOne(a: string)
    ensures KeysOf([a]) == if LooksLikeUpstreamKey(a) then [a] else []
    ensures NameOf([a]) == if LooksLikeAccountName(a) then a else ""
  {
    assert [a][..0] == [];
    assert KeysOf([]) == [] && NameOf([]) == "";
  }

  lemma LineOfTwo(a: string, b: string)
    requires Field(a) && Field(b)
    ensures LineMentions(a + [' '] + b) == if HasPrefix(a, "#") then [] else Named(NameOf([a, b]), KeysOf([a, b]))
  {
    TwoFieldsTrimmed(a, b);
    TwoFields(a, b);
    assert (a + [' '] + b)[0] == a[0];
  }

  lemma PrintedLine(x: ParsedKey, nameFirst: bool)
    requires WellFormed(x)
    ensures LineMentions(Line(x, nameFirst)) == if Commented(x, nameFirst) then [] else [x]
  {
    FieldsOfOne(x.key);
    FieldsOfOne(x.name);
    assert Named(x.name, [x.key]) == [x];
    if x.name == "" {
      OneField(x.key);
    } else if nameFirst {
      LineOfTwo(x.name, x.key);
      FieldsOfTwo(x.name, x.key);
    } else {
      LineOfTwo(x.key, x.name);
      FieldsOfTwo(x.key, x.name);
    }
  }

  lemma LineIsOneLine(x: ParsedKey, nameFirst: bool)
    requires WellFormed(x)
    ensures SplitBy(Line(x, nameFirst), IsNewline()) == [Line(x, nameFirst)]
  {
    forall c | c in Line(x, nameFirst) ensures !IsNewline()(c) {
      assert c == ' ' || !IsSeparator()(c);
    }
    SplitWhole(Line(x, nameFirst), IsNewline());
  }

  lemma {:induction false} MentionsAppend(a: seq<string>, b: seq<string>)
    ensures Mentions(a + b) == Mentions(a) + Mentions(b)
  {
    hide LineMentions;
    if b == [] {
      assert a + b == a;
    } else {
      var b', x, all := b[..|b| - 1], b[|b| - 1], a + b;
      MentionsAppend(a, b');
      assert all[..|all| - 1] == a + b' && all[|all| - 1] == x;
      assert Mentions(all) == Mentions(a + b') + LineMentions(x);
      assert Mentions(b) == Mentions(b') + LineMentions(x);
    }
  }

  lemma MentionsOfOne(line: string)
    ensures Mentions([line]) == LineMentions(line)
    ensures LineMentions("") == []
  {
    assert [line][..0] == [] && Mentions([line]) == [] + LineMentions(line);
  }

  lemma {:induction false} MentionsOfPrinted(items: seq<ParsedKey>, nameFirst: bool)
    requires forall x :: x in items ==> WellFormed(x)
    ensures Mentions(SplitBy(Print(items, nameFirst), IsNewline())) == Legible(items, nameFirst)
  {
    hide LineMentions, Line, WellFormed, Mentions, Commented, IsNewline;
    if items == [] {
      MentionsOfOne("");
    } else {
      var line, rest := Line(items[0], nameFirst), Print(items[1..], nameFirst);
      MentionsOfPrinted(items[1..], nameFirst);
      LineIsOneLine(items[0], nameFirst);
      NewlineSeparates();
      SplitJoin(line, '\n', rest, IsNewline());
      MentionsAppend([line], SplitBy(rest, IsNewline()));
      MentionsOfOne(line);
      PrintedLine(items[0], nameFirst);
    }
  }

  lemma NewlineSeparates()
    ensures IsNewline()('\n')
  {
  }

  lemma {:induction false} LegibleAre(items: seq<ParsedKey>, nameFirst: bool)
    ensures forall x :: x in Legible(items, nameFirst) <==> x in items && !Commented(x, nameFirst)
  {
    if items != [] {
      hide Commented;
      LegibleAre(items[1..], nameFirst);
      assert items == [items[0]] + items[1..];
    }
  }

  lemma {:induction false} LegibleStaysDistinct(items: seq<ParsedKey>, nameFirst: bool)
    requires Distinct(items)
    ensures Distinct(Legible(items, nameFirst))
  {
    hide Distinct, Commented;
    if items == [] {
      assert Legible(items, nameFirst) == items;
    } else {
      var rest := Legible(items[1..], nameFirst);
      DistinctFirst(items);
      LegibleStaysDistinct(items[1..], nameFirst);
      LegibleAre(items[1..], nameFirst);
      assert [] + rest == rest;
      DistinctCons(items[0], rest);
    }
  }

  lemma {:induction false} NothingRepeated(items: seq<ParsedKey>)
    requires Distinct(items)
    ensures FirstByKey(items) == items
  {
    hide Distinct, HasKey;
    if items != [] {
      DistinctLast(items);
      NothingRepeated(items[..|items| - 1]);
    }
  }

  lemma DistinctLast(items: seq<ParsedKey>)
    requires items != [] && Distinct(items)
    ensures Distinct(items[..|items| - 1]) && !HasKey(items[..|items| - 1], items[|items| - 1].key)
  {
  }

  lemma DistinctFirst(items: seq<ParsedKey>)
    requires items != [] && Distinct(items)
    ensures Distinct(items[1..]) && forall y :: y in items[1..] ==> y.key != items[0].key
  {
    assert forall i :: 0 <= i < |items| - 1 ==> items[1..][i] == items[i + 1];
  }

  lemma DistinctCons(x: ParsedKey, rest: seq<ParsedKey>)
    requires Distinct(rest) && forall y :: y in rest ==> y.key != x.key
    ensures Distinct([x] + rest)
  {
    assert forall j :: 0 <= j < |rest| ==> rest[j] in rest;
  }

  /** Importing a printed list of distinct, well-formed entries gives the entries whose line is no comment. */
  lemma PrintThenParse(items: seq<ParsedKey>, nameFirst: bool)
    requires Distinct(items) && forall x :: x in items ==> WellFormed(x)
    ensures Parsed(Print(items, nameFirst)) == Legible(items, nameFirst)
  {
    MentionsOfPrinted(items, nameFirst);
    LegibleStaysDistinct(items, nameFirst);
    NothingRepeated(Legible(items, nameFirst));
  }

  lemma {:induction false} AllLegible(items: seq<ParsedKey>, nameFirst: bool)
    ensures Legible(items, nameFirst) == items <==> forall x :: x in items ==> !Commented(x, nameFirst)
    ensures |Legible(items, nameFirst)| <= |items|
  {
    if items != [] {
      AllLegible(items[1..], nameFirst);
      assert items == [items[0]] + items[1..];
      assert forall x :: x in items <==> x == items[0] || x in items[1..];
      var rest := Legible(items[1..], nameFirst);
      if !Commented(items[0], nameFirst) && [items[0]] + rest == items {
        assert rest == items[1..];
      }
    }
  }

  /** An import printed as "key name" lines and imported again is unchanged, whatever the text was. */
  lemma {:induction false} ReimportIsIdentity(text: string)
    ensures Parsed(Print(Parsed(text), false)) == Parsed(text)
  {
    ImportNormalForm(text);
    PrintThenParse(Parsed(text), false);
    AllLegible(Parsed(text), false);
  }

  /** The documented "name key" order keeps the list exactly when no name starts with the comment sign. */
  lemma {:induction false} NameFirstIsIdentityIff(text: string)
    ensures Parsed(Print(Parsed(text), true)) == Parsed(text)
       <==> forall x :: x in Parsed(text) ==> !HasPrefix(x.name, "#")
  {
    ImportNormalForm(text);
    PrintThenParse(Parsed(text), true);
    AllLegible(Parsed(text), true);
  }

  lemma {:induction false} PlainAscii(s: string)
    requires forall i :: 0 <= i < |s| ==> s[i] < '\U{80}' && s[i] != '-' && !IsSeparator()(s[i])
    ensures NoRun(s) && Utf8Len(s) == |s|
    ensures s != "" ==> Field(s)
  {
    if s != "" {
      PlainAscii(s[1..]);
      PlainAscii(s[..|s| - 1]);
      assert DASHES[0] == '-';
    }
  }

  /** An account named with a leading comment sign survives a "key name" line and is lost by a "name key" line. */
  lemma NameFirstLoses(x: ParsedKey)
    requires WellFormed(x) && HasPrefix(x.name, "#")
    ensures Parsed(Print([x], false)) == [x] && Parsed(Print([x], true)) == []
  {
    PrintThenParse([x], true);
    PrintThenParse([x], false);
    assert Legible([x][1..], true) == [] && Legible([x][1..], false) == [];
  }

  lemma NotAKey(s: string)
    requires s != "" && s[0] !in {'j', 't', 'a', 'k', 'm', 'f', 'J', 'T', 'A', 'M', 'F'}
    ensures LooksLikeAccountName(s)
  {
    assert "jev_"[0] == 'j' && "ts_"[0] == 't' && "apikey_"[0] == 'a' && "key_"[0] == 'k';
    assert "auto"[0] == 'a' && "manual"[0] == 'm' && "true"[0] == 't' && "false"[0] == 'f';
    assert ToLower(s)[0] == if 'A' <= s[0] <= 'Z' then (s[0] as int + 32) as char else s[0];
  }

  /** There are such accounts. */
  lemma CommentLikeName()
    ensures WellFormed(ParsedKey("#1", "jev_abcd")) && HasPrefix("#1", "#")
  {
    hide Field, LooksLikeAccountName, NoRun, Utf8Len, ToLower;
    PlainAscii("#1");
    NotAKey("#1");
    PlainAscii("jev_abcd");
  }
}
