/** The few pieces of Go's strings and unicode packages the text functions rely on, over Unicode scalar values. */
module Text {
  /** unicode.IsSpace. */
  predicate IsSpace(c: char) {
    '\t' <= c <= '\r' || c == ' ' || c == '\U{85}' || c == '\U{A0}' || c == '\U{1680}' ||
    '\U{2000}' <= c <= '\U{200A}' || c == '\U{2028}' || c == '\U{2029}' || c == '\U{202F}' ||
    c == '\U{205F}' || c == '\U{3000}'
  }

  function TrimLeft(s: string): string {
    if s != "" && IsSpace(s[0]) then TrimLeft(s[1..]) else s
  }

  function TrimRight(s: string): string {
    if s != "" && IsSpace(s[|s| - 1]) then TrimRight(s[..|s| - 1]) else s
  }

  /** strings.TrimSpace. */
  function Trim(s: string): string {
    TrimRight(TrimLeft(s))
  }

  function Utf8Width(c: char): nat {
    if c < '\U{80}' then 1 else if c < '\U{800}' then 2 else if c < '\U{10000}' then 3 else 4
  }

  /** len(s): Go counts bytes. */
  function Utf8Len(s: string): nat {
    if s == "" then 0 else Utf8Len(s[..|s| - 1]) + Utf8Width(s[|s| - 1])
  }

  /** The pieces between separators, empty ones included: strings.Split on one character. */
  function SplitBy(s: string, sep: char -> bool): (pieces: seq<string>)
    ensures pieces != []
  {
    if s == "" then [""]
    else
      var rest := SplitBy(s[1..], sep);
      if sep(s[0]) then [""] + rest else [[s[0]] + rest[0]] + rest[1..]
  }

  function NonEmpty(pieces: seq<string>): seq<string> {
    if pieces == [] then []
    else NonEmpty(pieces[..|pieces| - 1]) + (if pieces[|pieces| - 1] == "" then [] else [pieces[|pieces| - 1]])
  }

  /** strings.FieldsFunc. */
  function FieldsBy(s: string, sep: char -> bool): seq<string> {
    NonEmpty(SplitBy(s, sep))
  }

  predicate Blank(s: string) {
    forall i :: 0 <= i < |s| ==> IsSpace(s[i])
  }

  /** No white space at either end. */
  predicate Clean(s: string) {
    s == "" || (!IsSpace(s[0]) && !IsSpace(s[|s| - 1]))
  }

  /** s is t between white space. */
  ghost predicate Padded(s: string, t: string) {
    exists i: nat, j: nat :: i <= j <= |s| && Blank(s[..i]) && s[i..j] == t && Blank(s[j..])
  }

  lemma {:induction false} TrimLeftDrops(s: string)
    ensures var t := TrimLeft(s);
      |t| <= |s| && t == s[|s| - |t|..] && Blank(s[..|s| - |t|]) && (t != "" ==> !IsSpace(t[0]))
  {
    if s != "" && IsSpace(s[0]) {
      TrimLeftDrops(s[1..]);
      var n := |s| - |TrimLeft(s)|;
      assert forall i :: 1 <= i < n ==> s[..n][i] == s[1..][..n - 1][i - 1];
    }
  }

  lemma {:induction false} TrimRightDrops(s: string)
    ensures var t := TrimRight(s); t <= s && Blank(s[|t|..]) && (t != "" ==> !IsSpace(t[|t| - 1]))
  {
    if s != "" && IsSpace(s[|s| - 1]) {
      var before := s[..|s| - 1];
      TrimRightDrops(before);
      var n := |TrimRight(s)|;
      assert forall i :: 0 <= i < |s| - n - 1 ==> s[n..][i] == before[n..][i];
    }
  }

  /** Trimming takes off exactly the white space at both ends. */
  lemma {:induction false} TrimIff(s: string, t: string)
    ensures Trim(s) == t <==> Clean(t) && Padded(s, t)
  {
    var l, r := TrimLeft(s), Trim(s);
    TrimLeftDrops(s);
    TrimRightDrops(l);
    var n := |s| - |l|;
    assert s[n..n + |r|] == r && s[n + |r|..] == l[|r|..];
    assert Padded(s, r) && Clean(r);
    if Clean(t) && Padded(s, t) {
      OnePadding(s, r, t);
    }
  }

  lemma OnePadding(s: string, r: string, t: string)
    requires Clean(r) && Clean(t) && Padded(s, r) && Padded(s, t)
    ensures r == t
  {
    var i: nat, j: nat :| i <= j <= |s| && Blank(s[..i]) && s[i..j] == r && Blank(s[j..]);
    var k: nat, l: nat :| k <= l <= |s| && Blank(s[..k]) && s[k..l] == t && Blank(s[l..]);
    InPadding(s, i, j, k, l, r);
    InPadding(s, k, l, i, j, t);
    if r != "" {
      assert i == k && j == l;
    }
  }

  /** What is not white space lies between two paddings. */
  lemma InPadding(s: string, i: nat, j: nat, k: nat, l: nat, r: string)
    requires i <= j <= |s| && k <= l <= |s| && s[i..j] == r && Clean(r) && Blank(s[..k]) && Blank(s[l..])
    ensures r != "" ==> k <= i && j <= l
  {
    forall m | 0 <= m < k ensures IsSpace(s[m]) {
      assert s[..k][m] == s[m];
    }
    forall m | l <= m < |s| ensures IsSpace(s[m]) {
      assert s[l..][m - l] == s[m];
    }
    if r != "" {
      assert s[i] == r[0] && s[j - 1] == r[|r| - 1];
    }
  }

  lemma {:induction false} TrimClean(s: string)
    requires s == "" || (!IsSpace(s[0]) && !IsSpace(s[|s| - 1]))
    ensures Trim(s) == s
  {
  }

  lemma {:induction false} SplitJoin(a: string, c: char, b: string, sep: char -> bool)
    requires sep(c)
    ensures SplitBy(a + [c] + b, sep) == SplitBy(a, sep) + SplitBy(b, sep)
  {
    var s := a + [c] + b;
    if a == "" {
      assert s == [c] + b && s[1..] == b;
    } else {
      assert s[1..] == a[1..] + [c] + b;
      SplitJoin(a[1..], c, b, sep);
    }
  }

  lemma {:induction false} SplitWhole(s: string, sep: char -> bool)
    requires forall c :: c in s ==> !sep(c)
    ensures SplitBy(s, sep) == [s]
  {
    if s != "" {
      assert s == [s[0]] + s[1..];
      SplitWhole(s[1..], sep);
    }
  }

  /** No piece contains a separator. */
  lemma {:induction false} PiecesClean(s: string, sep: char -> bool)
    ensures forall p, c :: p in SplitBy(s, sep) && c in p ==> !sep(c)
  {
    if s != "" {
      PiecesClean(s[1..], sep);
      var rest := SplitBy(s[1..], sep);
      assert rest[0] in rest;
      assert forall p :: p in rest[1..] ==> p in rest;
    }
  }

  lemma {:induction false} NonEmptyAre(pieces: seq<string>)
    ensures forall p :: p in NonEmpty(pieces) <==> p in pieces && p != ""
  {
    if pieces != [] {
      NonEmptyAre(pieces[..|pieces| - 1]);
      assert pieces == pieces[..|pieces| - 1] + [pieces[|pieces| - 1]];
    }
  }

  predicate Ascii(s: string) {
    forall i :: 0 <= i < |s| ==> s[i] < '\U{80}'
  }

  lemma {:induction false} AsciiLen(s: string)
    requires Ascii(s)
    ensures Utf8Len(s) == |s|
  {
    if s != "" {
      AsciiLen(s[..|s| - 1]);
    }
  }
}
