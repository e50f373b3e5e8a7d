/** Redeem codes as text: how they are made (newRedeemCode) and what a customer may type (normalizeRedeem). */
module RedeemText {
  import opened Text

  type Byte = x: int | 0 <= x < 256

  const ALPHABET := "ABCDEFGHJKLMNPQRSTUVWXYZ23456789"

  /** unicode.ToUpper where Go fixes it: on ASCII. Nothing is said about other characters. */
  ghost predicate UpperOnAscii(upper: char -> char) {
    forall c :: c < '\U{80}' ==> upper(c) == if 'a' <= c <= 'z' then (c as int - 32) as char else c
  }

  function Upper(s: string, upper: char -> char): string {
    seq(|s|, i requires 0 <= i < |s| => upper(s[i]))
  }

  predicate Ignored(c: char) {
    c == '-' || c == ' '
  }

  function Compact(s: string): string {
    if s == "" then ""
    else Compact(s[..|s| - 1]) + (if Ignored(s[|s| - 1]) then "" else [s[|s| - 1]])
  }

  predicate CodeChar(c: char) {
    'A' <= c <= 'Z' || '0' <= c <= '9'
  }

  predicate AllCodeChars(s: string) {
    forall i :: 0 <= i < |s| ==> CodeChar(s[i])
  }

  /** A code without its dashes. */
  predicate Bare(c: string) {
    "RC" <= c && |c| == 14 && AllCodeChars(c[2..])
  }

  function Format(c: string): string
    requires Bare(c)
  {
    "RC-" + c[2..6] + "-" + c[6..10] + "-" + c[10..]
  }

  function Normalized(s: string, upper: char -> char): string {
    var c := Compact(Upper(Trim(s), upper));
    if Bare(c) then Format(c) else ""
  }

  function Letter(x: Byte): char {
    ALPHABET[x % |ALPHABET|]
  }

  /** The letters of the bytes, a dash before every fourth but the first. */
  function Grouped(raw: seq<Byte>): string {
    if raw == [] then ""
    else
      var i := |raw| - 1;
      Grouped(raw[..i]) + (if i > 0 && i % 4 == 0 then "-" else "") + [Letter(raw[i])]
  }

  function NewCode(raw: seq<Byte>): string {
    "RC-" + Grouped(raw)
  }

  method NewRedeemCode(raw: seq<Byte>) returns (code: string)
    requires |raw| == 12
    ensures code == NewCode(raw)
  {
    code := "RC-";
    for i := 0 to 12
      invariant code == NewCode(raw[..i])
    {
      assert raw[..i + 1][..i] == raw[..i];
      if i > 0 && i % 4 == 0 {
        code := code + "-";
      }
      code := code + [Letter(raw[i])];
    }
    assert raw[..12] == raw;
  }

  /** The builder loop of normalizeRedeem. */
  method StripIgnored(u: string) returns (compact: string)
    ensures compact == Compact(u)
  {
    compact := "";
    for i := 0 to |u|
      invariant compact == Compact(u[..i])
    {
      assert u[..i + 1][..i] == u[..i];
      if Ignored(u[i]) {
        continue;
      }
      compact := compact + [u[i]];
    }
    assert u[..|u|] == u;
  }

  /** The loop that looks for a character a code cannot have. */
  method OnlyCodeChars(body: string) returns (ok: bool)
    ensures ok == AllCodeChars(body)
  {
    for i := 0 to |body|
      invariant forall j :: 0 <= j < i ==> CodeChar(body[j])
    {
      if !CodeChar(body[i]) {
        return false;
      }
    }
    return true;
  }

  method NormalizeRedeem(s: string, upper: char -> char) returns (r: string)
    ensures r == Normalized(s, upper)
  {
    hide AllCodeChars, Trim, Upper, Utf8Len, Compact;
    var u := Upper(Trim(s), upper);
    if u == "" {
      NothingIgnored(u);
      return "";
    }
    var compact := StripIgnored(u);
    BareIffBytes(compact);
    if !("RC" <= compact) || Utf8Len(compact) != 14 {
      return "";
    }
    var body := compact[2..];
    var ok := OnlyCodeChars(body);
    if !ok {
      return "";
    }
    assert body[..4] == compact[2..6] && body[4..8] == compact[6..10] && body[8..] == compact[10..];
    r := "RC-" + body[..4] + "-" + body[4..8] + "-" + body[8..];
  }

  /** The source counts bytes: a body of code characters has as many bytes as characters. */
  lemma BareIffBytes(c: string)
    ensures Bare(c) <==> "RC" <= c && Utf8Len(c) == 14 && AllCodeChars(c[2..])
  {
    if "RC" <= c && AllCodeChars(c[2..]) {
      forall i | 0 <= i < |c| ensures c[i] < '\U{80}' {
        assert i >= 2 ==> c[i] == c[2..][i - 2];
      }
      AsciiLen(c);
    }
  }

  // ---- the canonical form ----

  lemma {:induction false} CompactAppend(a: string, b: string)
    ensures Compact(a + b) == Compact(a) + Compact(b)
  {
    if b == "" {
      assert a + b == a;
    } else {
      var b' := b[..|b| - 1];
      CompactAppend(a, b');
      hide Ignored;
      assert (a + b)[..|a + b| - 1] == a + b' && (a + b)[|a + b| - 1] == b[|b| - 1];
    }
  }

  lemma {:induction false} NothingIgnored(s: string)
    requires forall i :: 0 <= i < |s| ==> !Ignored(s[i])
    ensures Compact(s) == s
  {
    if s != "" {
      NothingIgnored(s[..|s| - 1]);
    }
  }

  lemma CompactFormat(c: string)
    requires Bare(c)
    ensures Compact(Format(c)) == c
  {
    var p, q, r := c[2..6], c[6..10], c[10..];
    forall i | 2 <= i < 14 ensures CodeChar(c[i]) {
      assert c[i] == c[2..][i - 2];
    }
    NothingIgnored("RC");
    NothingIgnored(p);
    NothingIgnored(q);
    NothingIgnored(r);
    hide Compact, AllCodeChars;
    WithDash("RC", p);
    WithDash("RC-" + p, q);
    WithDash("RC-" + p + "-" + q, r);
    assert "RC" + "-" + p == "RC-" + p;
    assert "RC" + p + q + r == c;
  }

  lemma WithDash(a: string, b: string)
    ensures Compact(a + "-" + b) == Compact(a) + Compact(b)
  {
    assert Compact("-") == "" by {
      assert "-"[..0] == "";
    }
    CompactAppend(a, "-");
    CompactAppend(a + "-", b);
  }

  lemma FormatIsUpper(c: string, upper: char -> char)
    requires Bare(c) && UpperOnAscii(upper)
    ensures Trim(Format(c)) == Format(c) && Upper(Format(c), upper) == Format(c) && Ascii(Format(c))
  {
    var f := Format(c);
    forall i | 0 <= i < |f| ensures Ignored(f[i]) || CodeChar(f[i]) {
      assert 3 <= i < 7 ==> f[i] == c[2..][i - 3];
      assert 8 <= i < 12 ==> f[i] == c[2..][i - 4];
      assert 13 <= i ==> f[i] == c[2..][i - 5];
    }
    assert f[0] == 'R' && f[|f| - 1] == c[2..][11];
    TrimClean(f);
    assert forall i :: 0 <= i < |f| ==> upper(f[i]) == f[i];
  }

  lemma FormatIsNormal(c: string, upper: char -> char)
    requires Bare(c) && UpperOnAscii(upper)
    ensures Normalized(Format(c), upper) == Format(c)
  {
    FormatIsUpper(c, upper);
    CompactFormat(c);
  }

  /** Normalising twice is normalising once, on every input and however non-ASCII letters are upper-cased. */
  lemma NormalizeIdempotent(s: string, upper: char -> char)
    requires UpperOnAscii(upper)
    ensures Normalized(Normalized(s, upper), upper) == Normalized(s, upper)
  {
    var c := Compact(Upper(Trim(s), upper));
    if Bare(c) {
      FormatIsNormal(c, upper);
    } else {
      assert Normalized("", upper) == "";
    }
  }

  function Letters(raw: seq<Byte>): string {
    seq(|raw|, i requires 0 <= i < |raw| => Letter(raw[i]))
  }

  lemma GroupedSnoc(raw: seq<Byte>, i: nat)
    requires i < |raw|
    ensures Grouped(raw[..i + 1]) == Grouped(raw[..i]) + (if i > 0 && i % 4 == 0 then "-" else "") + [Letter(raw[i])]
  {
    assert raw[..i + 1][..i] == raw[..i];
  }

  lemma GroupOfFour(raw: seq<Byte>, k: nat)
    requires k + 4 <= |raw| && k % 4 == 0
    ensures Grouped(raw[..k + 4]) == Grouped(raw[..k]) + (if k > 0 then "-" else "") + Letters(raw[k..k + 4])
  {
    hide Grouped, Letter;
    GroupedSnoc(raw, k);
    GroupedSnoc(raw, k + 1);
    GroupedSnoc(raw, k + 2);
    GroupedSnoc(raw, k + 3);
  }

  lemma {:induction false} GroupedTwelve(raw: seq<Byte>)
    requires |raw| == 12
    ensures Grouped(raw) == Letters(raw)[0..4] + "-" + Letters(raw)[4..8] + "-" + Letters(raw)[8..12]
  {
    hide Letter;
    GroupOfFour(raw, 0);
    GroupOfFour(raw, 4);
    GroupOfFour(raw, 8);
    assert raw[..0] == [] && raw[..12] == raw;
    assert Grouped(raw[..0]) == "";
    var l := Letters(raw);
    assert Letters(raw[0..4]) == l[0..4] && Letters(raw[4..8]) == l[4..8] && Letters(raw[8..12]) == l[8..12];
  }

  /** A generated code is a formatted one, twelve letters of the alphabet, each the one its byte selects. */
  lemma NewCodeIsFormatted(raw: seq<Byte>)
    requires |raw| == 12
    ensures Bare("RC" + Letters(raw)) && NewCode(raw) == Format("RC" + Letters(raw))
  {
    hide Grouped;
    GroupedTwelve(raw);
    AlphabetIsCodeChars();
    hide Letter;
    var l, c := Letters(raw), "RC" + Letters(raw);
    assert c[2..] == l && c[2..6] == l[0..4] && c[6..10] == l[4..8] && c[10..] == l[8..12];
    assert NewCode(raw) == "RC-" + (l[0..4] + "-" + l[4..8] + "-" + l[8..12]);
    assert Format(c) == "RC-" + l[0..4] + "-" + l[4..8] + "-" + l[8..12];
  }

  lemma AlphabetIsCodeChars()
    ensures forall x: Byte :: CodeChar(Letter(x))
  {
    assert AllCodeChars(ALPHABET);
  }

  /** The alphabet has 32 different letters. */
  lemma AlphabetDiffers(i: nat, j: nat)
    requires i < j < 32
    ensures |ALPHABET| == 32 && ALPHABET[i] != ALPHABET[j]
  {
    if i < 24 {
      LettersAscend(i, if j < 24 then j else 23);
      assert j >= 24 ==> ALPHABET[j] <= '9';
    }
  }

  lemma {:induction false} LettersAscend(i: nat, j: nat)
    requires i <= j < 24
    ensures 'A' <= ALPHABET[i] <= ALPHABET[j] && (i < j ==> ALPHABET[i] < ALPHABET[j])
  {
    if i < j {
      LettersAscend(i, j - 1);
    }
  }

  /** Two codes are the same exactly if each byte selects the same of the 32 letters: 60 bits of the 96 count. */
  lemma SameCodeIff(a: seq<Byte>, b: seq<Byte>)
    requires |a| == |b| == 12
    ensures NewCode(a) == NewCode(b) <==> forall i :: 0 <= i < 12 ==> a[i] % 32 == b[i] % 32
  {
    NewCodeIsFormatted(a);
    NewCodeIsFormatted(b);
    CompactFormat("RC" + Letters(a));
    CompactFormat("RC" + Letters(b));
    SameLettersIff(a, b);
    hide Letters, Format, Compact, NewCode;
    if NewCode(a) == NewCode(b) {
      assert ("RC" + Letters(a))[2..] == Letters(a) && ("RC" + Letters(b))[2..] == Letters(b);
    }
  }

  lemma SameLettersIff(a: seq<Byte>, b: seq<Byte>)
    requires |a| == |b| == 12
    ensures Letters(a) == Letters(b) <==> forall i :: 0 <= i < 12 ==> a[i] % 32 == b[i] % 32
  {
    assert |ALPHABET| == 32;
    if Letters(a) == Letters(b) {
      forall i | 0 <= i < 12 ensures a[i] % 32 == b[i] % 32 {
        assert Letters(a)[i] == ALPHABET[a[i] % 32] && Letters(b)[i] == ALPHABET[b[i] % 32];
        if a[i] % 32 < b[i] % 32 {
          AlphabetDiffers(a[i] % 32, b[i] % 32);
        } else if b[i] % 32 < a[i] % 32 {
          AlphabetDiffers(b[i] % 32, a[i] % 32);
        }
      }
    }
  }

  // ---- what a customer may type ----

  /** One edit that should not matter; out of range it changes nothing. */
  datatype Edit = Recase(i: nat) | Insert(i: nat, c: char) | Delete(i: nat)

  function SwapCase(c: char): char {
    if 'a' <= c <= 'z' then (c as int - 32) as char
    else if 'A' <= c <= 'Z' then (c as int + 32) as char
    else c
  }

  function Apply(s: string, e: Edit): string {
    match e
    case Recase(i) => if i < |s| then s[..i] + [SwapCase(s[i])] + s[i + 1..] else s
    case Insert(i, c) => if i <= |s| && Ignored(c) then s[..i] + [c] + s[i..] else s
    case Delete(i) => if i < |s| && Ignored(s[i]) then s[..i] + s[i + 1..] else s
  }

  function ApplyAll(s: string, es: seq<Edit>): string
    decreases |es|
  {
    if es == [] then s else ApplyAll(Apply(s, es[0]), es[1..])
  }

  /** What edits leave alone. */
  function Skeleton(s: string, upper: char -> char): string {
    Compact(Upper(s, upper))
  }

  lemma SkeletonAppend(a: string, b: string, upper: char -> char)
    ensures Skeleton(a + b, upper) == Skeleton(a, upper) + Skeleton(b, upper)
  {
    assert Upper(a + b, upper) == Upper(a, upper) + Upper(b, upper);
    CompactAppend(Upper(a, upper), Upper(b, upper));
  }

  lemma SkeletonOfOne(c: char, upper: char -> char)
    requires UpperOnAscii(upper) && c < '\U{80}'
    ensures Skeleton([c], upper) == if Ignored(c) then "" else [upper(c)]
    ensures upper(SwapCase(c)) == upper(c) && SwapCase(c) < '\U{80}' && (Ignored(SwapCase(c)) <==> Ignored(c))
  {
    assert Upper([c], upper) == [upper(c)] && [upper(c)][..0] == [];
    assert Ignored(upper(c)) <==> Ignored(c);
    assert Compact([upper(c)]) == "" + if Ignored(upper(c)) then "" else [upper(c)];
  }

  lemma SkeletonMiddle(a: string, m: string, m': string, b: string, upper: char -> char)
    requires Skeleton(m, upper) == Skeleton(m', upper)
    ensures Skeleton(a + m + b, upper) == Skeleton(a + m' + b, upper)
  {
    hide Skeleton;
    SkeletonAppend(a, m, upper);
    SkeletonAppend(a + m, b, upper);
    SkeletonAppend(a, m', upper);
    SkeletonAppend(a + m', b, upper);
  }

  lemma EditKeepsAscii(s: string, e: Edit)
    requires Ascii(s)
    ensures Ascii(Apply(s, e))
  {
  }

  lemma EditKeepsSkeleton(s: string, e: Edit, upper: char -> char)
    requires UpperOnAscii(upper) && Ascii(s)
    ensures Skeleton(Apply(s, e), upper) == Skeleton(s, upper)
  {
    assert Skeleton("", upper) == "";
    hide Skeleton, UpperOnAscii, SwapCase, Ignored;
    match e
    case Recase(i) =>
      if i < |s| {
        SkeletonOfOne(s[i], upper);
        SkeletonOfOne(SwapCase(s[i]), upper);
        ReplaceOne(s, i, [SwapCase(s[i])], upper);
      }
    case Insert(i, c) =>
      if i <= |s| && Ignored(c) {
        SkeletonOfOne(c, upper) by {
          IgnoredIsAscii(c);
        }
        SkeletonMiddle(s[..i], "", [c], s[i..], upper);
        assert s[..i] + "" + s[i..] == s;
      }
    case Delete(i) =>
      if i < |s| && Ignored(s[i]) {
        SkeletonOfOne(s[i], upper);
        ReplaceOne(s, i, "", upper);
        assert s[..i] + "" + s[i + 1..] == s[..i] + s[i + 1..];
      }
  }

  lemma IgnoredIsAscii(c: char)
    requires Ignored(c)
    ensures c < '\U{80}'
  {
  }

  lemma ReplaceOne(s: string, i: nat, m: string, upper: char -> char)
    requires i < |s| && Skeleton([s[i]], upper) == Skeleton(m, upper)
    ensures Skeleton(s[..i] + m + s[i + 1..], upper) == Skeleton(s, upper)
  {
    hide Skeleton;
    SkeletonMiddle(s[..i], [s[i]], m, s[i + 1..], upper);
    assert s[..i] + [s[i]] + s[i + 1..] == s;
  }

  lemma {:induction false} EditsKeepSkeleton(s: string, es: seq<Edit>, upper: char -> char)
    requires UpperOnAscii(upper) && Ascii(s)
    ensures Ascii(ApplyAll(s, es)) && Skeleton(ApplyAll(s, es), upper) == Skeleton(s, upper)
    decreases |es|
  {
    if es != [] {
      EditKeepsSkeleton(s, es[0], upper);
      EditKeepsAscii(s, es[0]);
      EditsKeepSkeleton(Apply(s, es[0]), es[1..], upper);
    }
  }

  lemma SkeletonHead(s: string, upper: char -> char)
    requires UpperOnAscii(upper) && Ascii(s) && s != ""
    ensures Skeleton(s, upper) == (if Ignored(s[0]) then "" else [upper(s[0])]) + Skeleton(s[1..], upper)
  {
    hide Skeleton;
    assert s == [s[0]] + s[1..];
    SkeletonAppend([s[0]], s[1..], upper);
    SkeletonOfOne(s[0], upper);
  }

  /** Some edits turn a into b. */
  ghost predicate Reaches(a: string, b: string) {
    exists es :: ApplyAll(a, es) == b
  }

  lemma ReachesItself(a: string)
    ensures Reaches(a, a)
  {
    assert ApplyAll(a, []) == a;
  }

  lemma OneMoreEdit(a: string, e: Edit, b: string)
    requires Reaches(Apply(a, e), b)
    ensures Reaches(a, b)
  {
    var es :| ApplyAll(Apply(a, e), es) == b;
    assert ([e] + es)[1..] == es;
    assert ApplyAll(a, [e] + es) == b;
  }

  lemma DeleteFirst(p: string, s: string, b: string)
    requires s != "" && Ignored(s[0]) && Reaches(p + s[1..], b)
    ensures Reaches(p + s, b)
  {
    assert (p + s)[..|p|] == p && (p + s)[|p| + 1..] == s[1..];
    OneMoreEdit(p + s, Delete(|p|), b);
  }

  lemma InsertFirst(p: string, s: string, c: char, b: string)
    requires Ignored(c) && Reaches(p + [c] + s, b)
    ensures Reaches(p + s, b)
  {
    assert (p + s)[..|p|] == p && (p + s)[|p|..] == s;
    OneMoreEdit(p + s, Insert(|p|, c), b);
  }

  lemma RecaseFirst(p: string, s: string, c: char, b: string)
    requires s != "" && (s[0] == c || SwapCase(s[0]) == c) && Reaches(p + [c] + s[1..], b)
    ensures Reaches(p + s, b)
  {
    assert (p + s)[..|p|] == p && (p + s)[|p| + 1..] == s[1..] && (p + s)[|p|] == s[0];
    if s[0] == c {
      assert p + [c] + s[1..] == p + s;
    } else {
      OneMoreEdit(p + s, Recase(|p|), b);
    }
  }

  lemma SameUpper(c: char, d: char, upper: char -> char)
    requires UpperOnAscii(upper) && c < '\U{80}' && d < '\U{80}' && upper(c) == upper(d)
    ensures c == d || SwapCase(c) == d
  {
  }

  lemma HeadsMatch(s: string, t: string, upper: char -> char)
    requires UpperOnAscii(upper) && Ascii(s) && Ascii(t) && Skeleton(s, upper) == Skeleton(t, upper)
    requires s != "" && !Ignored(s[0]) && (t == "" || !Ignored(t[0]))
    ensures t != "" && (s[0] == t[0] || SwapCase(s[0]) == t[0])
    ensures Skeleton(s[1..], upper) == Skeleton(t[1..], upper)
  {
    assert Skeleton("", upper) == "";
    SkeletonHead(s, upper);
    hide Skeleton;
    assert t != "";
    SkeletonHead(t, upper);
    var a, b := [upper(s[0])] + Skeleton(s[1..], upper), [upper(t[0])] + Skeleton(t[1..], upper);
    assert a[0] == b[0] && a[1..] == b[1..];
    SameUpper(s[0], t[0], upper);
  }

  /** Texts with the same skeleton can be edited into each other, here behind a prefix both already share. */
  lemma {:induction false} EditsReach(p: string, s: string, t: string, upper: char -> char)
    requires UpperOnAscii(upper) && Ascii(s) && Ascii(t)
    requires Skeleton(s, upper) == Skeleton(t, upper)
    ensures Reaches(p + s, p + t)
    decreases |s| + |t|
  {
    hide Skeleton, SwapCase, Reaches;
    if s != "" && Ignored(s[0]) {
      SkeletonHead(s, upper);
      EditsReach(p, s[1..], t, upper);
      DeleteFirst(p, s, p + t);
    } else if t != "" && Ignored(t[0]) {
      SkeletonHead(t, upper);
      EditsReach(p + [t[0]], s, t[1..], upper);
      assert p + [t[0]] + t[1..] == p + t;
      InsertFirst(p, s, t[0], p + t);
    } else if s != "" {
      HeadsMatch(s, t, upper);
      EditsReach(p + [t[0]], s[1..], t[1..], upper);
      assert p + [t[0]] + t[1..] == p + t;
      RecaseFirst(p, s, t[0], p + t);
    } else {
      if t != "" {
        HeadsMatch(t, s, upper);
      }
      ReachesItself(p + s);
    }
  }

  lemma SkeletonOfFormat(c: string, upper: char -> char)
    requires UpperOnAscii(upper) && Bare(c)
    ensures Skeleton(Format(c), upper) == c && Ascii(Format(c))
  {
    FormatIsUpper(c, upper);
    CompactFormat(c);
  }

  lemma FormatInjective(c: string, d: string)
    requires Bare(c) && Bare(d) && Format(c) == Format(d)
    ensures c == d
  {
    CompactFormat(c);
    CompactFormat(d);
  }

  lemma NormalizesIffSkeleton(s: string, c: string, upper: char -> char)
    requires Bare(c)
    ensures Normalized(s, upper) == Format(c) <==> Skeleton(Trim(s), upper) == c
  {
    var k := Skeleton(Trim(s), upper);
    if Bare(k) && Format(k) == Format(c) {
      FormatInjective(k, c);
    }
  }

  /** An ASCII text normalises to a code exactly when, trimmed, edits that do not matter make it from the code. */
  lemma {:induction false} NormalizesIffEdited(s: string, c: string, upper: char -> char)
    requires UpperOnAscii(upper) && Ascii(Trim(s)) && Bare(c)
    ensures Normalized(s, upper) == Format(c) <==> Reaches(Format(c), Trim(s))
  {
    hide Skeleton, Normalized, Format, Bare, ApplyAll;
    var f, t := Format(c), Trim(s);
    SkeletonOfFormat(c, upper);
    NormalizesIffSkeleton(s, c, upper);
    if Normalized(s, upper) == f {
      EditsReach("", f, t, upper);
      assert "" + f == f && "" + t == t;
    }
    if Reaches(f, t) {
      var es :| ApplyAll(f, es) == t;
      EditsKeepSkeleton(f, es, upper);
    }
  }

  /** Trimming loses nothing but ignored characters when blanks are the only white space. */
  lemma {:induction false} TrimLeftKeepsSkeleton(s: string, upper: char -> char)
    requires UpperOnAscii(upper) && Ascii(s) && forall i :: 0 <= i < |s| && IsSpace(s[i]) ==> s[i] == ' '
    ensures Skeleton(TrimLeft(s), upper) == Skeleton(s, upper)
    ensures Ascii(TrimLeft(s))
    ensures forall i :: 0 <= i < |TrimLeft(s)| && IsSpace(TrimLeft(s)[i]) ==> TrimLeft(s)[i] == ' '
  {
    if s != "" && IsSpace(s[0]) {
      SkeletonHead(s, upper);
      TrimLeftKeepsSkeleton(s[1..], upper);
    }
  }

  lemma {:induction false} TrimRightKeepsSkeleton(s: string, upper: char -> char)
    requires UpperOnAscii(upper) && Ascii(s) && forall i :: 0 <= i < |s| && IsSpace(s[i]) ==> s[i] == ' '
    ensures Skeleton(TrimRight(s), upper) == Skeleton(s, upper)
  {
    if s != "" && IsSpace(s[|s| - 1]) {
      var s' := s[..|s| - 1];
      assert s == s' + [' '];
      SkeletonAppend(s', " ", upper);
      SkeletonOfOne(' ', upper);
      TrimRightKeepsSkeleton(s', upper);
    }
  }

  /** What edits cannot bring in: white space other than blanks. */
  predicate Typed(s: string) {
    Ascii(s) && forall i :: 0 <= i < |s| && IsSpace(s[i]) ==> s[i] == ' '
  }

  lemma {:induction false} EditsKeepTyped(s: string, es: seq<Edit>)
    requires Typed(s)
    ensures Typed(ApplyAll(s, es))
    decreases |es|
  {
    if es != [] {
      assert Typed(Apply(s, es[0]));
      EditsKeepTyped(Apply(s, es[0]), es[1..]);
    }
  }

  /** However a generated code is re-cased and its dashes and blanks are moved about, it normalises to itself. */
  lemma {:induction false} EditedCodeNormalizes(raw: seq<Byte>, es: seq<Edit>, upper: char -> char)
    requires |raw| == 12 && UpperOnAscii(upper)
    ensures Normalized(ApplyAll(NewCode(raw), es), upper) == NewCode(raw)
  {
    var c, f := "RC" + Letters(raw), NewCode(raw);
    NewCodeIsFormatted(raw);
    SkeletonOfFormat(c, upper);
    NormalizesIffSkeleton(ApplyAll(f, es), c, upper);
    FormatIsTyped(c);
    hide NewCode, Format, Bare, Skeleton, Normalized, Letters;
    EditsKeepSkeleton(f, es, upper);
    EditsKeepTyped(f, es);
    TrimLeftKeepsSkeleton(ApplyAll(f, es), upper);
    TrimRightKeepsSkeleton(TrimLeft(ApplyAll(f, es)), upper);
  }

  lemma FormatIsTyped(c: string)
    requires Bare(c)
    ensures Typed(Format(c))
  {
  }
}
