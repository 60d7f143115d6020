/** The string operations of the Rust standard library that the webhook relies on. */
module Text {
  import opened Prelude

  /** `char::is_whitespace`: the Unicode White_Space property. */
  predicate IsWhitespace(c: char) {
    || '\t' <= c <= '\r' || c == ' ' || c == '\U{85}' || c == '\U{A0}' || c == '\U{1680}'
    || '\U{2000}' <= c <= '\U{200A}' || c == '\U{2028}' || c == '\U{2029}' || c == '\U{202F}'
    || c == '\U{205F}' || c == '\U{3000}'
  }

  /** A string `trim` leaves alone. */
  predicate Trimmed(s: string) {
    s == "" || (!IsWhitespace(s[0]) && !IsWhitespace(s[|s| - 1]))
  }

  function TrimStart(s: string): string {
    if s != "" && IsWhitespace(s[0]) then TrimStart(s[1..]) else s
  }

  function TrimEnd(s: string): string {
    if s != "" && IsWhitespace(s[|s| - 1]) then TrimEnd(s[..|s| - 1]) else s
  }

  function Trim(s: string): string {
    TrimEnd(TrimStart(s))
  }

  lemma {:induction false} TrimStartFacts(s: string)
    ensures TrimStart(s) == "" || !IsWhitespace(TrimStart(s)[0])
    ensures |TrimStart(s)| <= |s| && TrimStart(s) == s[|s| - |TrimStart(s)|..]
    ensures forall i :: 0 <= i < |s| - |TrimStart(s)| ==> IsWhitespace(s[i])
  {
    if s != "" && IsWhitespace(s[0]) {
      TrimStartFacts(s[1..]);
      assert forall i :: 1 <= i < |s| ==> s[i] == s[1..][i - 1];
    }
  }

  lemma {:induction false} TrimEndFacts(s: string)
    ensures TrimEnd(s) == "" || !IsWhitespace(TrimEnd(s)[|TrimEnd(s)| - 1])
    ensures |TrimEnd(s)| <= |s| && TrimEnd(s) == s[..|TrimEnd(s)|]
    ensures forall i :: |TrimEnd(s)| <= i < |s| ==> IsWhitespace(s[i])
  {
    if s != "" && IsWhitespace(s[|s| - 1]) {
      TrimEndFacts(s[..|s| - 1]);
    }
  }

  /** `raw` is whitespace before `a` and from `b` on. */
  ghost predicate BlankOutside(raw: string, a: int, b: int) {
    && 0 <= a <= b <= |raw|
    && (forall i :: 0 <= i < a ==> IsWhitespace(raw[i]))
    && forall i :: b <= i < |raw| ==> IsWhitespace(raw[i])
  }

  /** Trimming takes whitespace off both ends, as much as there is, and nothing else. */
  lemma TrimFacts(s: string)
    ensures Trimmed(Trim(s))
    ensures exists a, b :: BlankOutside(s, a, b) && Trim(s) == s[a..b]
    ensures Trimmed(s) ==> Trim(s) == s
    ensures forall c :: c in Trim(s) ==> c in s
  {
    TrimStartFacts(s);
    TrimEndFacts(TrimStart(s));
    var a := |s| - |TrimStart(s)|;
    var b := a + |Trim(s)|;
    assert Trim(s) == s[a..b];
    forall i | b <= i < |s|
      ensures IsWhitespace(s[i])
    {
      assert s[i] == s[a..][i - a];
    }
    assert BlankOutside(s, a, b);
  }

  /** `t` is `raw` without the whitespace around it. */
  ghost predicate Stripped(raw: string, t: string) {
    Trimmed(t) && exists a, b :: BlankOutside(raw, a, b) && t == raw[a..b]
  }

  ghost predicate Blank(raw: string) {
    forall i :: 0 <= i < |raw| ==> IsWhitespace(raw[i])
  }

  lemma StrippedBounds(raw: string, a: int, b: int, c: int, d: int)
    requires BlankOutside(raw, a, b) && BlankOutside(raw, c, d)
    requires Trimmed(raw[a..b]) && Trimmed(raw[c..d])
    ensures raw[a..b] == raw[c..d]
    ensures raw[a..b] == "" <==> Blank(raw)
  {
    if a < b {
      assert raw[a..b][0] == raw[a] && raw[a..b][b - a - 1] == raw[b - 1];
    }
    if c < d {
      assert raw[c..d][0] == raw[c] && raw[c..d][d - c - 1] == raw[d - 1];
    }
  }

  lemma StrippedUnique(raw: string, t: string, u: string)
    requires Stripped(raw, t) && Stripped(raw, u)
    ensures t == u
    ensures t == "" <==> Blank(raw)
  {
    var a, b :| BlankOutside(raw, a, b) && t == raw[a..b];
    var c, d :| BlankOutside(raw, c, d) && u == raw[c..d];
    StrippedBounds(raw, a, b, c, d);
  }

  /** What is left when the surrounding whitespace is gone is what `Trim` gives. */
  lemma TrimExactly(raw: string, t: string)
    ensures Trim(raw) == t <==> Stripped(raw, t)
    ensures Trim(raw) == "" <==> Blank(raw)
  {
    TrimFacts(raw);
    StrippedUnique(raw, Trim(raw), Trim(raw));
    if Stripped(raw, t) {
      StrippedUnique(raw, t, Trim(raw));
    }
  }

  /** The letter `c` of a lower-case word, in either ASCII case. */
  predicate SameLetter(c: char, w: char) {
    c == w || ('a' <= w <= 'z' && c as int == w as int - 32)
  }

  /** The text is the lower-case word in any ASCII case. */
  predicate Spells(t: string, word: string) {
    |t| == |word| && forall i :: 0 <= i < |t| ==> SameLetter(t[i], word[i])
  }

  /** The same with an underscore for any hyphen. */
  predicate SpellsLoosely(t: string, word: string) {
    |t| == |word| && forall i :: 0 <= i < |t| ==> SameLetter(t[i], word[i]) || (word[i] == '-' && t[i] == '_')
  }

  lemma LowerSpells(t: string, word: string)
    requires forall c :: c in word ==> !('A' <= c <= 'Z')
    ensures Lower(t) == word <==> Spells(t, word)
    ensures '_' !in word ==> (ReplaceChar(Lower(t), '_', '-') == word <==> SpellsLoosely(t, word))
  {
    assert forall i :: 0 <= i < |word| ==> word[i] in word;
    if Lower(t) == word {
      forall i | 0 <= i < |t|
        ensures SameLetter(t[i], word[i])
      {
        assert LowerChar(t[i]) == Lower(t)[i];
      }
    }
    if ReplaceChar(Lower(t), '_', '-') == word {
      forall i | 0 <= i < |t|
        ensures SameLetter(t[i], word[i]) || (word[i] == '-' && t[i] == '_')
      {
        assert LowerChar(t[i]) == Lower(t)[i];
        assert word[i] == ReplaceChar(Lower(t), '_', '-')[i];
      }
    }
  }

  /** `trim_end_matches('/')` */
  function TrimEndSlashes(s: string): (r: string)
    ensures |r| <= |s| && r == s[..|r|]
    ensures r == "" || r[|r| - 1] != '/'
    ensures forall i :: |r| <= i < |s| ==> s[i] == '/'
  {
    if s != "" && s[|s| - 1] == '/' then TrimEndSlashes(s[..|s| - 1]) else s
  }

  function LowerChar(c: char): char {
    if 'A' <= c <= 'Z' then ((c as int) + 32) as char else c
  }

  /** `to_ascii_lowercase` */
  function Lower(s: string): string {
    seq(|s|, i requires 0 <= i < |s| => LowerChar(s[i]))
  }

  /** `replace(from, to)` on single characters. */
  function ReplaceChar(s: string, from: char, to: char): string {
    seq(|s|, i requires 0 <= i < |s| => if s[i] == from then to else s[i])
  }

  /** `split(sep)`: always at least one piece. */
  function Split(s: string, sep: char): (r: seq<string>)
    ensures |r| >= 1
  {
    if s == "" then [""]
    else
      var rest := Split(s[1..], sep);
      if s[0] == sep then [""] + rest else [[s[0]] + rest[0]] + rest[1..]
  }

  lemma {:induction false} SplitPieces(s: string, sep: char)
    ensures forall p :: p in Split(s, sep) ==> sep !in p
    ensures Join(Split(s, sep), sep) == s
  {
    if s != "" {
      SplitPieces(s[1..], sep);
      var rest := Split(s[1..], sep);
      assert s == [s[0]] + s[1..];
      if s[0] == sep {
        assert ([""] + rest)[1..] == rest;
      } else {
        assert rest == [rest[0]] + rest[1..];
        assert Split(s, sep)[1..] == rest[1..];
        assert |rest| > 1 ==> [s[0]] + (rest[0] + [sep] + Join(rest[1..], sep)) == [s[0]] + rest[0] + [sep] + Join(rest[1..], sep);
      }
    }
  }

  /** `join(sep)` */
  function Join(pieces: seq<string>, sep: char): string {
    if pieces == [] then ""
    else if |pieces| == 1 then pieces[0]
    else pieces[0] + [sep] + Join(pieces[1..], sep)
  }

  lemma SplitHead(p: string, rest: string, sep: char)
    requires sep !in p
    ensures Split(p + [sep] + rest, sep) == [p] + Split(rest, sep)
  {
    var s := p + [sep] + rest;
    if p == "" {
      assert s[1..] == rest;
    } else {
      assert s[1..] == p[1..] + [sep] + rest;
      SplitHead(p[1..], rest, sep);
      assert [p[0]] + p[1..] == p;
    }
  }

  lemma SplitWhole(p: string, sep: char)
    requires sep !in p
    ensures Split(p, sep) == [p]
  {
    if p != "" {
      SplitWhole(p[1..], sep);
      assert [p[0]] + p[1..] == p;
    }
  }

  /** Splitting undoes joining when no piece holds the separator. */
  lemma {:induction false} SplitJoin(pieces: seq<string>, sep: char)
    requires pieces != []
    requires forall p :: p in pieces ==> sep !in p
    ensures Split(Join(pieces, sep), sep) == pieces
  {
    if |pieces| == 1 {
      SplitWhole(pieces[0], sep);
    } else {
      SplitHead(pieces[0], Join(pieces[1..], sep), sep);
      SplitJoin(pieces[1..], sep);
    }
  }

  // ---- the order of `String`: lexicographic by code point ----

  predicate Less(a: string, b: string) {
    if b == "" then false
    else if a == "" then true
    else a[0] < b[0] || (a[0] == b[0] && Less(a[1..], b[1..]))
  }

  lemma {:induction false} LessTransitive(a: string, b: string, c: string)
    requires Less(a, b) && Less(b, c)
    ensures Less(a, c)
  {
    if a != "" && a[0] == b[0] == c[0] {
      LessTransitive(a[1..], b[1..], c[1..]);
    }
  }

  lemma {:induction false} LessTotal(a: string, b: string)
    ensures !(Less(a, b) && Less(b, a))
    ensures Less(a, b) || a == b || Less(b, a)
    ensures a == b ==> !Less(a, b)
  {
    if a != "" && b != "" {
      LessTotal(a[1..], b[1..]);
      if a[0] == b[0] && a[1..] == b[1..] {
        assert a == [a[0]] + a[1..] && b == [b[0]] + b[1..];
      }
    }
  }

  /** The order is decided by the first character that differs, and a proper prefix comes first. */
  lemma {:induction false} LessExactly(a: string, b: string)
    ensures Less(a, b) <==> exists k :: 0 <= k <= |a| && k < |b| && a[..k] == b[..k] && (k == |a| || a[k] < b[k])
  {
    if a != "" && b != "" && a[0] == b[0] {
      var x, y := a[1..], b[1..];
      LessExactly(x, y);
      assert a == [a[0]] + x && b == [a[0]] + y;
      if k :| 0 <= k <= |x| && k < |y| && x[..k] == y[..k] && (k == |x| || x[k] < y[k]) {
        assert a[..k + 1] == [a[0]] + x[..k] && b[..k + 1] == [a[0]] + y[..k];
        assert k + 1 == |a| || a[k + 1] < b[k + 1];
      }
      if k :| 0 <= k <= |a| && k < |b| && a[..k] == b[..k] && (k == |a| || a[k] < b[k]) {
        assert k > 0;
        assert x[..k - 1] == a[..k][1..] == b[..k][1..] == y[..k - 1];
        assert k - 1 == |x| || x[k - 1] < y[k - 1];
      }
    } else if b != "" {
      assert a[..0] == b[..0];
    }
  }

  /** The contents of a `BTreeSet<String>` in iteration order. */
  ghost predicate StrictlySorted(xs: seq<string>) {
    forall i, j :: 0 <= i < j < |xs| ==> Less(xs[i], xs[j])
  }

  /** `BTreeSet::insert` on the iteration order. */
  function SetInsert(xs: seq<string>, x: string): seq<string> {
    if xs == [] then [x]
    else if x == xs[0] then xs
    else if Less(x, xs[0]) then [x] + xs
    else [xs[0]] + SetInsert(xs[1..], x)
  }

  lemma {:induction false} SetInsertMembers(xs: seq<string>, x: string)
    ensures forall y :: y in SetInsert(xs, x) <==> y == x || y in xs
  {
    if xs != [] {
      SetInsertMembers(xs[1..], x);
      assert xs == [xs[0]] + xs[1..];
    }
  }

  lemma {:induction false} SetInsertSorted(xs: seq<string>, x: string)
    requires StrictlySorted(xs)
    ensures StrictlySorted(SetInsert(xs, x))
  {
    if xs == [] || x == xs[0] {
    } else if Less(x, xs[0]) {
      forall j | 0 <= j < |xs|
        ensures Less(x, xs[j])
      {
        if j > 0 {
          LessTransitive(x, xs[0], xs[j]);
        }
      }
    } else {
      SetInsertSorted(xs[1..], x);
      LessTotal(x, xs[0]);
      var tail := SetInsert(xs[1..], x);
      SetInsertMembers(xs[1..], x);
      forall j | 0 <= j < |tail|
        ensures Less(xs[0], tail[j])
      {
        assert tail[j] in tail;
        assert tail[j] == x || tail[j] in xs[1..];
      }
    }
  }

  /** A set has only one iteration order. */
  lemma {:induction false} SortedUnique(xs: seq<string>, ys: seq<string>)
    requires StrictlySorted(xs) && StrictlySorted(ys)
    requires (set z | z in xs) == (set z | z in ys)
    ensures xs == ys
  {
    var S, T := set z | z in xs, set z | z in ys;
    assert ys != [] ==> ys[0] in T;
    if xs != [] {
      assert xs[0] in S;
      assert xs[0] in ys && ys[0] in xs;
      LessTotal(xs[0], ys[0]);
      assert xs[0] == ys[0];
      var a, b := xs[1..], ys[1..];
      SetTail(xs);
      SetTail(ys);
      SortedUnique(a, b);
      assert xs == [xs[0]] + a && ys == [ys[0]] + b;
    }
  }

  lemma SetTail(xs: seq<string>)
    requires StrictlySorted(xs) && xs != []
    ensures (set z | z in xs[1..]) == (set z | z in xs) - {xs[0]}
  {
    LessTotal(xs[0], xs[0]);
    assert xs == [xs[0]] + xs[1..];
  }

  // ---- decimal numbers ----

  predicate IsDigit(c: char) {
    '0' <= c <= '9'
  }

  predicate AllDigits(s: string) {
    forall i :: 0 <= i < |s| ==> IsDigit(s[i])
  }

  function DigitsValue(s: string): nat
    requires AllDigits(s)
  {
    if s == "" then 0
    else DigitsValue(s[..|s| - 1]) * 10 + (s[|s| - 1] as int - '0' as int)
  }

  /** `format!("{n}")` */
  function Decimal(n: nat): (s: string)
    ensures s != "" && AllDigits(s) && DigitsValue(s) == n
    ensures s[0] == '0' ==> n == 0 && |s| == 1
  {
    if n < 10 then
      var s := [('0' as int + n) as char];
      assert DigitsValue(s[..0]) == 0;
      s
    else
      var init := Decimal(n / 10);
      var s := init + [('0' as int + n % 10) as char];
      assert s[..|s| - 1] == init;
      s
  }

  const I64_MIN: int := -0x8000_0000_0000_0000
  const I64_MAX: int := 0x7FFF_FFFF_FFFF_FFFF

  /** `str::parse::<i64>`: an optional sign, at least one ASCII digit, no overflow. */
  function ParseI64(s: string): (r: Option<int>)
    ensures r.Some? ==> I64_MIN <= r.value <= I64_MAX
  {
    var negative := s != "" && s[0] == '-';
    var digits := if s != "" && (s[0] == '-' || s[0] == '+') then s[1..] else s;
    if digits == "" || !AllDigits(digits) then None
    else
      var magnitude: int := DigitsValue(digits);
      var v := if negative then -magnitude else magnitude;
      if I64_MIN <= v <= I64_MAX then Some(v) else None
  }

  function Zeros(k: nat): string {
    seq(k, _ => '0')
  }

  lemma {:induction false} LeadingZeros(k: nat, d: string)
    requires AllDigits(d)
    ensures AllDigits(Zeros(k) + d) && DigitsValue(Zeros(k) + d) == DigitsValue(d)
    decreases k + |d|
  {
    var s := Zeros(k) + d;
    if d != "" {
      var last := |d| - 1;
      assert s[..|s| - 1] == Zeros(k) + d[..last];
      LeadingZeros(k, d[..last]);
    } else if k > 0 {
      assert s[..|s| - 1] == Zeros(k - 1) + d;
      LeadingZeros(k - 1, d);
    }
  }

  lemma ParseUnsigned(d: string)
    requires AllDigits(d) && d != ""
    ensures ParseI64(d) == ParseI64("+" + d) == (if DigitsValue(d) <= 0x7FFF_FFFF_FFFF_FFFF then Some(DigitsValue(d) as int) else None)
    ensures ParseI64("-" + d) == (if DigitsValue(d) <= 0x8000_0000_0000_0000 then Some(-(DigitsValue(d) as int)) else None)
  {
    assert IsDigit(d[0]);
    assert ("+" + d)[1..] == d && ("-" + d)[1..] == d;
  }

  /** Any numeral, with any sign and leading zeros: its value when that is an `i64`, nothing on overflow. */
  lemma ParseNumeral(n: nat, k: nat)
    ensures var numeral := Zeros(k) + Decimal(n);
            && ParseI64(numeral) == ParseI64("+" + numeral) == (if n <= 0x7FFF_FFFF_FFFF_FFFF then Some(n as int) else None)
            && ParseI64("-" + numeral) == (if n <= 0x8000_0000_0000_0000 then Some(-(n as int)) else None)
  {
    LeadingZeros(k, Decimal(n));
    ParseUnsigned(Zeros(k) + Decimal(n));
  }

  predicate IsNumeral(d: string, n: nat, k: nat) {
    d == Zeros(k) + Decimal(n)
  }

  lemma NumeralSnoc(init: string, n: nat, k: nat, c: char)
    requires IsNumeral(init, n, k) && IsDigit(c)
    ensures exists n', k' :: IsNumeral(init + [c], n', k')
  {
    var v := c as int - '0' as int;
    if n == 0 {
      assert Decimal(0) == "0" && Decimal(v) == [c];
      assert IsNumeral(init + [c], v, k + 1);
    } else {
      assert (10 * n + v) / 10 == n && (10 * n + v) % 10 == v;
      assert Decimal(10 * n + v) == Decimal(n) + [c];
      assert IsNumeral(init + [c], 10 * n + v, k);
    }
  }

  /** Every run of digits is a numeral. */
  lemma {:induction false} DigitsAreNumerals(d: string)
    requires AllDigits(d) && d != ""
    ensures exists n, k :: IsNumeral(d, n, k)
  {
    var init, c := d[..|d| - 1], d[|d| - 1];
    assert IsDigit(c) && d == init + [c];
    if init == "" {
      var v := c as int - '0' as int;
      assert Decimal(v) == [c];
      assert IsNumeral(d, v, 0);
    } else {
      DigitsAreNumerals(init);
      var n, k :| IsNumeral(init, n, k);
      NumeralSnoc(init, n, k, c);
    }
  }

  /** Nothing but a numeral parses. */
  lemma OnlyNumeralsParse(s: string)
    requires ParseI64(s).Some?
    ensures exists d, n, k :: IsNumeral(d, n, k) && (s == d || s == "+" + d || s == "-" + d)
  {
    var d := if s != "" && (s[0] == '-' || s[0] == '+') then s[1..] else s;
    DigitsAreNumerals(d);
    var n, k :| IsNumeral(d, n, k);
    assert s[0] == '-' ==> s == "-" + d;
    assert s[0] == '+' ==> s == "+" + d;
  }
}
