/** String operations with the semantics of the Python built-ins that the
    orchestration code relies on: `str(n)`, `'{:02d}'.format(n)`,
    `s.split(sep)`, `s.split()`, `s.replace(a, b)`, `sep.join(parts)`,
    `os.path.basename` and `os.path.splitext`. */
module Text {
  import opened Outcomes

  // ---------------------------------------------------------------------
  // Decimal numbers

  predicate IsDigit(c: char) {
    '0' <= c <= '9'
  }

  predicate AllDigits(s: string) {
    forall i :: 0 <= i < |s| ==> IsDigit(s[i])
  }

  function DigitChar(d: nat): (c: char)
    requires d < 10
    ensures IsDigit(c) && c as int - '0' as int == d
  {
    (d + '0' as int) as char
  }

  /** `str(n)` for a non-negative integer: the shortest decimal spelling. */
  function NatToDecimal(n: nat): (s: string)
    ensures 1 <= |s| && AllDigits(s)
    ensures n < 10 <==> |s| == 1
    ensures s[0] == '0' ==> n == 0
    decreases n
  {
    if n < 10 then [DigitChar(n)] else NatToDecimal(n / 10) + [DigitChar(n % 10)]
  }

  /** `str(i)` for any integer. */
  function IntToDecimal(i: int): string {
    if i < 0 then "-" + NatToDecimal(-i) else NatToDecimal(i)
  }

  /** The value of a string of digits, most significant first. */
  function DigitsValue(s: string): nat
    requires AllDigits(s)
  {
    if s == [] then 0 else DigitsValue(s[..|s| - 1]) * 10 + (s[|s| - 1] as int - '0' as int)
  }

  /** Reads a non-empty run of decimal digits (leading zeros allowed). */
  function ParseNat(s: string): Option<nat> {
    if |s| > 0 && AllDigits(s) then Some(DigitsValue(s)) else None
  }

  /** Reads an optionally negative decimal integer. */
  function ParseInt(s: string): Option<int> {
    if |s| > 0 && s[0] == '-' then
      match ParseNat(s[1..])
      case Some(n) => Some(-(n as int))
      case None => None
    else
      match ParseNat(s)
      case Some(n) => Some(n)
      case None => None
  }

  lemma {:induction false} ParseNatDecimal(n: nat)
    ensures ParseNat(NatToDecimal(n)) == Some(n)
  {
    if n >= 10 {
      var s := NatToDecimal(n);
      var prefix := NatToDecimal(n / 10);
      assert s == prefix + [DigitChar(n % 10)];
      assert s[..|s| - 1] == prefix;
      ParseNatDecimal(n / 10);
      assert DigitsValue(prefix) == n / 10;
      assert DigitsValue(s) == DigitsValue(prefix) * 10 + n % 10;
    }
  }

  lemma {:induction false} ParseIntDecimal(i: int)
    ensures ParseInt(IntToDecimal(i)) == Some(i)
  {
    var s := IntToDecimal(i);
    if i < 0 {
      var d := NatToDecimal(-i);
      assert s == "-" + d;
      assert s[1..] == d;
      ParseNatDecimal(-i);
    } else {
      var d := NatToDecimal(i);
      assert s == d;
      assert IsDigit(s[0]);
      ParseNatDecimal(i);
    }
  }

  /** Distinct numbers have distinct decimal spellings. */
  lemma NatToDecimalInjective(a: nat, b: nat)
    requires NatToDecimal(a) == NatToDecimal(b)
    ensures a == b
  {
    ParseNatDecimal(a);
    ParseNatDecimal(b);
  }

  /** `'{:02d}'.format(n)`: zero-padded to width two, the sign counting
      towards the width. */
  function Pad2(n: int): string {
    if 0 <= n < 10 then ['0', DigitChar(n)] else IntToDecimal(n)
  }

  lemma Pad2Shape(n: int)
    requires 0 <= n < 100
    ensures |Pad2(n)| == 2 && AllDigits(Pad2(n))
  {
    if n >= 10 {
      assert NatToDecimal(n) == NatToDecimal(n / 10) + [DigitChar(n % 10)];
    }
  }

  lemma ParsePad2(n: nat)
    ensures ParseNat(Pad2(n)) == Some(n)
  {
    if n < 10 {
      var s := Pad2(n);
      assert s[..1] == ['0'];
      assert ['0'][..0] == [];
      assert DigitsValue(['0']) == 0;
      assert DigitsValue(s) == DigitsValue(['0']) * 10 + n;
    } else {
      ParseNatDecimal(n);
    }
  }

  /** Zero padding never makes two numbers look alike. */
  lemma Pad2Injective(a: nat, b: nat)
    requires Pad2(a) == Pad2(b)
    ensures a == b
  {
    ParsePad2(a);
    ParsePad2(b);
  }

  // ---------------------------------------------------------------------
  // Prefixes, suffixes, search

  predicate StartsWith(s: string, prefix: string) {
    |prefix| <= |s| && s[..|prefix|] == prefix
  }

  predicate EndsWith(s: string, suffix: string) {
    |suffix| <= |s| && s[|s| - |suffix|..] == suffix
  }

  /** `s.rfind(c)`: the last index of `c`, or -1. */
  function LastIndexOf(s: string, c: char): (r: int)
    ensures -1 <= r < |s|
    ensures r == -1 ==> c !in s
    ensures r >= 0 ==> s[r] == c && c !in s[r + 1..]
  {
    if s == [] then -1
    else if s[|s| - 1] == c then |s| - 1
    else
      var r := LastIndexOf(s[..|s| - 1], c);
      assert s[..|s| - 1] + [s[|s| - 1]] == s;
      if r >= 0 then assert s[r + 1..] == s[..|s| - 1][r + 1..] + [s[|s| - 1]]; r else r
  }

  /** `os.path.basename(p)`: what follows the last '/'. */
  function Basename(p: string): (b: string)
    ensures '/' !in b
    ensures |b| <= |p| && p[|p| - |b|..] == b
    ensures |b| < |p| ==> p[|p| - |b| - 1] == '/'
    ensures '/' !in p ==> b == p
  {
    if p == [] then []
    else if p[|p| - 1] == '/' then []
    else
      var b := Basename(p[..|p| - 1]);
      assert p[..|p| - 1] + [p[|p| - 1]] == p;
      b + [p[|p| - 1]]
  }

  /** `os.path.splitext(p)[0]`: drop the last extension, unless the dot is
      in a directory part or the file name is only dots before it. */
  function SplitextRoot(p: string): string {
    var slash := LastIndexOf(p, '/');
    var dot := LastIndexOf(p, '.');
    if dot > slash && exists k :: slash + 1 <= k < dot && p[k] != '.' then p[..dot] else p
  }

  lemma {:induction false} LastIndexAt(s: string, c: char, i: nat)
    requires i < |s| && s[i] == c && c !in s[i + 1..]
    ensures LastIndexOf(s, c) == i
  {
    if i < |s| - 1 {
      assert s[|s| - 1] in s[i + 1..];
      assert s[..|s| - 1][i + 1..] == s[i + 1..|s| - 1];
      LastIndexAt(s[..|s| - 1], c, i);
    }
  }

  /** For a plain file name ending in ".pickle" that is not a dot-file,
      `splitext(basename(p))[0]` is the name without ".pickle". */
  lemma {:induction false} SplitextPickle(p: string)
    requires EndsWith(p, ".pickle") && '/' !in p && |p| > 0 && p[0] != '.'
    ensures Basename(p) == p
    ensures SplitextRoot(p) == p[..|p| - 7]
  {
    PickleDot(p);
    var slash, dot := LastIndexOf(p, '/'), LastIndexOf(p, '.');
    assert slash == -1 && dot == |p| - 7;
    assert slash + 1 <= 0 < dot && p[0] != '.';
    assert SplitextRoot(p) == p[..dot];
  }

  /** The last '.' of a name ending in ".pickle" is the one before "pickle". */
  lemma PickleDot(p: string)
    requires EndsWith(p, ".pickle")
    ensures LastIndexOf(p, '.') == |p| - 7
  {
    var n := |p| - 7;
    assert p[n..] == ".pickle";
    assert p[n + 1..] == "pickle";
    LastIndexAt(p, '.', n);
  }

  // ---------------------------------------------------------------------
  // Splitting and joining

  /** `sep.join(parts)` for a one-character separator. */
  function JoinWith(parts: seq<string>, sep: char): string {
    if |parts| == 0 then ""
    else if |parts| == 1 then parts[0]
    else parts[0] + [sep] + JoinWith(parts[1..], sep)
  }

  /** Joining runs of digits gives only digits and separators. */
  lemma {:induction false} JoinDigits(parts: seq<string>, sep: char)
    requires forall k :: 0 <= k < |parts| ==> AllDigits(parts[k])
    ensures forall i :: 0 <= i < |JoinWith(parts, sep)| ==> IsDigit(JoinWith(parts, sep)[i]) || JoinWith(parts, sep)[i] == sep
  {
    if |parts| == 1 {
      assert AllDigits(parts[0]);
    } else if |parts| > 1 {
      JoinDigits(parts[1..], sep);
      var s, t := JoinWith(parts, sep), JoinWith(parts[1..], sep);
      assert s == parts[0] + [sep] + t;
      forall i | 0 <= i < |s| ensures IsDigit(s[i]) || s[i] == sep {
        if i < |parts[0]| {
          assert AllDigits(parts[0]) && s[i] == parts[0][i];
        } else if i == |parts[0]| {
          assert s[i] == sep;
        } else {
          assert s[i] == t[i - |parts[0]| - 1];
        }
      }
    }
  }

  /** `s.split(sep)` for a one-character separator: every piece, including
      the empty ones around leading, trailing or doubled separators. */
  function SplitOn(s: string, sep: char): (parts: seq<string>)
    ensures |parts| >= 1
    ensures forall k :: 0 <= k < |parts| ==> sep !in parts[k]
  {
    if s == [] then [""]
    else
      var rest := SplitOn(s[1..], sep);
      if s[0] == sep then [""] + rest else [[s[0]] + rest[0]] + rest[1..]
  }

  /** Joining the pieces of a split gives back the original string. */
  lemma {:induction false} JoinSplit(s: string, sep: char)
    ensures JoinWith(SplitOn(s, sep), sep) == s
  {
    if s != [] {
      var rest := SplitOn(s[1..], sep);
      JoinSplit(s[1..], sep);
      if s[0] == sep {
        assert SplitOn(s, sep) == [""] + rest;
        assert JoinWith([""] + rest, sep) == "" + [sep] + JoinWith(rest, sep);
      } else if |rest| == 1 {
        assert SplitOn(s, sep) == [[s[0]] + rest[0]];
      } else {
        var parts := SplitOn(s, sep);
        assert parts == [[s[0]] + rest[0]] + rest[1..];
        assert parts[1..] == rest[1..];
        assert JoinWith(rest, sep) == rest[0] + [sep] + JoinWith(rest[1..], sep);
      }
    }
  }

  lemma {:induction false} SplitOnWithout(p: string, sep: char)
    requires sep !in p
    ensures SplitOn(p, sep) == [p]
  {
    if p != [] {
      SplitOnWithout(p[1..], sep);
      assert [p[0]] + p[1..] == p;
    }
  }

  lemma {:induction false} SplitOnPiece(p: string, rest: string, sep: char)
    requires sep !in p
    ensures SplitOn(p + [sep] + rest, sep) == [p] + SplitOn(rest, sep)
  {
    var s := p + [sep] + rest;
    if p == [] {
      assert s[1..] == rest;
    } else {
      assert s[1..] == p[1..] + [sep] + rest;
      SplitOnPiece(p[1..], rest, sep);
      assert [p[0]] + p[1..] == p;
    }
  }

  /** Splitting a join gives back the pieces, when no piece holds the separator. */
  lemma {:induction false} SplitJoin(parts: seq<string>, sep: char)
    requires |parts| >= 1
    requires forall k :: 0 <= k < |parts| ==> sep !in parts[k]
    ensures SplitOn(JoinWith(parts, sep), sep) == parts
  {
    if |parts| == 1 {
      SplitOnWithout(parts[0], sep);
    } else {
      SplitJoin(parts[1..], sep);
      SplitOnPiece(parts[0], JoinWith(parts[1..], sep), sep);
    }
  }

  /** The characters `str.isspace()` accepts: ASCII white space, the
      information separators, NEL, NBSP and the Unicode space separators. */
  predicate IsSpace(c: char) {
    c == ' ' || c == '\t' || c == '\n' || c == '\r' || c == '\U{B}' || c == '\U{C}'
    || ('\U{1C}' <= c <= '\U{1F}') || c == '\U{85}' || c == '\U{A0}' || c == '\U{1680}'
    || ('\U{2000}' <= c <= '\U{200A}') || c == '\U{2028}' || c == '\U{2029}'
    || c == '\U{202F}' || c == '\U{205F}' || c == '\U{3000}'
  }

  predicate NoSpace(s: string) {
    forall i :: 0 <= i < |s| ==> !IsSpace(s[i])
  }

  /** `s.lstrip()` */
  function TrimStart(s: string): (t: string)
    ensures |t| <= |s| && t == s[|s| - |t|..]
    ensures t == [] || !IsSpace(t[0])
  {
    if s != [] && IsSpace(s[0]) then TrimStart(s[1..]) else s
  }

  /** The longest prefix of `s` without white space. */
  function WordPrefix(s: string): (w: string)
    ensures |w| <= |s| && w == s[..|w|] && NoSpace(w)
    ensures |w| < |s| ==> IsSpace(s[|w|])
  {
    if s == [] || IsSpace(s[0]) then []
    else
      var w := WordPrefix(s[1..]);
      assert s[1..][..|w|] == s[1..|w| + 1];
      [s[0]] + w
  }

  /** `s.split()`: the maximal runs of non-white-space characters. */
  function Words(s: string): (ws: seq<string>)
    ensures forall k :: 0 <= k < |ws| ==> |ws[k]| > 0 && NoSpace(ws[k])
    decreases |s|
  {
    var t := TrimStart(s);
    if t == [] then []
    else
      var w := WordPrefix(t);
      [w] + Words(t[|w|..])
  }

  lemma {:induction false} WordPrefixOf(w: string, rest: string)
    requires NoSpace(w)
    requires rest == [] || IsSpace(rest[0])
    ensures WordPrefix(w + rest) == w
  {
    if w != [] {
      assert (w + rest)[1..] == w[1..] + rest;
      WordPrefixOf(w[1..], rest);
      assert [w[0]] + w[1..] == w;
    }
  }

  lemma WordsAfterSpace(c: char, s: string)
    requires IsSpace(c)
    ensures Words([c] + s) == Words(s)
  {
    assert ([c] + s)[1..] == s;
  }

  lemma WordsOfWord(w: string, rest: string)
    requires |w| > 0 && NoSpace(w)
    requires rest == [] || IsSpace(rest[0])
    ensures Words(w + rest) == [w] + Words(rest)
  {
    var s := w + rest;
    assert TrimStart(s) == s;
    WordPrefixOf(w, rest);
    assert s[|w|..] == rest;
  }

  lemma SliceOfFront<T>(p: seq<T>, q: seq<T>, lo: nat, hi: nat)
    requires lo <= hi <= |p|
    ensures (p + q)[lo..hi] == p[lo..hi]
  {
  }

  lemma SliceOfBack<T>(p: seq<T>, q: seq<T>)
    ensures (p + q)[|p|..|p| + |q|] == q
  {
  }

  lemma HeadTail<T>(s: seq<T>)
    requires |s| > 0
    ensures [s[0]] + s[1..] == s
  {
  }

  /** A word followed by a space is the first word. */
  lemma WordsCons(w: string, rest: string)
    requires |w| > 0 && NoSpace(w)
    ensures Words(w + [' '] + rest) == [w] + Words(rest)
  {
    assert w + [' '] + rest == w + ([' '] + rest);
    WordsOfWord(w, [' '] + rest);
    WordsAfterSpace(' ', rest);
  }

  /** Splitting words joined by single spaces gives back the words. */
  lemma {:induction false} WordsJoin(ws: seq<string>)
    requires forall k :: 0 <= k < |ws| ==> |ws[k]| > 0 && NoSpace(ws[k])
    ensures Words(JoinWith(ws, ' ')) == ws
  {
    if |ws| == 1 {
      WordsOfWord(ws[0], []);
      assert ws[0] + [] == ws[0];
    } else if |ws| > 1 {
      assert |ws[0]| > 0 && NoSpace(ws[0]);
      WordsCons(ws[0], JoinWith(ws[1..], ' '));
      assert forall k :: 0 <= k < |ws[1..]| ==> ws[1..][k] == ws[k + 1];
      WordsJoin(ws[1..]);
      HeadTail(ws);
    }
  }

  /** `s.replace(a, b)` for single characters. */
  function ReplaceChar(s: string, a: char, b: char): (r: string)
    ensures |r| == |s|
    ensures forall i :: 0 <= i < |s| ==> r[i] == if s[i] == a then b else s[i]
  {
    if s == [] then [] else [if s[0] == a then b else s[0]] + ReplaceChar(s[1..], a, b)
  }

  lemma ReplaceAbsent(s: string, a: char, b: char)
    requires a !in s
    ensures ReplaceChar(s, a, b) == s
  {
  }

  /** Turning every comma into a space maps a comma-joined list onto the
      space-joined one. */
  lemma {:induction false} ReplaceJoin(ws: seq<string>)
    requires forall k :: 0 <= k < |ws| ==> ',' !in ws[k]
    ensures ReplaceChar(JoinWith(ws, ','), ',', ' ') == JoinWith(ws, ' ')
  {
    if |ws| == 1 {
      ReplaceAbsent(ws[0], ',', ' ');
    } else if |ws| > 1 {
      ReplaceJoin(ws[1..]);
      var s := JoinWith(ws, ',');
      var t := JoinWith(ws, ' ');
      assert s == ws[0] + [','] + JoinWith(ws[1..], ',');
      assert t == ws[0] + [' '] + JoinWith(ws[1..], ' ');
      var r := ReplaceChar(s, ',', ' ');
      assert |r| == |t|;
      forall i | 0 <= i < |t|
        ensures r[i] == t[i]
      {
        if i > |ws[0]| {
          var j := i - |ws[0]| - 1;
          assert s[i] == JoinWith(ws[1..], ',')[j];
          assert t[i] == JoinWith(ws[1..], ' ')[j];
          assert ReplaceChar(JoinWith(ws[1..], ','), ',', ' ')[j] == t[i];
        }
      }
    }
  }

  /** `os.path.join(a, b)` on POSIX: an absolute `b` replaces `a`, and a
      separator goes in only when `a` is non-empty and does not already
      end with one. */
  function PathJoin(a: string, b: string): (p: string)
    ensures EndsWith(p, b)
    ensures StartsWith(b, "/") ==> p == b
    ensures !StartsWith(b, "/") ==> StartsWith(p, a)
  {
    if StartsWith(b, "/") then b
    else if a == [] || EndsWith(a, "/") then a + b
    else a + "/" + b
  }

  /** Joining onto a non-empty directory name that does not end with a
      separator puts exactly one separator in between. */
  lemma PathJoinPlain(a: string, b: string)
    requires a != [] && a[|a| - 1] != '/'
    requires b == [] || b[0] != '/'
    ensures PathJoin(a, b) == a + "/" + b
  {
  }

  /** Joining plain names gives them back, one per path component. */
  lemma PathJoinComponents(a: string, b: string, c: string)
    requires a != [] && b != []
    requires '/' !in a && '/' !in b && '/' !in c
    ensures SplitOn(PathJoin(PathJoin(a, b), c), '/') == [a, b, c]
  {
    PathJoinThree(a, b, c);
    JoinThree(a, b, c, '/');
    SplitJoin([a, b, c], '/');
  }

  lemma PathJoinThree(a: string, b: string, c: string)
    requires a != [] && b != []
    requires '/' !in a && '/' !in b && '/' !in c
    ensures PathJoin(PathJoin(a, b), c) == a + ['/'] + b + ['/'] + c
  {
    assert a[|a| - 1] in a && b[0] in b && b[|b| - 1] in b;
    PathJoinPlain(a, b);
    var ab := a + "/" + b;
    assert ab[|ab| - 1] == b[|b| - 1];
    assert c == [] || c[0] in c;
    PathJoinPlain(ab, c);
  }

  lemma JoinThree(a: string, b: string, c: string, sep: char)
    ensures JoinWith([a, b, c], sep) == a + [sep] + b + [sep] + c
  {
    assert [a, b, c][1..] == [b, c];
    assert [b, c][1..] == [c];
    assert JoinWith([b, c], sep) == b + [sep] + c;
    assert a + [sep] + (b + [sep] + c) == a + [sep] + b + [sep] + c;
  }

  /** A common prefix can be dropped from both sides of an equality. */
  lemma PrefixCancel(p: string, x: string, y: string)
    ensures p + x == p + y ==> x == y
  {
    if p + x == p + y {
      assert x == (p + x)[|p|..];
      assert y == (p + y)[|p|..];
    }
  }

  /** So can a common prefix and suffix together. */
  lemma AffixCancel(p: string, x: string, y: string, q: string)
    ensures p + x + q == p + y + q ==> x == y
  {
    if p + x + q == p + y + q {
      assert x == (p + x + q)[|p|..|p| + |x|];
      assert y == (p + y + q)[|p|..|p| + |y|];
    }
  }

  /** `a` is `b` with some elements left out, the rest in the same order. */
  predicate IsSubsequence<T(==)>(a: seq<T>, b: seq<T>)
    decreases |b|
  {
    if a == [] then true
    else if b == [] then false
    else if a[0] == b[0] then IsSubsequence(a[1..], b[1..])
    else IsSubsequence(a, b[1..])
  }

  lemma SubsequenceSkip<T>(a: seq<T>, x: T, b: seq<T>)
    requires IsSubsequence(a, b)
    ensures IsSubsequence(a, [x] + b)
    decreases |b|, 1
  {
    assert ([x] + b)[1..] == b;
    if a != [] && a[0] == x {
      SubsequenceTail(a, b);
    }
  }

  lemma SubsequenceTail<T>(a: seq<T>, b: seq<T>)
    requires a != [] && IsSubsequence(a, b)
    ensures IsSubsequence(a[1..], b)
    decreases |b|, 0
  {
    if a[0] != b[0] {
      SubsequenceTail(a, b[1..]);
    } else if a[1..] != [] {
      SubsequenceTail(a[1..], b[1..]);
      SubsequenceSkip(a[1..], b[0], b[1..]);
      assert [b[0]] + b[1..] == b;
    }
  }

  lemma {:induction false} SubsequenceRefl<T>(a: seq<T>)
    ensures IsSubsequence(a, a)
    decreases |a|
  {
    if a != [] {
      SubsequenceRefl(a[1..]);
    }
  }
}
