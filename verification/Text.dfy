/** The string operations of the front end: trimming, lines, splitting, ordering. */
module Text {

  /** Unicode White_Space, the class Rust's `trim` removes. */
  predicate IsWhite(c: char) {
    var n := c as int;
    || 9 <= n <= 13 || n == 0x20 || n == 0x85 || n == 0xA0 || n == 0x1680 || 0x2000 <= n <= 0x200A
    || n == 0x2028 || n == 0x2029 || n == 0x202F || n == 0x205F || n == 0x3000
  }

  function TrimStart(s: string): string {
    if s != "" && IsWhite(s[0]) then TrimStart(s[1..]) else s
  }

  function TrimEnd(s: string): string {
    if s != "" && IsWhite(s[|s| - 1]) then TrimEnd(s[..|s| - 1]) else s
  }

  function Trim(s: string): string {
    TrimEnd(TrimStart(s))
  }

  predicate Trimmed(s: string) {
    s == "" || (!IsWhite(s[0]) && !IsWhite(s[|s| - 1]))
  }

  lemma {:induction false} TrimEndKeepsStart(s: string)
    ensures |TrimEnd(s)| <= |s| && TrimEnd(s) == s[..|TrimEnd(s)|]
    ensures TrimEnd(s) == "" || !IsWhite(TrimEnd(s)[|TrimEnd(s)| - 1])
  {
    if s != "" && IsWhite(s[|s| - 1]) {
      TrimEndKeepsStart(s[..|s| - 1]);
    }
  }

  lemma {:induction false} TrimStartTrims(s: string)
    ensures TrimStart(s) == "" || !IsWhite(TrimStart(s)[0])
  {
    if s != "" && IsWhite(s[0]) {
      TrimStartTrims(s[1..]);
    }
  }

  /** Trimming leaves nothing to trim, and changes nothing that is trimmed. */
  lemma TrimNormalizes(s: string)
    ensures Trimmed(Trim(s))
    ensures Trimmed(s) ==> Trim(s) == s
  {
    TrimStartTrims(s);
    TrimEndKeepsStart(TrimStart(s));
  }

  lemma {:induction false} TrimSubset(s: string)
    ensures forall c | c in Trim(s) :: c in s
    decreases |s|
  {
    TrimStartSubset(s);
    TrimEndKeepsStart(TrimStart(s));
  }

  lemma {:induction false} TrimStartSubset(s: string)
    ensures forall c | c in TrimStart(s) :: c in s
  {
    if s != "" && IsWhite(s[0]) {
      TrimStartSubset(s[1..]);
    }
  }

  predicate Blank(s: string) {
    forall i | 0 <= i < |s| :: IsWhite(s[i])
  }

  lemma {:induction false} TrimStartStrips(lead: string, s: string)
    requires Blank(lead)
    ensures TrimStart(lead + s) == TrimStart(s)
  {
    if lead == "" {
      assert lead + s == s;
    } else {
      assert (lead + s)[1..] == lead[1..] + s;
      TrimStartStrips(lead[1..], s);
    }
  }

  lemma {:induction false} TrimEndStrips(s: string, tail: string)
    requires Blank(tail)
    ensures TrimEnd(s + tail) == TrimEnd(s)
  {
    if tail == "" {
      assert s + tail == s;
    } else {
      assert (s + tail)[..|s + tail| - 1] == s + tail[..|tail| - 1];
      TrimEndStrips(s, tail[..|tail| - 1]);
    }
  }

  /** Trimming removes exactly the white space around a text. */
  lemma TrimStrips(lead: string, body: string, tail: string)
    requires Blank(lead) && Blank(tail) && Trimmed(body)
    ensures Trim(lead + body + tail) == body
  {
    assert lead + body + tail == lead + (body + tail);
    TrimStartStrips(lead, body + tail);
    if body == "" {
      assert body + tail == tail && tail + "" == tail;
      TrimStartStrips(tail, "");
    } else {
      assert TrimStart(body + tail) == body + tail;
      TrimEndStrips(body, tail);
      assert TrimEnd(body) == body;
    }
  }

  lemma {:induction false} TrimStartSplits(s: string) returns (lead: string)
    ensures Blank(lead) && s == lead + TrimStart(s)
  {
    if s != "" && IsWhite(s[0]) {
      var rest := TrimStartSplits(s[1..]);
      lead := [s[0]] + rest;
    } else {
      lead := "";
    }
  }

  lemma {:induction false} TrimEndSplits(s: string) returns (tail: string)
    ensures Blank(tail) && s == TrimEnd(s) + tail
  {
    if s != "" && IsWhite(s[|s| - 1]) {
      var rest := TrimEndSplits(s[..|s| - 1]);
      tail := rest + [s[|s| - 1]];
    } else {
      tail := "";
    }
  }

  lemma TrimSplits(s: string) returns (lead: string, tail: string)
    ensures Blank(lead) && Blank(tail) && s == lead + Trim(s) + tail
  {
    lead := TrimStartSplits(s);
    tail := TrimEndSplits(TrimStart(s));
  }

  lemma TrimLeads(s: string) returns (lead: string)
    requires s != "" && !IsWhite(s[|s| - 1])
    ensures Blank(lead) && Trim(s) != "" && s == lead + Trim(s)
  {
    lead := TrimStartSplits(s);
    assert TrimStart(s) != "";
    assert TrimStart(s)[|TrimStart(s)| - 1] == s[|s| - 1];
    assert Trim(s) == TrimStart(s);
  }

  /** Position of the first `c`, or |s|. */
  function Find(s: string, c: char): (i: nat)
    ensures i <= |s|
    ensures i < |s| ==> s[i] == c
    ensures c !in s[..i]
  {
    if s == "" || s[0] == c then 0 else 1 + Find(s[1..], c)
  }

  function WithoutCr(l: string): string {
    if l != "" && l[|l| - 1] == '\r' then l[..|l| - 1] else l
  }

  /** `str::lines`: a final line may lack its terminator; "\r\n" counts as one. */
  function Lines(s: string): seq<string> {
    if s == "" then []
    else
      var i := Find(s, '\n');
      if i == |s| then [s]
      else [WithoutCr(s[..i])] + Lines(s[i + 1..])
  }

  function EndLine(s: string): string {
    if s != "" && s[|s| - 1] == '\n' then s else s + "\n"
  }

  /** The lines, each with the same end. */
  function Terminated(lines: seq<string>, end: string): string {
    if lines == [] then "" else lines[0] + end + Terminated(lines[1..], end)
  }

  /** Every "\r\n" made "\n". */
  function UnixEnds(s: string): string {
    if s == "" then ""
    else if "\r\n" <= s then "\n" + UnixEnds(s[2..])
    else [s[0]] + UnixEnds(s[1..])
  }

  lemma FindSkips(a: string, b: string, c: char)
    requires c !in a
    ensures Find(a + [c] + b, c) == |a|
  {
    var s := a + [c] + b;
    assert s[|a|] == c && s[..|a|] == a;
    assert forall k | 0 <= k < |a| :: s[k] in a;
    assert forall k | 0 <= k < Find(s, c) :: s[k] in s[..Find(s, c)];
  }

  lemma LinesStep(l: string, rest: string)
    requires '\n' !in l
    ensures Lines(l + ['\n'] + rest) == [WithoutCr(l)] + Lines(rest)
    ensures l != "" ==> Lines(l) == [l]
  {
    FindSkips(l, rest, '\n');
    var s := l + ['\n'] + rest;
    assert s[..|l|] == l && s[|l| + 1..] == rest;
  }

  /** Splitting undoes joining, with either line end; the end of the last line may be
      missing, unless the line is empty. */
  lemma {:induction false} LinesRoundTrip(lines: seq<string>, end: string, last: string)
    requires end == "\n" || end == "\r\n"
    requires forall l | l in lines :: '\n' !in l && (end == "\n" ==> WithoutCr(l) == l)
    requires '\n' !in last
    ensures Lines(Terminated(lines, end) + last) == lines + if last == "" then [] else [last]
  {
    var tail := if last == "" then [] else [last];
    if lines == [] {
      LinesStep(last, "");
      assert Terminated(lines, end) + last == last && lines + tail == tail;
    } else {
      var l, others := lines[0], lines[1..];
      assert lines == [l] + others;
      var body := if end == "\n" then l else l + "\r";
      assert '\n' !in body && WithoutCr(body) == l;
      LinesRoundTrip(others, end, last);
      hide *;
      TerminatedStep(lines, end, last, body);
      OneMoreLine(body, Terminated(others, end) + last, others, tail);
    }
  }

  lemma OneMoreLine(body: string, rest: string, others: seq<string>, tail: seq<string>)
    requires '\n' !in body && Lines(rest) == others + tail
    ensures Lines(body + ['\n'] + rest) == [WithoutCr(body)] + others + tail
  {
    LinesStep(body, rest);
    hide *;
    assert [WithoutCr(body)] + (others + tail) == [WithoutCr(body)] + others + tail;
  }

  lemma TerminatedStep(lines: seq<string>, end: string, last: string, body: string)
    requires lines != [] && (end == "\n" || end == "\r\n")
    requires body == if end == "\n" then lines[0] else lines[0] + "\r"
    ensures Terminated(lines, end) + last == body + ['\n'] + (Terminated(lines[1..], end) + last)
  {
    var rest := Terminated(lines[1..], end);
    assert Terminated(lines, end) == body + ['\n'] + rest;
    hide Terminated;
    assert (body + ['\n'] + rest) + last == body + ['\n'] + (rest + last);
  }

  lemma {:induction false} NoEnds(l: string)
    requires '\n' !in l
    ensures UnixEnds(l) == l
  {
    if l != "" {
      NoEnds(l[1..]);
    }
  }

  lemma {:induction false} UnixEndsLine(l: string, rest: string)
    requires '\n' !in l
    ensures UnixEnds(l + ['\n'] + rest) == WithoutCr(l) + ['\n'] + UnixEnds(rest)
  {
    if l == "" || l == "\r" {
      UnixEndsAtEnd(l, rest);
    } else {
      UnixEndsLine(l[1..], rest);
      UnixEndsStep(l, rest);
      WithoutCrTail(l);
      hide *;
      assert [l[0]] + (WithoutCr(l[1..]) + ['\n'] + UnixEnds(rest))
          == ([l[0]] + WithoutCr(l[1..])) + ['\n'] + UnixEnds(rest);
    }
  }

  lemma UnixEndsAtEnd(l: string, rest: string)
    requires l == "" || l == "\r"
    ensures UnixEnds(l + ['\n'] + rest) == WithoutCr(l) + ['\n'] + UnixEnds(rest)
  {
    var s := l + ['\n'] + rest;
    if l == "" {
      assert s[1..] == rest && s[0] == '\n';
    } else {
      assert s[2..] == rest && s[0] == '\r' && s[1] == '\n';
    }
  }

  lemma UnixEndsStep(l: string, rest: string)
    requires l != "" && l != "\r" && '\n' !in l
    ensures UnixEnds(l + ['\n'] + rest) == [l[0]] + UnixEnds(l[1..] + ['\n'] + rest)
  {
    var s := l + ['\n'] + rest;
    assert s[0] == l[0] && s[1..] == l[1..] + ['\n'] + rest;
    assert l[0] == '\r' ==> s[1] == l[1];
    assert !("\r\n" <= s);
  }

  lemma WithoutCrTail(l: string)
    requires l != "" && l != "\r"
    ensures WithoutCr(l) == [l[0]] + WithoutCr(l[1..])
  {
  }

  /** The lines of any text hold no line end, and joined again they are the text with its
      line ends made "\n" and one at the end. */
  lemma {:induction false} LinesKeepText(s: string)
    ensures forall l | l in Lines(s) :: '\n' !in l
    ensures Terminated(Lines(s), "\n") == if s == "" then "" else EndLine(UnixEnds(s))
  {
    if s != "" {
      var i := Find(s, '\n');
      if i == |s| {
        assert s[..i] == s;
        NoEnds(s);
        LinesStep(s, "");
        assert [s][1..] == [] && Terminated([s], "\n") == s + "\n" + "";
      } else {
        var l, rest := s[..i], s[i + 1..];
        assert s == l + ['\n'] + rest && '\n' !in l;
        LinesKeepText(rest);
        hide *;
        KeepsOneMore(l, rest);
      }
    }
  }

  lemma KeepsOneMore(l: string, rest: string)
    requires '\n' !in l && forall k | k in Lines(rest) :: '\n' !in k
    requires Terminated(Lines(rest), "\n") == if rest == "" then "" else EndLine(UnixEnds(rest))
    ensures var s := l + ['\n'] + rest;
            && (forall k | k in Lines(s) :: '\n' !in k)
            && Terminated(Lines(s), "\n") == EndLine(UnixEnds(s))
  {
    var s, first := l + ['\n'] + rest, WithoutCr(l);
    assert '\n' !in first;
    assert UnixEnds(rest) == "" <==> rest == "";
    LinesStep(l, rest);
    UnixEndsLine(l, rest);
    EndLineTail(first + ['\n'], UnixEnds(rest), rest);
    var lines := [first] + Lines(rest);
    assert lines[0] == first && lines[1..] == Lines(rest);
    assert Terminated(lines, "\n") == first + ['\n'] + Terminated(Lines(rest), "\n");
    hide Lines, UnixEnds, Terminated, EndLine;
  }

  lemma EndLineTail(head: string, tail: string, rest: string)
    requires head != "" && head[|head| - 1] == '\n' && (tail == "" <==> rest == "")
    ensures EndLine(head + tail) == head + if rest == "" then "" else EndLine(tail)
  {
    if rest != "" {
      assert (head + tail)[|head + tail| - 1] == tail[|tail| - 1];
    }
  }

  function Split(s: string, c: char): (parts: seq<string>)
    ensures |parts| >= 1
  {
    var i := Find(s, c);
    if i == |s| then [s] else [s[..i]] + Split(s[i + 1..], c)
  }

  /** Code-point order, which is also the byte order of UTF-8. */
  predicate StrLe(a: string, b: string) {
    a == [] || (b != [] && (a[0] < b[0] || (a[0] == b[0] && StrLe(a[1..], b[1..]))))
  }

  lemma {:induction false} StrLeTotal(a: string, b: string)
    ensures StrLe(a, b) || StrLe(b, a)
    ensures StrLe(a, b) && StrLe(b, a) ==> a == b
  {
    if a != [] && b != [] {
      StrLeTotal(a[1..], b[1..]);
      assert a == [a[0]] + a[1..] && b == [b[0]] + b[1..];
    }
  }

  lemma StrLeAntisymmetric()
    ensures forall a, b :: StrLe(a, b) && StrLe(b, a) ==> a == b
  {
    forall a, b
      ensures StrLe(a, b) && StrLe(b, a) ==> a == b
    {
      StrLeTotal(a, b);
    }
  }

  lemma {:induction false} StrLeTransitive(a: string, b: string, c: string)
    requires StrLe(a, b) && StrLe(b, c)
    ensures StrLe(a, c)
  {
    if a != [] && b[0] == a[0] && c[0] == b[0] {
      StrLeTransitive(a[1..], b[1..], c[1..]);
    }
  }

  /** `str::contains`. */
  predicate Contains(s: string, pattern: string) {
    pattern <= s || (s != "" && Contains(s[1..], pattern))
  }

  lemma {:induction false} ContainsIff(s: string, pattern: string)
    ensures Contains(s, pattern) <==> exists a, b :: s == a + pattern + b
  {
    if pattern <= s {
      assert s == "" + pattern + s[|pattern|..];
    } else if s != "" {
      ContainsIff(s[1..], pattern);
      if Contains(s, pattern) {
        var a, b :| s[1..] == a + pattern + b;
        assert s == ([s[0]] + a) + pattern + b;
      }
      if a, b :| s == a + pattern + b {
        assert a != "" by {
          assert a == "" ==> s == pattern + b;
        }
        assert s[1..] == a[1..] + pattern + b;
      }
    }
  }

  /** `split_whitespace().count()`. */
  function WordCount(s: string): nat {
    if s == "" then 0
    else WordCount(s[1..]) + if !IsWhite(s[0]) && (|s| == 1 || IsWhite(s[1])) then 1 else 0
  }

  /** Words are what white space separates: counts add up across it, and a text without any
      is one word, unless it is empty. */
  lemma {:induction false} WordCountSplits(a: string, c: char, b: string)
    requires IsWhite(c)
    ensures WordCount(a + [c] + b) == WordCount(a) + WordCount(b)
  {
    var s := a + [c] + b;
    if a == "" {
      assert s[1..] == b && s[0] == c;
    } else {
      assert s[1..] == a[1..] + [c] + b && s[0] == a[0];
      WordCountSplits(a[1..], c, b);
      assert |a| > 1 ==> s[1] == a[1];
      assert |a| == 1 ==> s[1] == c && a[1..] == "";
    }
  }

  lemma {:induction false} OneWord(w: string)
    requires w != "" && forall i | 0 <= i < |w| :: !IsWhite(w[i])
    ensures WordCount(w) == 1 && WordCount("") == 0
  {
    if |w| > 1 {
      OneWord(w[1..]);
    } else {
      assert w[1..] == "";
    }
  }

  /** A number as it is printed. */
  function Decimal(n: nat): string {
    if n < 10 then [('0' as int + n) as char] else Decimal(n / 10) + Decimal(n % 10)
  }

  predicate Digits(s: string) {
    forall i | 0 <= i < |s| :: '0' <= s[i] <= '9'
  }

  /** The number that digits are read as. */
  function Value(s: string): nat
    requires Digits(s)
  {
    if s == "" then 0 else 10 * Value(s[..|s| - 1]) + (s[|s| - 1] as int - '0' as int)
  }

  /** What is printed is the number, in digits, without a leading zero. */
  lemma {:induction false} DecimalReads(n: nat)
    ensures Decimal(n) != "" && Digits(Decimal(n)) && Value(Decimal(n)) == n
    ensures n >= 10 ==> Decimal(n)[0] != '0'
    ensures 0 < n < 10 ==> Decimal(n)[0] != '0'
  {
    if n < 10 {
      assert Decimal(n)[..0] == "";
    } else {
      DecimalReads(n / 10);
      DecimalReads(n % 10);
      var s := Decimal(n);
      assert |Decimal(n % 10)| == 1;
      assert s[..|s| - 1] == Decimal(n / 10);
      assert Decimal(n % 10)[..0] == "";
    }
  }

  lemma LastAt(a: string, x: string, c: char)
    requires c !in x
    ensures var s := a + ([c] + x);
            s[|a|] == c && forall i | |a| < i < |s| :: s[i] != c
  {
  }

  /** What follows the last `c` and what precedes it can be told apart. */
  lemma LastSplits(a: string, b: string, x: string, y: string, c: char)
    requires c !in x && c !in y && a + ([c] + x) == b + ([c] + y)
    ensures a == b && x == y
  {
    var s, t := a + ([c] + x), b + ([c] + y);
    LastAt(a, x, c);
    LastAt(b, y, c);
    assert |a| == |b|;
    assert s[..|a|] == a && t[..|b|] == b && s[|a| + 1..] == x && t[|b| + 1..] == y;
  }
}
