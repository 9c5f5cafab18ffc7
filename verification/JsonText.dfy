/** Compact JSON text, and why it determines the document. */
module JsonText {
  import opened JsonValues

  predicate IsNumberChar(c: char) {
    '0' <= c <= '9' || c in "+-.eE"
  }

  predicate IsNumberToken(t: string) {
    && t != "" && ('0' <= t[0] <= '9' || t[0] == '-')
    && forall c | c in t :: IsNumberChar(c)
  }

  /** What a parsed document satisfies: objects name no member twice, and numbers print
      as numbers. */
  ghost predicate WellFormed(v: Json)
    decreases v
  {
    match v
    case Number(t) => IsNumberToken(t)
    case Array(items) => forall i | 0 <= i < |items| :: WellFormed(items[i])
    case Object(members) =>
      && (forall i | 0 <= i < |members| :: WellFormed(members[i].value))
      && UniqueNames(members)
    case _ => true
  }

  ghost predicate UniqueNames(members: seq<Member>) {
    forall i, j | 0 <= i < j < |members| :: members[i].name != members[j].name
  }

  // ---- printing ----

  function HexDigit(n: nat): char
    requires n < 16
  {
    "0123456789abcdef"[n]
  }

  function Escape(c: char): string {
    var n := c as int;
    if c == '\"' then "\\\""
    else if c == '\\' then "\\\\"
    else if n == 8 then "\\b"
    else if n == 9 then "\\t"
    else if n == 10 then "\\n"
    else if n == 12 then "\\f"
    else if n == 13 then "\\r"
    else if n < 32 then "\\u00" + [HexDigit(n / 16), HexDigit(n % 16)]
    else [c]
  }

  // Each printer puts its text in front of `k`, what is printed after it.

  function StringText(s: string, k: string): string {
    if s == "" then ['\"'] + k else Escape(s[0]) + StringText(s[1..], k)
  }

  function Quote(s: string, k: string): string {
    ['\"'] + StringText(s, k)
  }

  function TextThen(v: Json, k: string): string
    decreases v
  {
    match v
    case Null => "null" + k
    case Bool(b) => if b then "true" + k else "false" + k
    case Number(t) => t + k
    case String(s) => Quote(s, k)
    case Array(items) => ['['] + ItemsText(items, k)
    case Object(members) => ['{'] + MembersText(members, k)
  }

  function ItemsText(items: seq<Json>, k: string): string
    decreases items
  {
    if items == [] then [']'] + k else TextThen(items[0], MoreItems(items[1..], k))
  }

  function MoreItems(items: seq<Json>, k: string): string
    decreases items
  {
    if items == [] then [']'] + k else [','] + TextThen(items[0], MoreItems(items[1..], k))
  }

  function MembersText(members: seq<Member>, k: string): string
    decreases members
  {
    if members == [] then ['}'] + k
    else Quote(members[0].name, [':'] + TextThen(members[0].value, MoreMembers(members[1..], k)))
  }

  function MoreMembers(members: seq<Member>, k: string): string
    decreases members
  {
    if members == [] then ['}'] + k
    else [','] + Quote(members[0].name, [':'] + TextThen(members[0].value, MoreMembers(members[1..], k)))
  }

  function Printed(v: Json): string {
    TextThen(v, "")
  }

  // ---- no raw control character is printed ----

  predicate Printable(s: string) {
    forall c | c in s :: c as int >= 32
  }

  lemma EscapePrintable(c: char)
    ensures Printable(Escape(c))
  {
  }

  lemma {:induction false} StringPrintable(s: string, k: string)
    requires Printable(k)
    ensures Printable(StringText(s, k))
  {
    if s != "" {
      EscapePrintable(s[0]);
      StringPrintable(s[1..], k);
    }
  }

  lemma {:induction false} TextThenPrintable(v: Json, k: string)
    requires WellFormed(v) && Printable(k)
    ensures Printable(TextThen(v, k))
    decreases v
  {
    match v
    case String(s) => StringPrintable(s, k);
    case Array(items) =>
      MoreItemsPrintable(items, k);
      if items != [] {
        MoreItemsPrintable(items[1..], k);
        TextThenPrintable(items[0], MoreItems(items[1..], k));
      }
    case Object(members) =>
      MoreMembersPrintable(members, k);
      assert MoreMembers(members, k)[0] in MoreMembers(members, k);
      if members != [] {
        assert MoreMembers(members, k)[1..] == MembersText(members, k);
        assert forall c | c in MoreMembers(members, k)[1..] :: c in MoreMembers(members, k);
      }
    case _ =>
  }

  lemma {:induction false} MoreItemsPrintable(items: seq<Json>, k: string)
    requires (forall i | 0 <= i < |items| :: WellFormed(items[i])) && Printable(k)
    ensures Printable(MoreItems(items, k))
    decreases items
  {
    if items != [] {
      MoreItemsPrintable(items[1..], k);
      TextThenPrintable(items[0], MoreItems(items[1..], k));
    }
  }

  lemma {:induction false} MoreMembersPrintable(members: seq<Member>, k: string)
    requires (forall i | 0 <= i < |members| :: WellFormed(members[i].value)) && Printable(k)
    ensures Printable(MoreMembers(members, k))
    decreases members
  {
    if members != [] {
      MoreMembersPrintable(members[1..], k);
      TextThenPrintable(members[0].value, MoreMembers(members[1..], k));
      StringPrintable(members[0].name, [':'] + TextThen(members[0].value, MoreMembers(members[1..], k)));
    }
  }

  /** JSON text holds no raw control character, and NUL in particular (section 7 of RFC 8259). */
  lemma TextPrintable(v: Json)
    requires WellFormed(v)
    ensures Printable(Printed(v))
  {
    TextThenPrintable(v, "");
  }

  // ---- the text determines the document ----

  function HexValue(c: char): nat {
    if '0' <= c <= '9' then c as int - '0' as int
    else if 'a' <= c <= 'f' then c as int - 'a' as int + 10
    else 0
  }

  /** Reads back one character: its value, and how much of the text it took. */
  function Unescape(a: string): (nat, nat)
    requires a != ""
  {
    if a[0] != '\\' || |a| < 2 then (a[0] as int, 1)
    else if a[1] == 'b' then (8, 2)
    else if a[1] == 't' then (9, 2)
    else if a[1] == 'n' then (10, 2)
    else if a[1] == 'f' then (12, 2)
    else if a[1] == 'r' then (13, 2)
    else if a[1] == 'u' && |a| >= 6 then (16 * HexValue(a[4]) + HexValue(a[5]), 6)
    else (a[1] as int, 2)
  }

  lemma UnescapeEscape(c: char, k: string)
    ensures Unescape(Escape(c) + k) == (c as int, |Escape(c)|)
  {
    var e := Escape(c);
    assert forall i | 0 <= i < |e| :: (e + k)[i] == e[i];
  }

  lemma EscapePrefixFree(c: char, d: char, x: string, y: string)
    requires Escape(c) + x == Escape(d) + y
    ensures c == d && x == y
  {
    UnescapeEscape(c, x);
    UnescapeEscape(d, y);
    hide Escape, Unescape;
    assert (Escape(c) + x)[|Escape(c)|..] == x && (Escape(d) + y)[|Escape(d)|..] == y;
  }

  lemma SameTail(a: string, b: string, c: char)
    requires [c] + a == [c] + b
    ensures a == b
  {
    assert ([c] + a)[1..] == a && ([c] + b)[1..] == b;
  }

  lemma EscapeStart(c: char, k: string)
    ensures Escape(c) + k != "" && (Escape(c) + k)[0] != '\"'
  {
    assert (Escape(c) + k)[0] == Escape(c)[0];
  }

  lemma {:induction false} StringPrefixFree(s: string, t: string, x: string, y: string)
    requires StringText(s, x) == StringText(t, y)
    ensures s == t && x == y
  {
    hide Escape;
    if s == "" {
      if t != "" {
        EscapeStart(t[0], StringText(t[1..], y));
      }
      SameTail(x, y, '\"');
    } else if t == "" {
      EscapeStart(s[0], StringText(s[1..], x));
    } else {
      EscapePrefixFree(s[0], t[0], StringText(s[1..], x), StringText(t[1..], y));
      StringPrefixFree(s[1..], t[1..], x, y);
      assert s == [s[0]] + s[1..] && t == [t[0]] + t[1..];
    }
  }

  lemma QuotePrefixFree(s: string, t: string, x: string, y: string)
    requires Quote(s, x) == Quote(t, y)
    ensures s == t && x == y
  {
    hide StringText;
    SameTail(StringText(s, x), StringText(t, y), '\"');
    StringPrefixFree(s, t, x, y);
  }

  /** What may follow a value. */
  predicate Stops(x: string) {
    x == "" || x[0] in ",]}"
  }

  lemma {:induction false} NumberPrefixFree(s: string, t: string, x: string, y: string)
    requires (forall c | c in s :: IsNumberChar(c)) && (forall c | c in t :: IsNumberChar(c))
    requires Stops(x) && Stops(y) && s + x == t + y
    ensures s == t && x == y
  {
    assert s == "" ==> s + x == x;
    assert t == "" ==> t + y == y;
    assert s != "" ==> (s + x)[0] == s[0] && s[0] in s;
    assert t != "" ==> (t + y)[0] == t[0] && t[0] in t;
    if s != "" && t != "" {
      assert (s + x)[1..] == s[1..] + x && (t + y)[1..] == t[1..] + y;
      NumberPrefixFree(s[1..], t[1..], x, y);
      assert s == [s[0]] + s[1..] && t == [t[0]] + t[1..];
    }
  }

  /** A document's first character tells its kind. */
  function KindOf(v: Json): char {
    match v
    case Null => 'n'
    case Bool(b) => if b then 't' else 'f'
    case Number(t) => '0'
    case String(_) => '\"'
    case Array(_) => '['
    case Object(_) => '{'
  }

  function KindAt(c: char): char {
    if '0' <= c <= '9' || c == '-' then '0' else c
  }

  lemma TextStart(v: Json, k: string)
    requires WellFormed(v)
    ensures TextThen(v, k) != "" && KindAt(TextThen(v, k)[0]) == KindOf(v)
  {
    match v
    case Null => assert ("null" + k)[0] == 'n';
    case Bool(b) => assert ("true" + k)[0] == 't' && ("false" + k)[0] == 'f';
    case Number(t) => assert (t + k)[0] == t[0];
    case _ =>
  }

  /** No text of a document is a proper beginning of another's, up to what may follow. */
  lemma {:induction false} TextPrefixFree(v: Json, w: Json, x: string, y: string)
    requires WellFormed(v) && WellFormed(w) && Stops(x) && Stops(y)
    requires TextThen(v, x) == TextThen(w, y)
    ensures v == w && x == y
    decreases v, 1
  {
    TextStart(v, x);
    TextStart(w, y);
    assert KindOf(v) == KindOf(w);
    hide ItemsText, MembersText, Quote;
    match v {
      case Null => assert ("null" + x)[4..] == x && ("null" + y)[4..] == y;
      case Bool(b) =>
        if b {
          assert ("true" + x)[4..] == x && ("true" + y)[4..] == y;
        } else {
          assert ("false" + x)[5..] == x && ("false" + y)[5..] == y;
        }
      case Number(t) => NumberPrefixFree(t, w.token, x, y);
      case String(s) => QuotePrefixFree(s, w.s, x, y);
      case Array(items) =>
        SameTail(ItemsText(items, x), ItemsText(w.items, y), '[');
        ItemsPrefixFree(items, w.items, x, y);
      case Object(members) =>
        SameTail(MembersText(members, x), MembersText(w.members, y), '{');
        MembersPrefixFree(members, w.members, x, y);
    }
  }

  ghost predicate AllWellFormed(items: seq<Json>) {
    forall i | 0 <= i < |items| :: WellFormed(items[i])
  }

  ghost predicate MembersWellFormed(members: seq<Member>) {
    forall i | 0 <= i < |members| :: WellFormed(members[i].value)
  }

  lemma {:induction false} ItemsPrefixFree(a: seq<Json>, b: seq<Json>, x: string, y: string)
    requires AllWellFormed(a) && AllWellFormed(b) && ItemsText(a, x) == ItemsText(b, y)
    ensures a == b && x == y
    decreases a, 1
  {
    hide TextThen, MoreItems;
    if a == [] {
      if b != [] {
        TextStart(b[0], MoreItems(b[1..], y));
      }
      SameTail(x, y, ']');
    } else if b == [] {
      TextStart(a[0], MoreItems(a[1..], x));
    } else {
      HeadAndRest(a, b, x, y);
    }
  }

  lemma {:induction false} MoreItemsPrefixFree(a: seq<Json>, b: seq<Json>, x: string, y: string)
    requires AllWellFormed(a) && AllWellFormed(b) && MoreItems(a, x) == MoreItems(b, y)
    ensures a == b && x == y
    decreases a, 1
  {
    hide TextThen;
    assert MoreItems(a, x)[0] == if a == [] then ']' else ',';
    assert MoreItems(b, y)[0] == if b == [] then ']' else ',';
    if a == [] {
      SameTail(x, y, ']');
    } else {
      SameTail(TextThen(a[0], MoreItems(a[1..], x)), TextThen(b[0], MoreItems(b[1..], y)), ',');
      HeadAndRest(a, b, x, y);
    }
  }

  lemma MoreItemsStops(items: seq<Json>, k: string)
    ensures Stops(MoreItems(items, k))
  {
    hide TextThen;
  }

  lemma {:induction false} HeadAndRest(a: seq<Json>, b: seq<Json>, x: string, y: string)
    requires AllWellFormed(a) && AllWellFormed(b) && a != [] && b != []
    requires TextThen(a[0], MoreItems(a[1..], x)) == TextThen(b[0], MoreItems(b[1..], y))
    ensures a == b && x == y
    decreases a, 0
  {
    hide TextThen, MoreItems;
    MoreItemsStops(a[1..], x);
    MoreItemsStops(b[1..], y);
    TextPrefixFree(a[0], b[0], MoreItems(a[1..], x), MoreItems(b[1..], y));
    MoreItemsPrefixFree(a[1..], b[1..], x, y);
    assert a == [a[0]] + a[1..] && b == [b[0]] + b[1..];
  }

  lemma {:induction false} MembersPrefixFree(a: seq<Member>, b: seq<Member>, x: string, y: string)
    requires MembersWellFormed(a) && MembersWellFormed(b) && MembersText(a, x) == MembersText(b, y)
    ensures a == b && x == y
    decreases a, 1
  {
    hide TextThen, MoreMembers, StringText;
    assert MembersText(a, x)[0] == if a == [] then '}' else '\"';
    assert MembersText(b, y)[0] == if b == [] then '}' else '\"';
    if a == [] {
      SameTail(x, y, '}');
    } else {
      MemberAndRest(a, b, x, y);
    }
  }

  lemma {:induction false} MoreMembersPrefixFree(a: seq<Member>, b: seq<Member>, x: string, y: string)
    requires MembersWellFormed(a) && MembersWellFormed(b) && MoreMembers(a, x) == MoreMembers(b, y)
    ensures a == b && x == y
    decreases a, 1
  {
    hide TextThen, Quote;
    assert MoreMembers(a, x)[0] == if a == [] then '}' else ',';
    assert MoreMembers(b, y)[0] == if b == [] then '}' else ',';
    if a == [] {
      SameTail(x, y, '}');
    } else {
      SameTail(Quote(a[0].name, [':'] + TextThen(a[0].value, MoreMembers(a[1..], x))),
               Quote(b[0].name, [':'] + TextThen(b[0].value, MoreMembers(b[1..], y))), ',');
      MemberAndRest(a, b, x, y);
    }
  }

  lemma MoreMembersStops(members: seq<Member>, k: string)
    ensures Stops(MoreMembers(members, k))
  {
    hide Quote;
  }

  lemma {:induction false} MemberAndRest(a: seq<Member>, b: seq<Member>, x: string, y: string)
    requires MembersWellFormed(a) && MembersWellFormed(b) && a != [] && b != []
    requires Quote(a[0].name, [':'] + TextThen(a[0].value, MoreMembers(a[1..], x)))
          == Quote(b[0].name, [':'] + TextThen(b[0].value, MoreMembers(b[1..], y)))
    ensures a == b && x == y
    decreases a, 0
  {
    hide TextThen, MoreMembers, Quote;
    var u := TextThen(a[0].value, MoreMembers(a[1..], x));
    var v := TextThen(b[0].value, MoreMembers(b[1..], y));
    QuotePrefixFree(a[0].name, b[0].name, [':'] + u, [':'] + v);
    SameTail(u, v, ':');
    MoreMembersStops(a[1..], x);
    MoreMembersStops(b[1..], y);
    TextPrefixFree(a[0].value, b[0].value, MoreMembers(a[1..], x), MoreMembers(b[1..], y));
    MoreMembersPrefixFree(a[1..], b[1..], x, y);
    assert a == [a[0]] + a[1..] && b == [b[0]] + b[1..];
  }

  /** Documents with the same text are the same. */
  lemma TextIsInjective(v: Json, w: Json)
    requires WellFormed(v) && WellFormed(w)
    ensures Printed(v) == Printed(w) <==> v == w
  {
    if Printed(v) == Printed(w) {
      TextPrefixFree(v, w, "", "");
    }
  }
}
