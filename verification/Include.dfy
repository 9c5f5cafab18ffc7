/** Expansion of the `!include` graph, with cycle detection over a stack of open files. */
module Includes {
  import opened Outcomes
  import opened Text

  datatype Line = Prose(text: string) | Directive(path: string)

  /** What the file system answers: canonical paths, readable contents, parent directories. */
  datatype Files = Files(canon: map<(string, string), string>, text: map<string, string>, parent: map<string, string>)

  datatype IncludeError =
    | CannotResolve(base: string, path: string)
    | CannotRead(file: string)
    | IncludeCycle(chain: seq<string>)

  const DIRECTIVE := "!include "

  function Parse(line: string): Line {
    var trimmed := Trim(line);
    if DIRECTIVE <= trimmed then Directive(Trim(trimmed[|DIRECTIVE|..])) else Prose(line)
  }

  function ParseAll(lines: seq<string>): (r: seq<Line>)
    ensures |r| == |lines| && forall i | 0 <= i < |r| :: r[i] == Parse(lines[i])
  {
    seq(|lines|, i requires 0 <= i < |lines| => Parse(lines[i]))
  }

  function Body(fs: Files, f: string): seq<Line>
    requires f in fs.text
  {
    ParseAll(Lines(fs.text[f]))
  }

  function Dir(fs: Files, f: string): string {
    if f in fs.parent then fs.parent[f] else "."
  }

  function IndexIn(stack: seq<string>, f: string): (i: nat)
    requires f in stack
    ensures i < |stack| && stack[i] == f
  {
    if stack[0] == f then 0 else 1 + IndexIn(stack[1..], f)
  }

  /** A line is a directive exactly when, white space around it aside, it is the word and a
      path; every other line is kept as it is. */
  lemma DirectiveIff(line: string, path: string)
    ensures Parse(line) == Directive(path)
       <==> path != "" && Trimmed(path)
            && exists lead, pad, tail :: Blank(lead) && Blank(pad) && Blank(tail)
                                         && line == lead + (DIRECTIVE + pad + path) + tail
    ensures Parse(line).Prose? ==> Parse(line).text == line
  {
    if Parse(line) == Directive(path) {
      var lead, pad, path, tail := DirectiveSplits(line);
    }
    if path != "" && Trimmed(path) {
      forall lead, pad, tail | Blank(lead) && Blank(pad) && Blank(tail)
        ensures Parse(lead + (DIRECTIVE + pad + path) + tail) == Directive(path)
      {
        DirectiveReads(lead, pad, path, tail);
      }
    }
  }

  lemma DirectiveReads(lead: string, pad: string, path: string, tail: string)
    requires Blank(lead) && Blank(pad) && Blank(tail) && path != "" && Trimmed(path)
    ensures Parse(lead + (DIRECTIVE + pad + path) + tail) == Directive(path)
  {
    var core := DIRECTIVE + pad + path;
    assert core[0] == '!' && core[|core| - 1] == path[|path| - 1];
    TrimStrips(lead, core, tail);
    assert core[|DIRECTIVE|..] == pad + path + "";
    TrimStrips(pad, path, "");
  }

  lemma DirectiveSplits(line: string) returns (lead: string, pad: string, path: string, tail: string)
    requires Parse(line).Directive?
    ensures Parse(line) == Directive(path) && path != "" && Trimmed(path)
    ensures Blank(lead) && Blank(pad) && Blank(tail) && line == lead + (DIRECTIVE + pad + path) + tail
  {
    var trimmed := Trim(line);
    assert DIRECTIVE <= trimmed && Parse(line) == Directive(Trim(trimmed[|DIRECTIVE|..]));
    hide *;
    lead, tail := TrimSplits(line);
    TrimNormalizes(line);
    AfterWord(trimmed);
    var rest := trimmed[|DIRECTIVE|..];
    pad := TrimLeads(rest);
    TrimNormalizes(rest);
    path := Trim(rest);
    Joined(DIRECTIVE, pad, path);
  }

  lemma Joined(a: string, b: string, c: string)
    ensures a + (b + c) == a + b + c
  {
  }

  /** The word ends in a blank, so a trimmed text that begins with it goes on. */
  lemma AfterWord(trimmed: string)
    requires DIRECTIVE <= trimmed && Trimmed(trimmed)
    ensures var rest := trimmed[|DIRECTIVE|..];
            trimmed == DIRECTIVE + rest && rest != "" && !IsWhite(rest[|rest| - 1])
  {
    var rest := trimmed[|DIRECTIVE|..];
    assert trimmed == DIRECTIVE + rest;
    assert trimmed[|trimmed| - 1] == if rest == "" then ' ' else rest[|rest| - 1];
  }

  // ---- what the recursion computes ----

  /** Readable files not on the stack: what is left to descend into. */
  ghost function Unvisited(fs: Files, stack: seq<string>): nat {
    |fs.text.Keys - set f | f in stack|
  }

  lemma PushShrinks(fs: Files, stack: seq<string>, f: string)
    requires f in fs.text && f !in stack
    ensures Unvisited(fs, stack + [f]) < Unvisited(fs, stack)
  {
    var before := fs.text.Keys - set g | g in stack;
    var after := fs.text.Keys - set g | g in stack + [f];
    assert after == before - {f};
  }

  ghost function Include(fs: Files, base: string, rel: string, stack: seq<string>): Result<string, IncludeError>
    decreases Unvisited(fs, stack), 0, 2
  {
    if (base, rel) !in fs.canon then Err(CannotResolve(base, rel)) else ExpandFile(fs, fs.canon[(base, rel)], stack)
  }

  ghost function ExpandFile(fs: Files, f: string, stack: seq<string>): Result<string, IncludeError>
    decreases Unvisited(fs, stack), 0, 1
  {
    if f in stack then Err(IncludeCycle(stack[IndexIn(stack, f)..] + [f]))
    else if f !in fs.text then Err(CannotRead(f))
    else
      PushShrinks(fs, stack, f);
      ExpandLines(fs, Dir(fs, f), Body(fs, f), stack + [f])
  }

  ghost function ExpandLines(fs: Files, base: string, lines: seq<Line>, stack: seq<string>)
    : Result<string, IncludeError>
    decreases Unvisited(fs, stack), 1, |lines|
  {
    if lines == [] then Ok("")
    else
      match ExpandLine(fs, base, lines[0], stack)
      case Err(e) => Err(e)
      case Ok(head) =>
        match ExpandLines(fs, base, lines[1..], stack)
        case Err(e) => Err(e)
        case Ok(tail) => Ok(head + tail)
  }

  ghost function ExpandLine(fs: Files, base: string, line: Line, stack: seq<string>): Result<string, IncludeError>
    decreases Unvisited(fs, stack), 1, 0
  {
    match line
    case Prose(text) => Ok(text + "\n")
    case Directive(path) =>
      match Include(fs, base, path, stack)
      case Err(e) => Err(e)
      case Ok(nested) => Ok(EndLine(nested))
  }

  // ---- the code: a shared stack pushed and popped, text appended line by line ----

  class PathStack {
    var items: seq<string>

    constructor ()
      ensures items == []
    {
      items := [];
    }
  }

  /** Terminates on every file system, and leaves the stack as it found it whatever happens. */
  method IncludeFile(fs: Files, base: string, rel: string, stack: PathStack) returns (r: Result<string, IncludeError>)
    modifies stack
    ensures stack.items == old(stack.items)
    ensures r == Include(fs, base, rel, old(stack.items))
    decreases Unvisited(fs, stack.items), 0, 0
  {
    if (base, rel) !in fs.canon {
      return Err(CannotResolve(base, rel));
    }
    var canonical := fs.canon[(base, rel)];
    if canonical in stack.items {
      return Err(IncludeCycle(stack.items[IndexIn(stack.items, canonical)..] + [canonical]));
    }
    if canonical !in fs.text {
      return Err(CannotRead(canonical));
    }
    PushShrinks(fs, stack.items, canonical);
    stack.items := stack.items + [canonical];
    r := ResolveNestedIncludes(fs, Dir(fs, canonical), Lines(fs.text[canonical]), stack);
    stack.items := stack.items[..|stack.items| - 1];
  }

  method ResolveNestedIncludes(fs: Files, base: string, lines: seq<string>, stack: PathStack)
    returns (r: Result<string, IncludeError>)
    modifies stack
    ensures stack.items == old(stack.items)
    ensures r == ExpandLines(fs, base, ParseAll(lines), old(stack.items))
    decreases Unvisited(fs, stack.items), 1, 0
  {
    var out := "";
    ghost var all, items, whole := ParseAll(lines), stack.items, ExpandLines(fs, base, ParseAll(lines), stack.items);
    assert all[0..] == all && Prefixed("", whole) == whole;
    for i := 0 to |lines|
      invariant stack.items == items
      invariant whole == Prefixed(out, ExpandLines(fs, base, all[i..], items))
    {
      OneLine(fs, base, all, i, items, out);
      match Parse(lines[i]) {
        case Directive(path) =>
          var nested := IncludeFile(fs, base, path, stack);
          if nested.Err? {
            return nested;
          }
          out := out + EndLine(nested.value);
        case Prose(text) =>
          out := out + (text + "\n");
      }
    }
    assert all[|lines|..] == [] && out + "" == out;
    r := Ok(out);
  }

  ghost function Prefixed(out: string, rest: Result<string, IncludeError>): (r: Result<string, IncludeError>)
    ensures out == "" ==> r == rest
  {
    match rest
    case Ok(s) => assert out == "" ==> out + s == s; Ok(out + s)
    case Err(e) => Err(e)
  }

  /** Appending one line's text moves it from what is left to what is done. */
  lemma OneLine(fs: Files, base: string, lines: seq<Line>, i: nat, stack: seq<string>, out: string)
    requires i < |lines|
    ensures var head := ExpandLine(fs, base, lines[i], stack);
            Prefixed(out, ExpandLines(fs, base, lines[i..], stack))
            == match head
               case Err(e) => Err(e)
               case Ok(text) => Prefixed(out + text, ExpandLines(fs, base, lines[i + 1..], stack))
  {
    assert lines[i..][1..] == lines[i + 1..];
    var rest := ExpandLines(fs, base, lines[i + 1..], stack);
    var head := ExpandLine(fs, base, lines[i], stack);
    hide ExpandLine;
    if head.Ok? && rest.Ok? {
      assert out + (head.value + rest.value) == (out + head.value) + rest.value;
    }
  }

  // ---- the include graph ----

  ghost predicate Edge(fs: Files, f: string, g: string) {
    f in fs.text && exists p :: Names(fs, f, p) && (Dir(fs, f), p) in fs.canon && fs.canon[(Dir(fs, f), p)] == g
  }

  /** `f` holds an include directive for `path`. */
  ghost predicate Names(fs: Files, f: string, path: string)
    requires f in fs.text
  {
    Directive(path) in Body(fs, f)
  }

  ghost predicate Walk(fs: Files, w: seq<string>) {
    |w| >= 1 && forall i | 0 < i < |w| :: Edge(fs, w[i - 1], w[i])
  }

  ghost predicate Distinct(w: seq<string>) {
    forall i, j | 0 <= i < j < |w| :: w[i] != w[j]
  }

  /** `f` can be read and each of its directives names an existing file. */
  ghost predicate Resolves(fs: Files, f: string) {
    f in fs.text && forall p | Names(fs, f, p) :: (Dir(fs, f), p) in fs.canon
  }

  /** Every file reachable from `f` resolves, and no walk from `f` comes back to a file. */
  ghost predicate Expandable(fs: Files, f: string, stack: seq<string>) {
    forall w | Walk(fs, w) && w[0] == f :: Distinct(w) && Resolves(fs, w[|w| - 1]) && forall g | g in w :: g !in stack
  }

  lemma WalkCons(fs: Files, f: string, w: seq<string>)
    requires Walk(fs, w) && Edge(fs, f, w[0])
    ensures Walk(fs, [f] + w)
  {
    var v := [f] + w;
    forall i | 0 < i < |v|
      ensures Edge(fs, v[i - 1], v[i])
    {
      assert i > 1 ==> Edge(fs, w[i - 1 - 1], w[i - 1]);
    }
  }

  /** A list of lines expands exactly when each of its directives does. */
  lemma {:induction false} LinesOk(fs: Files, base: string, lines: seq<Line>, stack: seq<string>)
    ensures ExpandLines(fs, base, lines, stack).Ok? <==>
            forall p | Directive(p) in lines :: Include(fs, base, p, stack).Ok?
    decreases |lines|
  {
    if lines != [] {
      LinesOk(fs, base, lines[1..], stack);
      assert lines == [lines[0]] + lines[1..];
    }
  }

  /** Success means every walk ends somewhere readable without repeating a file. */
  lemma {:induction false} SuccessClearsWalks(fs: Files, f: string, stack: seq<string>, w: seq<string>)
    requires ExpandFile(fs, f, stack).Ok? && Walk(fs, w) && w[0] == f
    ensures Distinct(w) && Resolves(fs, w[|w| - 1]) && forall g | g in w :: g !in stack
    decreases |w|
  {
    LinesOk(fs, Dir(fs, f), Body(fs, f), stack + [f]);
    if |w| > 1 {
      SuccessClearsWalks(fs, w[1], stack + [f], w[1..]);
      forall i, j | 0 <= i < j < |w|
        ensures w[i] != w[j]
      {
        assert w[j] == w[1..][j - 1] && w[j] in w[1..];
        if i > 0 {
          assert w[i] == w[1..][i - 1];
        }
      }
      forall g | g in w
        ensures g !in stack
      {
        assert g == w[0] || g in w[1..];
      }
    }
  }

  /** Where every walk is clear, expansion succeeds. */
  lemma {:induction false} ClearWalksSucceed(fs: Files, f: string, stack: seq<string>)
    requires Expandable(fs, f, stack)
    ensures ExpandFile(fs, f, stack).Ok?
    decreases Unvisited(fs, stack)
  {
    assert Walk(fs, [f]) && [f][0] == f && f in [f];
    PushShrinks(fs, stack, f);
    forall p | Directive(p) in Body(fs, f)
      ensures Include(fs, Dir(fs, f), p, stack + [f]).Ok?
    {
      assert Names(fs, f, p);
      var g := fs.canon[(Dir(fs, f), p)];
      assert Edge(fs, f, g);
      ChildIsExpandable(fs, f, stack, g);
      ClearWalksSucceed(fs, g, stack + [f]);
    }
    LinesOk(fs, Dir(fs, f), Body(fs, f), stack + [f]);
  }

  lemma ChildIsExpandable(fs: Files, f: string, stack: seq<string>, g: string)
    requires Expandable(fs, f, stack) && Edge(fs, f, g)
    ensures Expandable(fs, g, stack + [f])
  {
    forall w | Walk(fs, w) && w[0] == g
      ensures Distinct(w) && Resolves(fs, w[|w| - 1]) && forall h | h in w :: h !in stack + [f]
    {
      WalkCons(fs, f, w);
      hide Edge, Resolves, Walk;
      var v := [f] + w;
      assert Distinct(v) && Resolves(fs, v[|v| - 1]);
      forall i, j | 0 <= i < j < |w|
        ensures w[i] != w[j]
      {
        assert v[i + 1] != v[j + 1];
      }
      forall h | h in w
        ensures h !in stack + [f]
      {
        var i :| 0 <= i < |w| && w[i] == h;
        assert v[0] != v[i + 1] && h in v;
      }
    }
  }

  /** Including a file succeeds exactly when everything reachable exists and no include
      cycle is reachable; diamonds are fine. */
  lemma ExpandsIffAcyclicAndComplete(fs: Files, f: string)
    ensures ExpandFile(fs, f, []).Ok? <==> Expandable(fs, f, [])
  {
    if ExpandFile(fs, f, []).Ok? {
      forall w | Walk(fs, w) && w[0] == f
        ensures Distinct(w) && Resolves(fs, w[|w| - 1]) && forall g | g in w :: g !in []
      {
        SuccessClearsWalks(fs, f, [], w);
      }
    }
    if Expandable(fs, f, []) {
      ClearWalksSucceed(fs, f, []);
    }
  }

  // ---- the text: plain recursive substitution, no stack ----

  /** Splices every directive's file in place, at most `depth` files deep. */
  ghost function Flatten(fs: Files, f: string, depth: nat): Option<string>
    decreases depth, 0
  {
    if depth == 0 || f !in fs.text then None else FlattenLines(fs, Dir(fs, f), Body(fs, f), depth - 1)
  }

  ghost function FlattenLines(fs: Files, base: string, lines: seq<Line>, depth: nat): Option<string>
    decreases depth, 1, |lines|
  {
    if lines == [] then Some("")
    else
      var head := match lines[0]
                  case Prose(text) => Some(text + "\n")
                  case Directive(path) =>
                    if (base, path) !in fs.canon then None
                    else match Flatten(fs, fs.canon[(base, path)], depth)
                         case None => None
                         case Some(nested) => Some(EndLine(nested));
      var tail := FlattenLines(fs, base, lines[1..], depth);
      if head.Some? && tail.Some? then Some(head.value + tail.value) else None
  }

  /** A file without directives expands to its own text, its line ends made "\n" and one at
      the end; an empty file to nothing. */
  lemma PlainFileIsItself(fs: Files, f: string, stack: seq<string>)
    requires f in fs.text && f !in stack && forall l | l in Lines(fs.text[f]) :: Parse(l).Prose?
    ensures ExpandFile(fs, f, stack) == Ok(if fs.text[f] == "" then "" else EndLine(UnixEnds(fs.text[f])))
  {
    PushShrinks(fs, stack, f);
    PlainLines(fs, Dir(fs, f), Lines(fs.text[f]), stack + [f]);
    LinesKeepText(fs.text[f]);
  }

  lemma {:induction false} PlainLines(fs: Files, base: string, lines: seq<string>, stack: seq<string>)
    requires forall l | l in lines :: Parse(l).Prose?
    ensures ExpandLines(fs, base, ParseAll(lines), stack) == Ok(Terminated(lines, "\n"))
  {
    if lines != [] {
      assert ParseAll(lines)[1..] == ParseAll(lines[1..]);
      assert Parse(lines[0]) == Prose(lines[0]);
      PlainLines(fs, base, lines[1..], stack);
    }
  }

  /** What is spliced in is whole lines: an expansion is empty or ends in a line end, and
      only an empty one is given a line end of its own. */
  lemma {:induction false} ExpansionIsWholeLines(fs: Files, base: string, lines: seq<Line>, stack: seq<string>)
    requires ExpandLines(fs, base, lines, stack).Ok?
    ensures var text := ExpandLines(fs, base, lines, stack).value;
            && (text == "" <==> lines == [])
            && EndLine(text) == if lines == [] then "\n" else text
  {
    if lines != [] {
      var head := ExpandLine(fs, base, lines[0], stack).value;
      ExpansionIsWholeLines(fs, base, lines[1..], stack);
      assert head != "" && head[|head| - 1] == '\n';
    }
  }

  /** On success the text is the plain substitution, whatever was on the stack. */
  lemma {:induction false} ExpansionIsSubstitution(fs: Files, f: string, stack: seq<string>, depth: nat)
    requires ExpandFile(fs, f, stack).Ok? && depth >= Unvisited(fs, stack)
    ensures Flatten(fs, f, depth) == Some(ExpandFile(fs, f, stack).value)
    decreases depth, 0
  {
    PushShrinks(fs, stack, f);
    ExpansionIsSubstitutionLines(fs, Dir(fs, f), Body(fs, f), stack + [f], depth - 1);
  }

  lemma {:induction false} ExpansionIsSubstitutionLines(
    fs: Files, base: string, lines: seq<Line>, stack: seq<string>, depth: nat)
    requires ExpandLines(fs, base, lines, stack).Ok? && depth >= Unvisited(fs, stack)
    ensures FlattenLines(fs, base, lines, depth) == Some(ExpandLines(fs, base, lines, stack).value)
    decreases depth, 1, |lines|
  {
    if lines != [] {
      ExpansionIsSubstitutionLines(fs, base, lines[1..], stack, depth);
      assert ExpandLine(fs, base, lines[0], stack).Ok?;
      if lines[0].Directive? {
        ExpansionIsSubstitution(fs, fs.canon[(base, lines[0].path)], stack, depth);
      }
    }
  }

  // ---- errors ----

  ghost predicate ReachedFrom(fs: Files, f: string, g: string) {
    exists w :: Walk(fs, w) && w[0] == f && w[|w| - 1] == g
  }

  /** What each error says about the graph reachable from `root`. */
  ghost predicate ErrorIsReal(fs: Files, root: string, e: IncludeError) {
    match e
    case IncludeCycle(chain) =>
      |chain| >= 2 && Walk(fs, chain) && chain[0] == chain[|chain| - 1] && ReachedFrom(fs, root, chain[0])
    case CannotRead(g) => ReachedFrom(fs, root, g) && g !in fs.text
    case CannotResolve(base, path) =>
      exists g :: ReachedFrom(fs, root, g) && g in fs.text && Names(fs, g, path) && base == Dir(fs, g)
                  && (base, path) !in fs.canon
  }

  lemma {:induction false} FileErrorsAreReal(fs: Files, f: string, stack: seq<string>)
    requires Walk(fs, stack + [f])
    ensures ExpandFile(fs, f, stack).Err? ==> ErrorIsReal(fs, (stack + [f])[0], ExpandFile(fs, f, stack).error)
    decreases Unvisited(fs, stack), 0
  {
    var v := stack + [f];
    if f in stack {
      var pos := IndexIn(stack, f);
      var chain := stack[pos..] + [f];
      assert chain == v[pos..];
      forall i | 0 < i < |chain|
        ensures Edge(fs, chain[i - 1], chain[i])
      {
        assert Edge(fs, v[pos + i - 1], v[pos + i]);
      }
      assert Walk(fs, v[..pos + 1]) && v[..pos + 1][0] == v[0] && v[..pos + 1][pos] == f;
    } else if f !in fs.text {
      assert v[|v| - 1] == f;
    } else {
      PushShrinks(fs, stack, f);
      LineErrorsAreReal(fs, f, Body(fs, f), v);
    }
  }

  lemma {:induction false} LineErrorsAreReal(fs: Files, f: string, lines: seq<Line>, stack: seq<string>)
    requires Walk(fs, stack) && stack[|stack| - 1] == f && f in fs.text
    requires forall l | l in lines :: l in Body(fs, f)
    ensures ExpandLines(fs, Dir(fs, f), lines, stack).Err? ==>
              ErrorIsReal(fs, stack[0], ExpandLines(fs, Dir(fs, f), lines, stack).error)
    decreases Unvisited(fs, stack), 1, |lines|
  {
    if lines != [] {
      assert lines[0] in lines;
      if lines[0].Directive? {
        DirectiveErrorsAreReal(fs, f, lines[0].path, stack);
      }
      assert ExpandLine(fs, Dir(fs, f), lines[0], stack).Err? ==> lines[0].Directive?;
      LineErrorsAreReal(fs, f, lines[1..], stack);
    }
  }

  lemma {:induction false} DirectiveErrorsAreReal(fs: Files, f: string, p: string, stack: seq<string>)
    requires Walk(fs, stack) && stack[|stack| - 1] == f && f in fs.text && Names(fs, f, p)
    ensures var r := ExpandLine(fs, Dir(fs, f), Directive(p), stack); r.Err? ==> ErrorIsReal(fs, stack[0], r.error)
    decreases Unvisited(fs, stack), 1, 0
  {
    if (Dir(fs, f), p) in fs.canon {
      var g := fs.canon[(Dir(fs, f), p)];
      assert Edge(fs, f, g);
      FileErrorsAreReal(fs, g, stack);
      assert (stack + [g])[0] == stack[0];
    } else {
      assert ReachedFrom(fs, stack[0], f);
    }
  }

  /** Every error a top-level include reports is there to be found: a cycle chain is a
      closed walk of include edges, a missing file is one some reachable file asks for. */
  lemma TopLevelErrorsAreReal(fs: Files, f: string)
    ensures ExpandFile(fs, f, []).Err? ==> ErrorIsReal(fs, f, ExpandFile(fs, f, []).error)
  {
    assert [] + [f] == [f];
    FileErrorsAreReal(fs, f, []);
  }
}
