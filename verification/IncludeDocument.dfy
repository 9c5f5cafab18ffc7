/** Include tags in a parsed source document: every tag is replaced by the text it names. */
module IncludeDocuments {
  import opened Outcomes
  import opened Includes

  /** A scalar other than a string is the token it prints as. */
  datatype Yaml =
    | Scalar(token: string)
    | Text(s: string)
    | Sequence(items: seq<Yaml>)
    | Mapping(entries: seq<Entry>)
    | Tagged(tag: string, value: Yaml)

  /** Keys are distinct, and stay as they are. */
  datatype Entry = Entry(key: Yaml, value: Yaml)

  datatype DocumentError =
    | UnsupportedTag(tag: string)
    | InvalidIncludeTarget
    | IncludeFailed(error: IncludeError)

  const INCLUDE_TAG := "!include"

  // ---- what the walk computes ----

  ghost function Resolve(fs: Files, base: string, v: Yaml, stack: seq<string>): Result<Yaml, DocumentError>
    decreases v
  {
    match v
    case Tagged(tag, value) =>
      if tag != INCLUDE_TAG then Err(UnsupportedTag(tag))
      else if !value.Text? then Err(InvalidIncludeTarget)
      else (match Include(fs, base, value.s, stack)
            case Err(e) => Err(IncludeFailed(e))
            case Ok(text) => Ok(Text(text)))
    case Mapping(entries) =>
      (match ResolveEntries(fs, base, entries, stack)
       case Err(e) => Err(e)
       case Ok(r) => Ok(Mapping(r)))
    case Sequence(items) =>
      (match ResolveItems(fs, base, items, stack)
       case Err(e) => Err(e)
       case Ok(r) => Ok(Sequence(r)))
    case _ => Ok(v)
  }

  /** In order, up to the first that fails. */
  ghost function ResolveItems(fs: Files, base: string, items: seq<Yaml>, stack: seq<string>)
    : Result<seq<Yaml>, DocumentError>
    decreases items
  {
    if items == [] then Ok([])
    else
      match Resolve(fs, base, items[0], stack)
      case Err(e) => Err(e)
      case Ok(head) =>
        match ResolveItems(fs, base, items[1..], stack)
        case Err(e) => Err(e)
        case Ok(tail) => Ok([head] + tail)
  }

  ghost function ResolveEntries(fs: Files, base: string, entries: seq<Entry>, stack: seq<string>)
    : Result<seq<Entry>, DocumentError>
    decreases entries
  {
    if entries == [] then Ok([])
    else
      assert entries[0].value < entries[0];
      match Resolve(fs, base, entries[0].value, stack)
      case Err(e) => Err(e)
      case Ok(head) =>
        match ResolveEntries(fs, base, entries[1..], stack)
        case Err(e) => Err(e)
        case Ok(tail) => Ok([Entry(entries[0].key, head)] + tail)
  }

  // ---- what it means ----

  /** No tag anywhere but in mapping keys. */
  ghost predicate TagFree(v: Yaml)
    decreases v
  {
    match v
    case Tagged(_, _) => false
    case Mapping(entries) => forall i | 0 <= i < |entries| :: TagFree(entries[i].value)
    case Sequence(items) => forall i | 0 <= i < |items| :: TagFree(items[i])
    case _ => true
  }

  /** Every tag outside keys is an include of a path that leads to an expandable file. */
  ghost predicate TagsResolve(fs: Files, base: string, v: Yaml)
    decreases v
  {
    match v
    case Tagged(tag, value) =>
      && tag == INCLUDE_TAG && value.Text?
      && (base, value.s) in fs.canon && Expandable(fs, fs.canon[(base, value.s)], [])
    case Mapping(entries) => forall i | 0 <= i < |entries| :: TagsResolve(fs, base, entries[i].value)
    case Sequence(items) => forall i | 0 <= i < |items| :: TagsResolve(fs, base, items[i])
    case _ => true
  }

  /** `w` is `v` with each include tag replaced by the text it names, and nothing else moved. */
  ghost predicate Substituted(fs: Files, base: string, v: Yaml, w: Yaml)
    decreases v
  {
    match v
    case Tagged(tag, value) => value.Text? && w.Text? && Include(fs, base, value.s, []) == Ok(w.s)
    case Mapping(entries) =>
      && w.Mapping? && |w.entries| == |entries|
      && forall i | 0 <= i < |entries| ::
           w.entries[i].key == entries[i].key && Substituted(fs, base, entries[i].value, w.entries[i].value)
    case Sequence(items) =>
      && w.Sequence? && |w.items| == |items|
      && forall i | 0 <= i < |items| :: Substituted(fs, base, items[i], w.items[i])
    case _ => w == v
  }

  /** A document resolves exactly when every tag in it is an include that expands. */
  lemma {:induction false} ResolvesIff(fs: Files, base: string, v: Yaml)
    ensures Resolve(fs, base, v, []).Ok? <==> TagsResolve(fs, base, v)
    decreases v
  {
    match v
    case Tagged(tag, value) =>
      if value.Text? && (base, value.s) in fs.canon {
        ExpandsIffAcyclicAndComplete(fs, fs.canon[(base, value.s)]);
      }
    case Mapping(entries) => EntriesResolveIff(fs, base, entries);
    case Sequence(items) => ItemsResolveIff(fs, base, items);
    case _ =>
  }

  lemma {:induction false} ItemsResolveIff(fs: Files, base: string, items: seq<Yaml>)
    ensures ResolveItems(fs, base, items, []).Ok? <==> forall i | 0 <= i < |items| :: TagsResolve(fs, base, items[i])
    decreases items
  {
    if items != [] {
      ResolvesIff(fs, base, items[0]);
      ItemsResolveIff(fs, base, items[1..]);
      assert forall i | 0 < i < |items| :: items[i] == items[1..][i - 1];
      assert ResolveItems(fs, base, items, []).Ok?
        <==> Resolve(fs, base, items[0], []).Ok? && ResolveItems(fs, base, items[1..], []).Ok?;
    }
  }

  lemma {:induction false} EntriesResolveIff(fs: Files, base: string, entries: seq<Entry>)
    ensures ResolveEntries(fs, base, entries, []).Ok?
       <==> forall i | 0 <= i < |entries| :: TagsResolve(fs, base, entries[i].value)
    decreases entries
  {
    if entries != [] {
      assert entries[0].value < entries[0];
      ResolvesIff(fs, base, entries[0].value);
      EntriesResolveIff(fs, base, entries[1..]);
      assert forall i | 0 < i < |entries| :: entries[i] == entries[1..][i - 1];
      assert ResolveEntries(fs, base, entries, []).Ok?
        <==> Resolve(fs, base, entries[0].value, []).Ok? && ResolveEntries(fs, base, entries[1..], []).Ok?;
    }
  }

  /** What comes out is the document with its includes substituted, and no tag is left. */
  lemma {:induction false} ResolvedIsSubstituted(fs: Files, base: string, v: Yaml)
    requires Resolve(fs, base, v, []).Ok?
    ensures Substituted(fs, base, v, Resolve(fs, base, v, []).value)
    ensures TagFree(Resolve(fs, base, v, []).value)
    decreases v
  {
    match v
    case Mapping(entries) => EntriesSubstituted(fs, base, entries);
    case Sequence(items) => ItemsSubstituted(fs, base, items);
    case _ =>
  }

  lemma {:induction false} ItemsSubstituted(fs: Files, base: string, items: seq<Yaml>)
    requires ResolveItems(fs, base, items, []).Ok?
    ensures var r := ResolveItems(fs, base, items, []).value;
            |r| == |items| && forall i | 0 <= i < |items| :: Substituted(fs, base, items[i], r[i]) && TagFree(r[i])
    decreases items
  {
    if items != [] {
      ResolvedIsSubstituted(fs, base, items[0]);
      ItemsSubstituted(fs, base, items[1..]);
      assert forall i | 0 < i < |items| :: items[i] == items[1..][i - 1];
    }
  }

  lemma {:induction false} EntriesSubstituted(fs: Files, base: string, entries: seq<Entry>)
    requires ResolveEntries(fs, base, entries, []).Ok?
    ensures var r := ResolveEntries(fs, base, entries, []).value;
            |r| == |entries|
            && forall i | 0 <= i < |entries| ::
                 && r[i].key == entries[i].key
                 && Substituted(fs, base, entries[i].value, r[i].value) && TagFree(r[i].value)
    decreases entries
  {
    if entries != [] {
      assert entries[0].value < entries[0];
      ResolvedIsSubstituted(fs, base, entries[0].value);
      EntriesSubstituted(fs, base, entries[1..]);
      assert forall i | 0 < i < |entries| :: entries[i] == entries[1..][i - 1];
    }
  }

  /** A document without tags comes out as it went in, so resolving twice is resolving once. */
  lemma {:induction false} TagFreeIsUnchanged(fs: Files, base: string, v: Yaml, stack: seq<string>)
    requires TagFree(v)
    ensures Resolve(fs, base, v, stack) == Ok(v)
    decreases v
  {
    match v
    case Mapping(entries) => EntriesUnchanged(fs, base, entries, stack);
    case Sequence(items) => ItemsUnchanged(fs, base, items, stack);
    case _ =>
  }

  lemma {:induction false} ItemsUnchanged(fs: Files, base: string, items: seq<Yaml>, stack: seq<string>)
    requires forall i | 0 <= i < |items| :: TagFree(items[i])
    ensures ResolveItems(fs, base, items, stack) == Ok(items)
    decreases items
  {
    if items != [] {
      TagFreeIsUnchanged(fs, base, items[0], stack);
      ItemsUnchanged(fs, base, items[1..], stack);
      assert items == [items[0]] + items[1..];
    }
  }

  lemma {:induction false} EntriesUnchanged(fs: Files, base: string, entries: seq<Entry>, stack: seq<string>)
    requires forall i | 0 <= i < |entries| :: TagFree(entries[i].value)
    ensures ResolveEntries(fs, base, entries, stack) == Ok(entries)
    decreases entries
  {
    if entries != [] {
      assert entries[0].value < entries[0];
      TagFreeIsUnchanged(fs, base, entries[0].value, stack);
      EntriesUnchanged(fs, base, entries[1..], stack);
      assert entries == [entries[0]] + entries[1..];
    }
  }

  lemma ResolvingTwiceIsResolvingOnce(fs: Files, base: string, v: Yaml, elsewhere: string)
    requires Resolve(fs, base, v, []).Ok?
    ensures var w := Resolve(fs, base, v, []).value; Resolve(fs, elsewhere, w, []) == Ok(w)
  {
    ResolvedIsSubstituted(fs, base, v);
    TagFreeIsUnchanged(fs, elsewhere, Resolve(fs, base, v, []).value, []);
  }

  // ---- the code ----

  /** Walks the document with one shared stack, which it leaves as it found it. */
  method ResolveValue(fs: Files, base: string, v: Yaml, stack: PathStack) returns (r: Result<Yaml, DocumentError>)
    modifies stack
    ensures stack.items == old(stack.items)
    ensures r == Resolve(fs, base, v, old(stack.items))
    decreases v
  {
    match v {
      case Tagged(tag, value) =>
        if tag != INCLUDE_TAG {
          return Err(UnsupportedTag(tag));
        }
        if !value.Text? {
          return Err(InvalidIncludeTarget);
        }
        var text := IncludeFile(fs, base, value.s, stack);
        match text {
          case Err(e) => return Err(IncludeFailed(e));
          case Ok(t) => return Ok(Text(t));
        }
      case Mapping(entries) =>
        var resolved: seq<Entry> := [];
        assert entries[0..] == entries;
        for i := 0 to |entries|
          invariant stack.items == old(stack.items)
          invariant ResolveEntries(fs, base, entries, stack.items)
                 == AfterEntries(resolved, ResolveEntries(fs, base, entries[i..], stack.items))
        {
          assert entries[i..][0] == entries[i] && entries[i..][1..] == entries[i + 1..];
          var value := ResolveValue(fs, base, entries[i].value, stack);
          match value {
            case Err(e) => return Err(e);
            case Ok(w) =>
              EntriesStep(resolved, Entry(entries[i].key, w), ResolveEntries(fs, base, entries[i + 1..], stack.items));
              resolved := resolved + [Entry(entries[i].key, w)];
          }
        }
        assert resolved + [] == resolved;
        return Ok(Mapping(resolved));
      case Sequence(items) =>
        var resolved: seq<Yaml> := [];
        assert items[0..] == items;
        for i := 0 to |items|
          invariant stack.items == old(stack.items)
          invariant ResolveItems(fs, base, items, stack.items)
                 == AfterItems(resolved, ResolveItems(fs, base, items[i..], stack.items))
        {
          assert items[i..][0] == items[i] && items[i..][1..] == items[i + 1..];
          var value := ResolveValue(fs, base, items[i], stack);
          match value {
            case Err(e) => return Err(e);
            case Ok(w) =>
              ItemsStep(resolved, w, ResolveItems(fs, base, items[i + 1..], stack.items));
              resolved := resolved + [w];
          }
        }
        assert resolved + [] == resolved;
        return Ok(Sequence(resolved));
      case _ => return Ok(v);
    }
  }

  ghost function AfterItems(done: seq<Yaml>, rest: Result<seq<Yaml>, DocumentError>)
    : (r: Result<seq<Yaml>, DocumentError>)
    ensures done == [] ==> r == rest
  {
    match rest
    case Ok(s) => assert done == [] ==> done + s == s; Ok(done + s)
    case Err(e) => Err(e)
  }

  lemma ItemsStep(done: seq<Yaml>, w: Yaml, rest: Result<seq<Yaml>, DocumentError>)
    ensures AfterItems(done, match rest case Ok(s) => Ok([w] + s) case Err(e) => Err(e)) == AfterItems(done + [w], rest)
  {
    if rest.Ok? {
      assert done + ([w] + rest.value) == (done + [w]) + rest.value;
    }
  }

  ghost function AfterEntries(done: seq<Entry>, rest: Result<seq<Entry>, DocumentError>)
    : (r: Result<seq<Entry>, DocumentError>)
    ensures done == [] ==> r == rest
  {
    match rest
    case Ok(s) => assert done == [] ==> done + s == s; Ok(done + s)
    case Err(e) => Err(e)
  }

  lemma EntriesStep(done: seq<Entry>, w: Entry, rest: Result<seq<Entry>, DocumentError>)
    ensures AfterEntries(done, match rest case Ok(s) => Ok([w] + s) case Err(e) => Err(e))
         == AfterEntries(done + [w], rest)
  {
    if rest.Ok? {
      assert done + ([w] + rest.value) == (done + [w]) + rest.value;
    }
  }
}
