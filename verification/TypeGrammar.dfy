/** The `inputs:` type grammar: a parser and a printer that are inverse on what the
    parser can produce. */
module TypeGrammar {
  import opened Outcomes
  import opened Text

  datatype InputType =
    | StringType
    | NumberType
    | BoolType
    | DocumentType
    | EnumType(variants: seq<string>)
    | ListType(of: InputType)

  function StripWrapper(s: string, prefix: string): (inner: Option<string>)
    requires prefix != "" && prefix[|prefix| - 1] == '['
    ensures inner.Some? ==> |inner.value| < |s| && s == prefix + inner.value + "]"
  {
    if prefix <= s && s[|s| - 1] == ']' then Some(s[|prefix|..|s| - 1]) else None
  }

  /** The trimmed, non-empty pieces, in order. */
  function Variants(pieces: seq<string>): seq<string> {
    if pieces == [] then []
    else (if Trim(pieces[0]) == "" then [] else [Trim(pieces[0])]) + Variants(pieces[1..])
  }

  function ParseInputType(raw: string): Option<InputType>
    decreases |raw|
  {
    TrimShrinks(raw);
    var s := Trim(raw);
    if s == "string" then Some(StringType)
    else if s == "number" then Some(NumberType)
    else if s == "bool" then Some(BoolType)
    else if s == "document" then Some(DocumentType)
    else
      match StripWrapper(s, "enum[")
      case Some(inner) =>
        var variants := Variants(Split(inner, ','));
        if variants == [] then None else Some(EnumType(variants))
      case None =>
        match StripWrapper(s, "list[")
        case None => None
        case Some(inner) =>
          match ParseInputType(inner)
          case Some(of) => Some(ListType(of))
          case None => None
  }

  function JoinComma(variants: seq<string>): string {
    if variants == [] then ""
    else if |variants| == 1 then variants[0]
    else variants[0] + ", " + JoinComma(variants[1..])
  }

  function TypeName(t: InputType): string {
    match t
    case StringType => "string"
    case NumberType => "number"
    case BoolType => "bool"
    case DocumentType => "document"
    case EnumType(variants) => "enum[" + JoinComma(variants) + "]"
    case ListType(of) => "list[" + TypeName(of) + "]"
  }

  predicate VariantOk(v: string) {
    v != "" && Trimmed(v) && ',' !in v
  }

  /** The types the grammar can spell. */
  predicate Spellable(t: InputType) {
    match t
    case EnumType(variants) => variants != [] && forall v | v in variants :: VariantOk(v)
    case ListType(of) => Spellable(of)
    case _ => true
  }

  lemma {:induction false} TrimShrinks(s: string)
    ensures |Trim(s)| <= |s|
  {
    TrimStartShrinks(s);
    TrimEndKeepsStart(TrimStart(s));
  }

  lemma {:induction false} TrimStartShrinks(s: string)
    ensures |TrimStart(s)| <= |s|
  {
    if s != "" && IsWhite(s[0]) {
      TrimStartShrinks(s[1..]);
    }
  }

  // ---- printing then parsing ----

  /** A leading blank before a trimmed text is all that trimming removes. */
  lemma TrimBlank(v: string)
    requires Trimmed(v)
    ensures Trim(" " + v) == v && Trim(v) == v
  {
    assert (" " + v)[1..] == v;
    TrimNormalizes(v);
  }

  lemma SplitOneMore(head: string, tail: string)
    requires ',' !in head
    ensures Split(head + [','] + tail, ',') == [head] + Split(tail, ',')
  {
    var whole := head + [','] + tail;
    FindSkips(head, tail, ',');
    assert whole[..|head|] == head && whole[|head| + 1..] == tail;
  }

  lemma VariantsOneMore(lead: string, v: string, pieces: seq<string>)
    requires VariantOk(v) && (lead == "" || lead == " ")
    ensures Variants([lead + v] + pieces) == [v] + Variants(pieces)
  {
    TrimBlank(v);
    assert lead + v == v || lead + v == " " + v;
    assert ([lead + v] + pieces)[1..] == pieces;
  }

  lemma SplitLast(lead: string, v: string)
    requires VariantOk(v) && (lead == "" || lead == " ")
    ensures Variants(Split(lead + v, ',')) == [v]
  {
    VariantsOneMore(lead, v, []);
    assert [lead + v] + [] == [lead + v];
  }

  /** Splitting a joined list gives back the variants, each but the first after a blank. */
  lemma {:induction false} SplitJoined(variants: seq<string>, lead: string)
    requires variants != [] && forall v | v in variants :: VariantOk(v)
    requires lead == "" || lead == " "
    ensures Variants(Split(lead + JoinComma(variants), ',')) == variants
    decreases |variants|
  {
    hide Split, Variants, Trimmed;
    var v, rest := variants[0], variants[1..];
    assert VariantOk(v);
    if |variants| == 1 {
      SplitLast(lead, v);
    } else {
      var tail := " " + JoinComma(rest);
      assert lead + JoinComma(variants) == (lead + v) + [','] + tail;
      SplitOneMore(lead + v, tail);
      VariantsOneMore(lead, v, Split(tail, ','));
      SplitJoined(rest, " ");
    }
  }

  lemma WrapperStrips(prefix: string, inner: string)
    requires prefix != "" && prefix[|prefix| - 1] == '['
    ensures StripWrapper(prefix + inner + "]", prefix) == Some(inner)
  {
    var s := prefix + inner + "]";
    assert s[..|prefix|] == prefix;
    assert s[|prefix|..|s| - 1] == inner;
  }

  /** Names start with a letter and end with a letter or a bracket. */
  lemma NameIsTrimmed(t: InputType)
    ensures Trim(TypeName(t)) == TypeName(t)
  {
    var s := TypeName(t);
    assert Trimmed(s) by {
      if t.EnumType? {
        assert s[0] == 'e' && s[|s| - 1] == ']';
      } else if t.ListType? {
        assert s[0] == 'l' && s[|s| - 1] == ']';
      }
    }
    TrimNormalizes(s);
  }

  /** Every spellable type survives printing and parsing. */
  lemma {:induction false} PrintThenParse(t: InputType)
    requires Spellable(t)
    ensures ParseInputType(TypeName(t)) == Some(t)
  {
    NameIsTrimmed(t);
    var s := TypeName(t);
    match t
    case EnumType(variants) =>
      assert s[0] == 'e';
      WrapperStrips("enum[", JoinComma(variants));
      assert "" + JoinComma(variants) == JoinComma(variants);
      SplitJoined(variants, "");
    case ListType(of) =>
      assert s[0] == 'l' && s[|s| - 1] == ']';
      WrapperStrips("list[", TypeName(of));
      PrintThenParse(of);
    case _ =>
  }

  // ---- parsing then printing ----

  lemma {:induction false} SplitHasNoComma(s: string, c: char)
    ensures forall p | p in Split(s, c) :: c !in p
    decreases |s|
  {
    var i := Find(s, c);
    if i < |s| {
      SplitHasNoComma(s[i + 1..], c);
    }
  }

  lemma {:induction false} VariantsAreOk(pieces: seq<string>)
    requires forall p | p in pieces :: ',' !in p
    ensures forall v | v in Variants(pieces) :: VariantOk(v)
  {
    if pieces != [] {
      assert pieces[0] in pieces;
      TrimNormalizes(pieces[0]);
      TrimSubset(pieces[0]);
      VariantsAreOk(pieces[1..]);
    }
  }

  /** Whatever parses is spellable. */
  lemma {:induction false} ParsedIsSpellable(raw: string)
    ensures ParseInputType(raw).Some? ==> Spellable(ParseInputType(raw).value)
    decreases |raw|
  {
    TrimShrinks(raw);
    var s := Trim(raw);
    var enums, lists := StripWrapper(s, "enum["), StripWrapper(s, "list[");
    if enums.Some? {
      SplitHasNoComma(enums.value, ',');
      VariantsAreOk(Split(enums.value, ','));
    } else if lists.Some? {
      ParsedIsSpellable(lists.value);
    }
  }

  /** Print-then-parse normalizes a spelling once and is then stable; and two spellings
      with the same normal form mean the same type. */
  lemma ParseNormalizes(raw: string)
    requires ParseInputType(raw).Some?
    ensures ParseInputType(TypeName(ParseInputType(raw).value)) == ParseInputType(raw)
  {
    ParsedIsSpellable(raw);
    PrintThenParse(ParseInputType(raw).value);
  }

  lemma NamesAreInjective(t: InputType, u: InputType)
    requires Spellable(t) && Spellable(u) && TypeName(t) == TypeName(u)
    ensures t == u
  {
    PrintThenParse(t);
    PrintThenParse(u);
  }

  /** Exactly the spellable types round-trip. */
  lemma RoundTripIffSpellable(t: InputType)
    ensures ParseInputType(TypeName(t)) == Some(t) <==> Spellable(t)
  {
    if ParseInputType(TypeName(t)) == Some(t) {
      ParsedIsSpellable(TypeName(t));
    }
    if Spellable(t) {
      PrintThenParse(t);
    }
  }
}
