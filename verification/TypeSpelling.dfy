/** The grammar of type declarations, said without the parser: what can be written for
    each type, and that this is exactly what the parser reads as it. */
module TypeSpelling {
  import opened Outcomes
  import opened Text
  import opened TypeGrammar

  /** `core` with white space around it. */
  ghost predicate Around(raw: string, core: string) {
    exists lead, tail :: Blank(lead) && Blank(tail) && raw == lead + core + tail
  }

  function Joined(parts: seq<string>): string
    requires parts != []
  {
    if |parts| == 1 then parts[0] else parts[0] + [','] + Joined(parts[1..])
  }

  /** The pieces are the variants in order, with white space around them, and blanks. */
  ghost predicate Lists(pieces: seq<string>, variants: seq<string>)
    decreases |pieces|
  {
    if pieces == [] then variants == []
    else if Blank(pieces[0]) then Lists(pieces[1..], variants)
    else variants != [] && VariantOk(variants[0]) && Around(pieces[0], variants[0]) && Lists(pieces[1..], variants[1..])
  }

  ghost predicate SpellsEnum(inner: string, variants: seq<string>) {
    exists pieces: seq<string> ::
      pieces != [] && (forall p | p in pieces :: ',' !in p) && inner == Joined(pieces) && Lists(pieces, variants)
  }

  /** `raw` is a way to write `t`: the name of a simple type, at least one variant between
      commas in `enum[...]`, or a way to write the element type in `list[...]`, each with any
      white space around it. */
  ghost predicate Spells(raw: string, t: InputType)
    decreases t
  {
    match t
    case StringType => Around(raw, "string")
    case NumberType => Around(raw, "number")
    case BoolType => Around(raw, "bool")
    case DocumentType => Around(raw, "document")
    case EnumType(variants) =>
      variants != [] && exists inner :: SpellsEnum(inner, variants) && Around(raw, "enum[" + inner + "]")
    case ListType(of) => exists inner :: Spells(inner, of) && Around(raw, "list[" + inner + "]")
  }

  lemma TrimIff(raw: string, core: string)
    requires Trimmed(core)
    ensures Trim(raw) == core <==> Around(raw, core)
  {
    var lead, tail := TrimSplits(raw);
    if Around(raw, core) {
      var l, t :| Blank(l) && Blank(t) && raw == l + core + t;
      TrimStrips(l, core, t);
    }
  }

  lemma BlankIff(s: string)
    ensures Blank(s) <==> Trim(s) == ""
  {
    var lead, tail := TrimSplits(s);
    if Blank(s) {
      assert s == s + "" + "";
      TrimStrips(s, "", "");
    }
  }

  lemma {:induction false} SplitKeeps(s: string)
    ensures Joined(Split(s, ',')) == s
    decreases |s|
  {
    var i := Find(s, ',');
    if i < |s| {
      SplitKeeps(s[i + 1..]);
      var rest := Split(s[i + 1..], ',');
      assert ([s[..i]] + rest)[1..] == rest;
      assert s == s[..i] + [','] + s[i + 1..];
    }
  }

  lemma {:induction false} JoinedSplits(parts: seq<string>)
    requires parts != [] && forall p | p in parts :: ',' !in p
    ensures Split(Joined(parts), ',') == parts
  {
    if |parts| > 1 {
      JoinedSplits(parts[1..]);
      SplitOneMore(parts[0], Joined(parts[1..]));
    } else {
      assert parts == [parts[0]] && parts[0] in parts;
      assert forall k | 0 <= k < |parts[0]| :: parts[0][k] != ',';
    }
  }

  lemma {:induction false} VariantsIff(pieces: seq<string>, variants: seq<string>)
    requires forall p | p in pieces :: ',' !in p
    ensures Variants(pieces) == variants <==> Lists(pieces, variants)
    decreases |pieces|
  {
    if pieces != [] {
      var p, rest := pieces[0], pieces[1..];
      BlankIff(p);
      assert p in pieces;
      TrimNormalizes(p);
      TrimSubset(p);
      VariantsIff(rest, variants);
      if Trim(p) != "" {
        assert Variants(pieces) == [Trim(p)] + Variants(rest);
        if variants != [] {
          VariantsIff(rest, variants[1..]);
          assert variants == [variants[0]] + variants[1..];
          if Trimmed(variants[0]) {
            TrimIff(p, variants[0]);
          }
        }
      }
    }
  }

  lemma EnumIff(inner: string, variants: seq<string>)
    ensures Variants(Split(inner, ',')) == variants <==> SpellsEnum(inner, variants)
  {
    var pieces := Split(inner, ',');
    SplitKeeps(inner);
    SplitHasNoComma(inner, ',');
    VariantsIff(pieces, variants);
    hide Split, Joined, Lists, Variants;
    if SpellsEnum(inner, variants) {
      var ps: seq<string> :|
        ps != [] && (forall p | p in ps :: ',' !in p) && inner == Joined(ps) && Lists(ps, variants);
      JoinedSplits(ps);
    }
  }

  /** The name in brackets is trimmed, so white space around it is all that trimming removes. */
  lemma BracketIff(raw: string, prefix: string, inner: string)
    requires prefix == "enum[" || prefix == "list["
    ensures Trimmed(prefix + inner + "]")
    ensures StripWrapper(Trim(raw), prefix) == Some(inner) <==> Around(raw, prefix + inner + "]")
  {
    var core := prefix + inner + "]";
    assert core[0] == prefix[0] && core[|core| - 1] == ']';
    TrimIff(raw, core);
    WrapperStrips(prefix, inner);
  }

  /** A simple name is neither bracketed nor another simple name. */
  lemma NamesIff(raw: string)
    ensures ParseInputType(raw) == Some(StringType) <==> Around(raw, "string")
    ensures ParseInputType(raw) == Some(NumberType) <==> Around(raw, "number")
    ensures ParseInputType(raw) == Some(BoolType) <==> Around(raw, "bool")
    ensures ParseInputType(raw) == Some(DocumentType) <==> Around(raw, "document")
  {
    TrimIff(raw, "string");
    TrimIff(raw, "number");
    TrimIff(raw, "bool");
    TrimIff(raw, "document");
    hide Around;
  }

  lemma EnumParses(raw: string, variants: seq<string>)
    ensures ParseInputType(raw) == Some(EnumType(variants)) <==> Spells(raw, EnumType(variants))
  {
    var stripped := StripWrapper(Trim(raw), "enum[");
    if stripped.Some? {
      EnumIff(stripped.value, variants);
      BracketIff(raw, "enum[", stripped.value);
      assert Trim(raw)[0] == 'e';
    }
    hide Around, SpellsEnum, Split, Variants;
    forall inner | Around(raw, "enum[" + inner + "]")
      ensures stripped == Some(inner)
    {
      BracketIff(raw, "enum[", inner);
    }
  }

  lemma ListParses(raw: string, of: InputType)
    requires var stripped := StripWrapper(Trim(raw), "list[");
             stripped.Some? ==> (ParseInputType(stripped.value) == Some(of) <==> Spells(stripped.value, of))
    ensures ParseInputType(raw) == Some(ListType(of)) <==> Spells(raw, ListType(of))
  {
    var stripped := StripWrapper(Trim(raw), "list[");
    ListReads(raw);
    if stripped.Some? {
      BracketIff(raw, "list[", stripped.value);
    }
    hide Around, ParseInputType, StripWrapper, Trim;
    forall inner | Around(raw, "list[" + inner + "]")
      ensures stripped == Some(inner)
    {
      BracketIff(raw, "list[", inner);
    }
  }

  lemma ListReads(raw: string)
    ensures forall of ::
              ParseInputType(raw) == Some(ListType(of))
              <==> var stripped := StripWrapper(Trim(raw), "list[");
                   stripped.Some? && ParseInputType(stripped.value) == Some(of)
  {
    var stripped := StripWrapper(Trim(raw), "list[");
    assert stripped.Some? ==> Trim(raw)[0] == 'l';
    hide Trim, Split, Variants;
  }

  /** The parser reads a text as a type exactly if it is a way to write it, and refuses
      every other text. */
  lemma {:induction false} ParsesIff(raw: string, t: InputType)
    ensures ParseInputType(raw) == Some(t) <==> Spells(raw, t)
    decreases t
  {
    match t
    case EnumType(variants) => EnumParses(raw, variants);
    case ListType(of) =>
      var stripped := StripWrapper(Trim(raw), "list[");
      hide *;
      if stripped.Some? {
        ParsesIff(stripped.value, of);
      }
      ListParses(raw, of);
    case _ => NamesIff(raw);
  }
}
