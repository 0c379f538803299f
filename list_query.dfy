/** The `list` statement every repository builds with sqlx's `QueryBuilder`:
    a fixed head, then `WHERE` comparisons joined by `AND` (one bound value
    each), then `ORDER BY` items joined by commas, then the paging tail
    `LIMIT $a OFFSET ($b * ($c - 1))`.

    A repository turns each of its filters into a `Clause` (the column text,
    the operator's SQL symbol and the value to bind) and each of its orders
    into a `Sort`; the loops of `PushWhere` and `PushOrderBy` are the loops of
    the repositories' `list` functions. */
module ListQuery {
  import opened Text
  import opened RustInt
  import opened Vocabulary
  import opened SqlBuilder

  /** One comparison: `column symbol $n`, with `value` bound to `$n`. */
  datatype Clause = Clause(column: string, symbol: string, value: Value)

  /** One sort item: `column ASC` or `column DESC`. */
  datatype Sort = Sort(column: string, dir: OrderOp)

  /** The parts one after another, `separator` between neighbours, as a
      `Separated` produces them from `push` calls. */
  function Joined(separator: string, parts: seq<seq<Fragment>>): seq<Fragment>
    decreases |parts|
  {
    if |parts| == 0 then []
    else (Joined(separator, parts[..|parts| - 1])
      + (if |parts| > 1 then [Lit(separator)] else [])
      + parts[|parts| - 1])
  }

  /** A separated section: nothing when there are no parts, otherwise the
      lead keyword and the joined parts. */
  function Section(lead: string, separator: string, parts: seq<seq<Fragment>>): seq<Fragment> {
    if |parts| == 0 then [] else [Lit(lead)] + Joined(separator, parts)
  }

  /** `push("col ")`, `push_unseparated(op + " ")`, `push_bind_unseparated(v)`. */
  function ClauseFragments(c: Clause, n: nat): seq<Fragment> {
    [Lit(c.column + " "), Lit(c.symbol + " "), Param(n)]
  }

  /** The clauses' fragments, their placeholders numbered from `first`. */
  function ClauseParts(cs: seq<Clause>, first: nat): (r: seq<seq<Fragment>>)
    ensures |r| == |cs|
  {
    seq(|cs|, i requires 0 <= i < |cs| => ClauseFragments(cs[i], first + i))
  }

  /** The values the clauses bind, in order. */
  function ClauseValues(cs: seq<Clause>): (r: seq<Value>)
    ensures |r| == |cs|
    decreases |cs|
  {
    if |cs| == 0 then [] else ClauseValues(cs[..|cs| - 1]) + [cs[|cs| - 1].value]
  }

  /** `push("col ")`, `push_unseparated(op.to_string())`. */
  function SortFragments(s: Sort): seq<Fragment> {
    [Lit(s.column + " "), Lit(OrderOpDisplay(s.dir))]
  }

  function SortParts(ss: seq<Sort>): (r: seq<seq<Fragment>>)
    ensures |r| == |ss|
  {
    seq(|ss|, i requires 0 <= i < |ss| => SortFragments(ss[i]))
  }

  /** The paging tail: page size, page size again, page number. */
  function PageFragments(first: nat): seq<Fragment> {
    [Lit(" LIMIT "), Param(first), Lit(" OFFSET ("), Param(first + 1),
     Lit(" * ("), Param(first + 2), Lit(" - 1))")]
  }

  function PageArgs(limit: i32, page: i32): seq<Value> {
    [Int4(limit), Int4(limit), Int4(page)]
  }

  /** The whole statement after a head that binds `k` values: `lead` is
      `" WHERE "`, or `" AND "` when the head already has a `WHERE`. */
  function ListFragments(head: seq<Fragment>, k: nat, lead: string, cs: seq<Clause>, ss: seq<Sort>): seq<Fragment> {
    head
      + Section(lead, " AND ", ClauseParts(cs, k + 1))
      + Section(" ORDER BY ", ", ", SortParts(ss))
      + PageFragments(k + |cs| + 1)
  }

  function ListArgs(headArgs: seq<Value>, cs: seq<Clause>, limit: i32, page: i32): seq<Value> {
    headArgs + ClauseValues(cs) + PageArgs(limit, page)
  }

  /** What a clause list contributes to the text: its columns and operator
      symbols, not its values. */
  function Shape(cs: seq<Clause>): (r: seq<(string, string)>)
    ensures |r| == |cs|
  {
    seq(|cs|, i requires 0 <= i < |cs| => (cs[i].column, cs[i].symbol))
  }

  /** The string a joined section spells. */
  function JoinText(separator: string, items: seq<string>): string
    decreases |items|
  {
    if |items| == 0 then ""
    else (JoinText(separator, items[..|items| - 1])
      + (if |items| > 1 then separator else "")
      + items[|items| - 1])
  }

  /** `col op $n`: how a clause reads, its value replaced by a placeholder. */
  function ClauseTexts(cs: seq<Clause>, first: nat): (r: seq<string>)
    ensures |r| == |cs|
  {
    seq(|cs|, i requires 0 <= i < |cs| => cs[i].column + " " + cs[i].symbol + " " + Placeholder(first + i))
  }

  /** `col ASC` / `col DESC`. */
  function SortTexts(ss: seq<Sort>): (r: seq<string>)
    ensures |r| == |ss|
  {
    seq(|ss|, i requires 0 <= i < |ss| => ss[i].column + " " + OrderOpDisplay(ss[i].dir))
  }

  lemma Joined1(separator: string, parts: seq<seq<Fragment>>, i: nat)
    requires i < |parts|
    ensures Joined(separator, parts[..i + 1])
      == Joined(separator, parts[..i]) + (if i > 0 then [Lit(separator)] else []) + parts[i]
  {
    assert parts[..i + 1][..i] == parts[..i];
  }

  /** One more part on a growing section. */
  lemma JoinedStep(start: seq<Fragment>, separator: string, parts: seq<seq<Fragment>>, i: nat)
    requires i < |parts|
    ensures start + Joined(separator, parts[..i]) + ((if i > 0 then [Lit(separator)] else []) + parts[i])
      == start + Joined(separator, parts[..i + 1])
  {
    var sep: seq<Fragment> := if i > 0 then [Lit(separator)] else [];
    Joined1(separator, parts, i);
    ConcatAssoc(start, Joined(separator, parts[..i]), sep + parts[i]);
    ConcatAssoc(Joined(separator, parts[..i]), sep, parts[i]);
  }

  /** One more value on the clause values. */
  lemma ValuesStep(start: seq<Value>, cs: seq<Clause>, i: nat)
    requires i < |cs|
    ensures start + ClauseValues(cs[..i]) + [cs[i].value] == start + ClauseValues(cs[..i + 1])
  {
    assert cs[..i + 1][..i] == cs[..i];
    ConcatAssoc(start, ClauseValues(cs[..i]), [cs[i].value]);
  }

  /** The text of each part. */
  function PartTexts(parts: seq<seq<Fragment>>): (r: seq<string>)
    ensures |r| == |parts|
  {
    seq(|parts|, i requires 0 <= i < |parts| => Render(parts[i]))
  }

  /** The text of joined parts is the text of each part, joined. */
  lemma {:induction false} RenderJoined(separator: string, parts: seq<seq<Fragment>>)
    ensures Render(Joined(separator, parts)) == JoinText(separator, PartTexts(parts))
    decreases |parts|
  {
    if |parts| > 0 {
      var init, last := parts[..|parts| - 1], parts[|parts| - 1];
      var sep: seq<Fragment> := if |parts| > 1 then [Lit(separator)] else [];
      var texts := PartTexts(parts);
      RenderJoined(separator, init);
      assert texts[..|texts| - 1] == PartTexts(init);
      RenderOne(Lit(separator));
      assert Render(sep) == if |parts| > 1 then separator else "";
      RenderAppend(Joined(separator, init) + sep, last);
      RenderAppend(Joined(separator, init), sep);
    }
  }

  /** The placeholders of joined parts that each hold one, numbered on from
      `first`, are `first, first + 1, ...`. */
  lemma {:induction false} JoinedParams(separator: string, parts: seq<seq<Fragment>>, first: nat)
    requires forall i :: 0 <= i < |parts| ==> Params(parts[i]) == [first + i]
    ensures Params(Joined(separator, parts)) == Range(first, |parts|)
    decreases |parts|
  {
    if |parts| > 0 {
      var init, last := parts[..|parts| - 1], parts[|parts| - 1];
      var sep: seq<Fragment> := if |parts| > 1 then [Lit(separator)] else [];
      JoinedParams(separator, init, first);
      RenderOne(Lit(separator));
      assert Params(sep) == [];
      ParamsAppend(Joined(separator, init) + sep, last);
      ParamsAppend(Joined(separator, init), sep);
      assert Params(Joined(separator, init) + sep) == Range(first, |init|);
      assert Range(first, |parts|) == Range(first, |init|) + [first + |init|];
    }
  }

  /** Joined parts without placeholders have none. */
  lemma {:induction false} JoinedNoParams(separator: string, parts: seq<seq<Fragment>>)
    requires forall i :: 0 <= i < |parts| ==> Params(parts[i]) == []
    ensures Params(Joined(separator, parts)) == []
    decreases |parts|
  {
    if |parts| > 0 {
      var init := parts[..|parts| - 1];
      var sep: seq<Fragment> := if |parts| > 1 then [Lit(separator)] else [];
      JoinedNoParams(separator, init);
      ParamsAppend(Joined(separator, init) + sep, parts[|parts| - 1]);
      ParamsAppend(Joined(separator, init), sep);
      RenderOne(Lit(separator));
    }
  }

  lemma ClauseParams(c: Clause, n: nat)
    ensures Params(ClauseFragments(c, n)) == [n]
    ensures Render(ClauseFragments(c, n)) == c.column + " " + c.symbol + " " + Placeholder(n)
  {
    var fs := ClauseFragments(c, n);
    assert fs == [Lit(c.column + " ")] + [Lit(c.symbol + " ")] + [Param(n)];
    RenderAppend([Lit(c.column + " ")] + [Lit(c.symbol + " ")], [Param(n)]);
    RenderAppend([Lit(c.column + " ")], [Lit(c.symbol + " ")]);
    ParamsAppend([Lit(c.column + " ")] + [Lit(c.symbol + " ")], [Param(n)]);
    ParamsAppend([Lit(c.column + " ")], [Lit(c.symbol + " ")]);
    RenderOne(Lit(c.column + " "));
    RenderOne(Lit(c.symbol + " "));
    RenderOne(Param(n));
  }

  lemma SortParams(s: Sort)
    ensures Params(SortFragments(s)) == []
    ensures Render(SortFragments(s)) == s.column + " " + OrderOpDisplay(s.dir)
  {
    assert SortFragments(s) == [Lit(s.column + " ")] + [Lit(OrderOpDisplay(s.dir))];
    RenderAppend([Lit(s.column + " ")], [Lit(OrderOpDisplay(s.dir))]);
    ParamsAppend([Lit(s.column + " ")], [Lit(OrderOpDisplay(s.dir))]);
    RenderOne(Lit(s.column + " "));
    RenderOne(Lit(OrderOpDisplay(s.dir)));
  }

  lemma PageParams(first: nat)
    ensures Params(PageFragments(first)) == [first, first + 1, first + 2]
    ensures Render(PageFragments(first)) == " LIMIT " + Placeholder(first) + " OFFSET ("
      + Placeholder(first + 1) + " * (" + Placeholder(first + 2) + " - 1))"
  {
    var p1: seq<Fragment> := [Lit(" LIMIT ")];
    var p2 := p1 + [Param(first)];
    var p3 := p2 + [Lit(" OFFSET (")];
    var p4 := p3 + [Param(first + 1)];
    var p5 := p4 + [Lit(" * (")];
    var p6 := p5 + [Param(first + 2)];
    var p7 := p6 + [Lit(" - 1))")];
    assert p7 == PageFragments(first);
    RenderOne(Lit(" LIMIT "));
    RenderSnoc(p1, Param(first));
    RenderSnoc(p2, Lit(" OFFSET ("));
    RenderSnoc(p3, Param(first + 1));
    RenderSnoc(p4, Lit(" * ("));
    RenderSnoc(p5, Param(first + 2));
    RenderSnoc(p6, Lit(" - 1))"));
  }

  /** Each clause's fragments read `col op $n` and hold the one placeholder
      `$n`. */
  lemma ClausePartsFacts(cs: seq<Clause>, first: nat)
    ensures forall i :: 0 <= i < |cs| ==> Params(ClauseParts(cs, first)[i]) == [first + i]
    ensures forall i :: 0 <= i < |cs| ==> Render(ClauseParts(cs, first)[i]) == ClauseTexts(cs, first)[i]
  {
    forall i | 0 <= i < |cs|
      ensures Params(ClauseParts(cs, first)[i]) == [first + i]
      ensures Render(ClauseParts(cs, first)[i]) == ClauseTexts(cs, first)[i]
    {
      ClauseParams(cs[i], first + i);
    }
  }

  /** Each sort item reads `col DIR` and holds no placeholder. */
  lemma SortPartsFacts(ss: seq<Sort>)
    ensures forall i :: 0 <= i < |ss| ==> Params(SortParts(ss)[i]) == []
    ensures forall i :: 0 <= i < |ss| ==> Render(SortParts(ss)[i]) == SortTexts(ss)[i]
  {
    forall i | 0 <= i < |ss|
      ensures Params(SortParts(ss)[i]) == []
      ensures Render(SortParts(ss)[i]) == SortTexts(ss)[i]
    {
      SortParams(ss[i]);
    }
  }

  /** The `WHERE` section's placeholders are `first, first + 1, ...`, one per
      clause. */
  lemma WhereParams(lead: string, cs: seq<Clause>, first: nat)
    ensures Params(Section(lead, " AND ", ClauseParts(cs, first))) == Range(first, |cs|)
  {
    if |cs| > 0 {
      var cp := ClauseParts(cs, first);
      ClausePartsFacts(cs, first);
      JoinedParams(" AND ", cp, first);
      ParamsAppend([Lit(lead)], Joined(" AND ", cp));
      RenderOne(Lit(lead));
    }
  }

  /** The `ORDER BY` section binds nothing. */
  lemma OrderParams(ss: seq<Sort>)
    ensures Params(Section(" ORDER BY ", ", ", SortParts(ss))) == []
  {
    if |ss| > 0 {
      var sp := SortParts(ss);
      SortPartsFacts(ss);
      JoinedNoParams(", ", sp);
      ParamsAppend([Lit(" ORDER BY ")], Joined(", ", sp));
      RenderOne(Lit(" ORDER BY "));
    }
  }

  lemma IotaSplit(k: nat, m: nat)
    ensures Iota(k + m + 3) == Iota(k) + Range(k + 1, m) + [k + m + 1, k + m + 2, k + m + 3]
  {
    RangeAppend(1, k, m);
    RangeAppend(1, k + m, 3);
    assert Range(k + m + 1, 3) == [k + m + 1, k + m + 2, k + m + 3] by {
      assert Range(k + m + 1, 1) == [k + m + 1];
      assert Range(k + m + 1, 2) == [k + m + 1, k + m + 2];
    }
  }

  lemma NumberedOf(fs: seq<Fragment>, fs': seq<Fragment>, args: seq<Value>)
    requires fs == fs' && Params(fs') == Iota(|args|)
    ensures Numbered(fs, args)
  {
  }

  /** Numbering of the four parts of a `list` statement, put together. */
  lemma ListParamsJoin(head: seq<Fragment>, w: seq<Fragment>, o: seq<Fragment>, p: seq<Fragment>, k: nat, m: nat)
    requires Params(head) == Iota(k) && Params(w) == Range(k + 1, m)
    requires Params(o) == [] && Params(p) == [k + m + 1, k + m + 2, k + m + 3]
    ensures Params(head + w + o + p) == Iota(k + m + 3)
  {
    ParamsAppend(head + w + o, p);
    ParamsAppend(head + w, o);
    ParamsAppend(head, w);
    IotaSplit(k, m);
  }

  /** The statement's placeholders are `$1 .. $n` in order, one for each
      bound value: `k` in the head, one per clause, three for paging. */
  lemma ListNumbered(head: seq<Fragment>, headArgs: seq<Value>, lead: string, cs: seq<Clause>, ss: seq<Sort>, limit: i32, page: i32)
    requires Numbered(head, headArgs)
    ensures Numbered(ListFragments(head, |headArgs|, lead, cs, ss), ListArgs(headArgs, cs, limit, page))
  {
    var k, m := |headArgs|, |cs|;
    var w := Section(lead, " AND ", ClauseParts(cs, k + 1));
    var o := Section(" ORDER BY ", ", ", SortParts(ss));
    var p := PageFragments(k + m + 1);
    WhereParams(lead, cs, k + 1);
    OrderParams(ss);
    PageParams(k + m + 1);
    ListParamsJoin(head, w, o, p, k, m);
    NumberedOf(ListFragments(head, k, lead, cs, ss), head + w + o + p, ListArgs(headArgs, cs, limit, page));
  }


  /** Bound values never reach the statement text: two clause lists with the
      same columns and operators give the same fragments, whatever values
      they bind. */
  lemma ValuesNotInText(head: seq<Fragment>, k: nat, lead: string, cs: seq<Clause>, cs': seq<Clause>, ss: seq<Sort>)
    requires Shape(cs) == Shape(cs')
    ensures ListFragments(head, k, lead, cs, ss) == ListFragments(head, k, lead, cs', ss)
  {
    var p, p' := ClauseParts(cs, k + 1), ClauseParts(cs', k + 1);
    assert |cs| == |Shape(cs)| == |cs'|;
    forall i | 0 <= i < |p|
      ensures p[i] == p'[i]
    {
      assert Shape(cs)[i] == Shape(cs')[i];
    }
    assert p == p';
  }

  /** The `WHERE` section reads `lead col1 op1 $n AND col2 op2 $n+1 ...`. */
  lemma WhereText(lead: string, cs: seq<Clause>, first: nat)
    requires |cs| > 0
    ensures Render(Section(lead, " AND ", ClauseParts(cs, first))) == lead + JoinText(" AND ", ClauseTexts(cs, first))
  {
    var parts := ClauseParts(cs, first);
    RenderAppend([Lit(lead)], Joined(" AND ", parts));
    RenderOne(Lit(lead));
    RenderJoined(" AND ", parts);
    ClausePartsFacts(cs, first);
    assert PartTexts(parts) == ClauseTexts(cs, first);
  }

  /** The `ORDER BY` section reads `ORDER BY col1 DIR1, col2 DIR2 ...`. */
  lemma OrderText(ss: seq<Sort>)
    requires |ss| > 0
    ensures Render(Section(" ORDER BY ", ", ", SortParts(ss))) == " ORDER BY " + JoinText(", ", SortTexts(ss))
  {
    var parts := SortParts(ss);
    RenderAppend([Lit(" ORDER BY ")], Joined(", ", parts));
    RenderOne(Lit(" ORDER BY "));
    RenderJoined(", ", parts);
    SortPartsFacts(ss);
    assert PartTexts(parts) == SortTexts(ss);
  }

  /** `lead` and the items joined by `separator`; nothing without items. */
  function SectionText(lead: string, separator: string, items: seq<string>): string {
    if |items| == 0 then "" else lead + JoinText(separator, items)
  }

  /** `LIMIT $a OFFSET ($b * ($c - 1))` for a, b, c = first, first + 1, first + 2. */
  function PageText(first: nat): string {
    " LIMIT " + Placeholder(first) + " OFFSET (" + Placeholder(first + 1)
      + " * (" + Placeholder(first + 2) + " - 1))"
  }

  lemma WhereSectionText(lead: string, cs: seq<Clause>, first: nat)
    ensures Render(Section(lead, " AND ", ClauseParts(cs, first))) == SectionText(lead, " AND ", ClauseTexts(cs, first))
  {
    if |cs| > 0 {
      WhereText(lead, cs, first);
    }
  }

  lemma OrderSectionText(ss: seq<Sort>)
    ensures Render(Section(" ORDER BY ", ", ", SortParts(ss))) == SectionText(" ORDER BY ", ", ", SortTexts(ss))
  {
    if |ss| > 0 {
      OrderText(ss);
    }
  }

  /** The statement reads: the head, the `WHERE` section if there are
      clauses, the `ORDER BY` section if there are sort items, the paging
      tail. */
  lemma ListRendered(head: seq<Fragment>, k: nat, lead: string, cs: seq<Clause>, ss: seq<Sort>)
    ensures Render(ListFragments(head, k, lead, cs, ss))
      == Render(head) + SectionText(lead, " AND ", ClauseTexts(cs, k + 1))
        + SectionText(" ORDER BY ", ", ", SortTexts(ss)) + PageText(k + |cs| + 1)
  {
    var w := Section(lead, " AND ", ClauseParts(cs, k + 1));
    var o := Section(" ORDER BY ", ", ", SortParts(ss));
    var p := PageFragments(k + |cs| + 1);
    assert ListFragments(head, k, lead, cs, ss) == head + w + o + p;
    WhereSectionText(lead, cs, k + 1);
    OrderSectionText(ss);
    PageParams(k + |cs| + 1);
    RenderAppend(head + w + o, p);
    RenderAppend(head + w, o);
    RenderAppend(head, w);
  }

  /** The i-th clause binds the i-th value. */
  lemma {:induction false} ClauseValuesAt(cs: seq<Clause>, i: nat)
    requires i < |cs|
    ensures ClauseValues(cs)[i] == cs[i].value
    decreases |cs|
  {
    if i < |cs| - 1 {
      ClauseValuesAt(cs[..|cs| - 1], i);
    }
  }

  /** The binds of a `list` statement: the head's, then one per clause in
      order, then page size, page size, page number. */
  lemma ListArgsAt(headArgs: seq<Value>, cs: seq<Clause>, limit: i32, page: i32)
    ensures |ListArgs(headArgs, cs, limit, page)| == |headArgs| + |cs| + 3
    ensures ListArgs(headArgs, cs, limit, page)[..|headArgs|] == headArgs
    ensures forall i :: 0 <= i < |cs| ==> ListArgs(headArgs, cs, limit, page)[|headArgs| + i] == cs[i].value
    ensures ListArgs(headArgs, cs, limit, page)[|headArgs| + |cs|..] == [Int4(limit), Int4(limit), Int4(page)]
  {
    forall i | 0 <= i < |cs|
      ensures ListArgs(headArgs, cs, limit, page)[|headArgs| + i] == cs[i].value
    {
      ClauseValuesAt(cs, i);
    }
  }

  /** One filter of the loop: `push("col ")` (after the separator unless it
      is the first), `push_unseparated(op + " ")`, `push_bind_unseparated(v)`. */
  method PushClause(separated: Separated, c: Clause)
    modifies separated, separated.builder
    ensures separated.pushSeparator
    ensures separated.builder.fragments == old(separated.builder.fragments)
      + ((if old(separated.pushSeparator) then [Lit(separated.separator)] else [])
         + ClauseFragments(c, |old(separated.builder.args)| + 1))
    ensures separated.builder.args == old(separated.builder.args) + [c.value]
  {
    ghost var before := separated.builder.fragments;
    ghost var sep: seq<Fragment> := if separated.pushSeparator then [Lit(separated.separator)] else [];
    ghost var n := |separated.builder.args| + 1;
    separated.Push(c.column + " ");
    separated.PushUnseparated(c.symbol + " ");
    separated.PushBindUnseparated(c.value);
    assert separated.builder.fragments
      == before + sep + [Lit(c.column + " ")] + [Lit(c.symbol + " ")] + [Param(n)];
  }

  /** One order of the loop: `push("col ")` (after the separator unless it is
      the first), `push_unseparated(op.to_string())`. */
  method PushSort(separated: Separated, s: Sort)
    modifies separated, separated.builder
    ensures separated.pushSeparator
    ensures separated.builder.fragments == old(separated.builder.fragments)
      + ((if old(separated.pushSeparator) then [Lit(separated.separator)] else []) + SortFragments(s))
    ensures separated.builder.args == old(separated.builder.args)
  {
    ghost var before := separated.builder.fragments;
    ghost var sep: seq<Fragment> := if separated.pushSeparator then [Lit(separated.separator)] else [];
    separated.Push(s.column + " ");
    separated.PushUnseparated(OrderOpDisplay(s.dir));
    assert separated.builder.fragments
      == before + sep + [Lit(s.column + " ")] + [Lit(OrderOpDisplay(s.dir))];
  }

  /** The loop over the filters: each clause through `separated`, the first
      without a separator. */
  method PushClauses(separated: Separated, cs: seq<Clause>)
    requires !separated.pushSeparator
    modifies separated, separated.builder
    ensures separated.builder.fragments == old(separated.builder.fragments)
      + Joined(separated.separator, ClauseParts(cs, |old(separated.builder.args)| + 1))
    ensures separated.builder.args == old(separated.builder.args) + ClauseValues(cs)
  {
    var qb := separated.builder;
    var parts := ClauseParts(cs, |qb.args| + 1);
    ghost var start, startArgs := qb.fragments, qb.args;
    var i := 0;
    while i < |cs|
      invariant 0 <= i <= |cs|
      invariant separated.pushSeparator == (i > 0)
      invariant qb.fragments == start + Joined(separated.separator, parts[..i])
      invariant qb.args == startArgs + ClauseValues(cs[..i])
    {
      PushClause(separated, cs[i]);
      JoinedStep(start, separated.separator, parts, i);
      ValuesStep(startArgs, cs, i);
      i := i + 1;
    }
    assert parts[..|cs|] == parts;
    assert cs[..|cs|] == cs;
  }

  /** `if !filters.is_empty()`: the lead, then the clauses through a
      `Separated` on `" AND "`. */
  method PushWhere(qb: QueryBuilder, lead: string, cs: seq<Clause>)
    modifies qb
    ensures qb.fragments == old(qb.fragments) + Section(lead, " AND ", ClauseParts(cs, |old(qb.args)| + 1))
    ensures qb.args == old(qb.args) + ClauseValues(cs)
  {
    if |cs| > 0 {
      var separated := new Separated(qb, " AND ");
      separated.PushUnseparated(lead);
      PushClauses(separated, cs);
      ConcatAssoc(old(qb.fragments), [Lit(lead)], Joined(" AND ", ClauseParts(cs, |old(qb.args)| + 1)));
    } else {
      assert old(qb.fragments) + Section(lead, " AND ", ClauseParts(cs, |old(qb.args)| + 1)) == qb.fragments;
      assert ClauseValues(cs) == [];
    }
  }

  /** The loop over the orders: each item through `separated`, the first
      without a separator. */
  method PushSorts(separated: Separated, ss: seq<Sort>)
    requires !separated.pushSeparator
    modifies separated, separated.builder
    ensures separated.builder.fragments == old(separated.builder.fragments)
      + Joined(separated.separator, SortParts(ss))
    ensures separated.builder.args == old(separated.builder.args)
  {
    var qb := separated.builder;
    var parts := SortParts(ss);
    ghost var start := qb.fragments;
    var i := 0;
    while i < |ss|
      invariant 0 <= i <= |ss|
      invariant separated.pushSeparator == (i > 0)
      invariant qb.fragments == start + Joined(separated.separator, parts[..i])
      invariant qb.args == old(qb.args)
    {
      PushSort(separated, ss[i]);
      JoinedStep(start, separated.separator, parts, i);
      i := i + 1;
    }
    assert parts[..|ss|] == parts;
  }

  /** `if !order_by.is_empty()`: `" ORDER BY "`, then the items through a
      `Separated` on `", "`. */
  method PushOrderBy(qb: QueryBuilder, ss: seq<Sort>)
    modifies qb
    ensures qb.fragments == old(qb.fragments) + Section(" ORDER BY ", ", ", SortParts(ss))
    ensures qb.args == old(qb.args)
  {
    if |ss| > 0 {
      var separated := new Separated(qb, ", ");
      separated.PushUnseparated(" ORDER BY ");
      PushSorts(separated, ss);
      ConcatAssoc(old(qb.fragments), [Lit(" ORDER BY ")], Joined(", ", SortParts(ss)));
    } else {
      assert old(qb.fragments) + Section(" ORDER BY ", ", ", SortParts(ss)) == qb.fragments;
    }
  }

  /** The two paging pushes: page size twice, then the page number. */
  method PushPage(qb: QueryBuilder, limit: i32, page: i32)
    modifies qb
    ensures qb.fragments == old(qb.fragments) + PageFragments(|old(qb.args)| + 1)
    ensures qb.args == old(qb.args) + PageArgs(limit, page)
  {
    ghost var f0 := qb.fragments;
    ghost var n := |qb.args| + 1;
    qb.Push(" LIMIT ");
    qb.PushBind(Int4(limit));
    assert qb.fragments == f0 + [Lit(" LIMIT "), Param(n)];
    ghost var f1 := qb.fragments;
    qb.Push(" OFFSET (");
    qb.PushBind(Int4(limit));
    assert qb.fragments == f1 + [Lit(" OFFSET ("), Param(n + 1)];
    ghost var f2 := qb.fragments;
    qb.Push(" * (");
    qb.PushBind(Int4(page));
    qb.Push(" - 1))");
    assert qb.fragments == f2 + [Lit(" * ("), Param(n + 2), Lit(" - 1))")];
  }

  /** The three sections in order, after whatever head `qb` holds. */
  method PushListTail(qb: QueryBuilder, lead: string, cs: seq<Clause>, ss: seq<Sort>, limit: i32, page: i32)
    modifies qb
    ensures qb.fragments == ListFragments(old(qb.fragments), |old(qb.args)|, lead, cs, ss)
    ensures qb.args == ListArgs(old(qb.args), cs, limit, page)
  {
    PushWhere(qb, lead, cs);
    PushOrderBy(qb, ss);
    PushPage(qb, limit, page);
  }
}
