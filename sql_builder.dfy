/** sqlx's `QueryBuilder<Postgres>` and its `Separated` helper, as the
    repositories in src/infrastructure/src/db and src/infrastructure/db use
    them: a statement is grown by appending SQL text and binding values, and
    every bound value is referred to in the text by a `$n` placeholder.

    The builder's text is specified by the sequence of fragments it was built
    from: literal text, or the placeholder of the n-th bound value. */
module SqlBuilder {
  import opened Text
  import opened RustInt
  import opened Vocabulary

  /** A value bound to a placeholder, with the Postgres type the repository
      encodes it as. */
  datatype Value =
    | Int8(int8: i64)
    | Int4(int4: i32)
    | Str(str: string)
    | Time(time: Timestamp)
    | Enum(typeName: string, variant: string)

  /** A piece of statement text: a literal, or the placeholder `$index`. */
  datatype Fragment = Lit(text: string) | Param(index: nat)

  /** The Postgres placeholder for the n-th bound value. */
  function Placeholder(n: nat): string {
    "$" + NatToString(n)
  }

  function FragmentText(f: Fragment): string {
    match f
    case Lit(t) => t
    case Param(n) => Placeholder(n)
  }

  /** The text of the first n fragments. */
  function RenderUpTo(fs: seq<Fragment>, n: nat): string
    requires n <= |fs|
    decreases n
  {
    if n == 0 then "" else RenderUpTo(fs, n - 1) + FragmentText(fs[n - 1])
  }

  /** The statement text a sequence of fragments spells. */
  function Render(fs: seq<Fragment>): string {
    RenderUpTo(fs, |fs|)
  }

  /** The placeholder numbers among the first n fragments, in order. */
  function ParamsUpTo(fs: seq<Fragment>, n: nat): seq<nat>
    requires n <= |fs|
    decreases n
  {
    if n == 0 then [] else ParamsUpTo(fs, n - 1) + ParamOf(fs[n - 1])
  }

  function ParamOf(f: Fragment): seq<nat> {
    if f.Param? then [f.index] else []
  }

  /** The placeholder numbers, in the order they occur in the text. */
  function Params(fs: seq<Fragment>): seq<nat> {
    ParamsUpTo(fs, |fs|)
  }

  /** `first, first + 1, ..., first + k - 1`. */
  function Range(first: nat, k: nat): (r: seq<nat>)
    ensures |r| == k
    decreases k
  {
    if k == 0 then [] else Range(first, k - 1) + [first + k - 1]
  }

  /** `1, 2, ..., k`: the placeholders of k binds, numbered as sqlx numbers
      them. */
  function Iota(k: nat): (r: seq<nat>)
    ensures |r| == k
  {
    Range(1, k)
  }

  /** The i-th number of a range. */
  lemma {:induction false} RangeAt(first: nat, k: nat, i: nat)
    requires i < k
    ensures Range(first, k)[i] == first + i
    decreases k
  {
    if i < k - 1 {
      RangeAt(first, k - 1, i);
    }
  }

  /** A range splits into consecutive ranges. */
  lemma {:induction false} RangeAppend(first: nat, k: nat, m: nat)
    ensures Range(first, k + m) == Range(first, k) + Range(first + k, m)
    decreases m
  {
    if m > 0 {
      RangeAppend(first, k, m - 1);
      ConcatAssoc(Range(first, k), Range(first + k, m - 1), [first + k + m - 1]);
    }
  }

  lemma ConcatAssoc<T>(x: seq<T>, y: seq<T>, z: seq<T>)
    ensures (x + y) + z == x + (y + z)
  {
  }

  /** A prefix's text and placeholders do not depend on what follows it. */
  lemma {:induction false} UpToPrefix(a: seq<Fragment>, b: seq<Fragment>, n: nat)
    requires n <= |a|
    ensures RenderUpTo(a + b, n) == RenderUpTo(a, n)
    ensures ParamsUpTo(a + b, n) == ParamsUpTo(a, n)
    decreases n
  {
    if n > 0 {
      UpToPrefix(a, b, n - 1);
      assert (a + b)[n - 1] == a[n - 1];
    }
  }

  /** Appending one fragment appends its text and, for a placeholder, its
      number. */
  lemma RenderSnoc(fs: seq<Fragment>, f: Fragment)
    ensures Render(fs + [f]) == Render(fs) + FragmentText(f)
    ensures Params(fs + [f]) == Params(fs) + (if f.Param? then [f.index] else [])
  {
    UpToPrefix(fs, [f], |fs|);
    assert (fs + [f])[|fs|] == f;
  }

  /** The text of `a` followed by the first j fragments of `b`. */
  lemma {:induction false} RenderUpToAppend(a: seq<Fragment>, b: seq<Fragment>, j: nat)
    requires j <= |b|
    ensures RenderUpTo(a + b, |a| + j) == Render(a) + RenderUpTo(b, j)
    decreases j
  {
    if j == 0 {
      UpToPrefix(a, b, |a|);
    } else {
      RenderUpToAppend(a, b, j - 1);
      assert (a + b)[|a| + j - 1] == b[j - 1];
      ConcatAssoc(Render(a), RenderUpTo(b, j - 1), FragmentText(b[j - 1]));
    }
  }

  /** The placeholders of `a` followed by the first j fragments of `b`. */
  lemma {:induction false} ParamsUpToAppend(a: seq<Fragment>, b: seq<Fragment>, j: nat)
    requires j <= |b|
    ensures ParamsUpTo(a + b, |a| + j) == Params(a) + ParamsUpTo(b, j)
    decreases j
  {
    if j == 0 {
      UpToPrefix(a, b, |a|);
    } else {
      ParamsUpToAppend(a, b, j - 1);
      assert (a + b)[|a| + j - 1] == b[j - 1];
      ConcatAssoc(Params(a), ParamsUpTo(b, j - 1), ParamOf(b[j - 1]));
    }
  }

  /** The text of a concatenation is the concatenation of the texts. */
  lemma RenderAppend(a: seq<Fragment>, b: seq<Fragment>)
    ensures Render(a + b) == Render(a) + Render(b)
  {
    RenderUpToAppend(a, b, |b|);
  }

  /** The placeholders of a concatenation are those of each part, in order. */
  lemma ParamsAppend(a: seq<Fragment>, b: seq<Fragment>)
    ensures Params(a + b) == Params(a) + Params(b)
  {
    ParamsUpToAppend(a, b, |b|);
  }

  lemma RenderOne(f: Fragment)
    ensures Render([f]) == FragmentText(f)
    ensures Params([f]) == if f.Param? then [f.index] else []
  {
    RenderSnoc([], f);
    assert [] + [f] == [f];
  }

  /** A well-formed statement: its placeholders are `$1 .. $k` in order, one
      for each of its k bound values. */
  ghost predicate Numbered(fs: seq<Fragment>, args: seq<Value>) {
    Params(fs) == Iota(|args|)
  }

  /** Binding one more value after a well-formed statement and appending its
      placeholder keeps it well-formed; so does appending text. */
  lemma NumberedSnoc(fs: seq<Fragment>, args: seq<Value>, f: Fragment, v: Value)
    requires Numbered(fs, args)
    ensures f.Lit? ==> Numbered(fs + [f], args)
    ensures f == Param(|args| + 1) ==> Numbered(fs + [f], args + [v])
  {
    RenderSnoc(fs, f);
  }

  /** A statement ready to run: its text, as fragments, and its binds. */
  datatype Query = Query(fragments: seq<Fragment>, args: seq<Value>) {
    function Sql(): string {
      Render(fragments)
    }
  }

  /** A statement of fixed text with placeholders `$1 .. $n` in order:
      `lits[0] $1 lits[1] $2 ... $n lits[n]`, as the `query_as` literals
      with `.bind(..)` calls spell them. */
  function Template(lits: seq<string>): (r: seq<Fragment>)
    requires |lits| > 0
    ensures Params(r) == Iota(|lits| - 1)
    decreases |lits|
  {
    if |lits| == 1 then
      RenderOne(Lit(lits[0]));
      [Lit(lits[0])]
    else
      var init := Template(lits[..|lits| - 1]);
      var n := |lits| - 1;
      RenderSnoc(init, Param(n));
      RenderSnoc(init + [Param(n)], Lit(lits[n]));
      init + [Param(n)] + [Lit(lits[n])]
  }

  /** The text of a fixed statement: each literal, then the next
      placeholder. */
  function TemplateText(lits: seq<string>): string
    requires |lits| > 0
    decreases |lits|
  {
    if |lits| == 1 then lits[0]
    else TemplateText(lits[..|lits| - 1]) + Placeholder(|lits| - 1) + lits[|lits| - 1]
  }

  /** One more literal after one more placeholder. */
  lemma TemplateTextSnoc(lits: seq<string>, x: string)
    requires |lits| > 0
    ensures TemplateText(lits + [x]) == TemplateText(lits) + Placeholder(|lits|) + x
  {
    assert (lits + [x])[..|lits|] == lits;
  }

  lemma {:induction false} TemplateRender(lits: seq<string>)
    requires |lits| > 0
    ensures Render(Template(lits)) == TemplateText(lits)
    decreases |lits|
  {
    if |lits| == 1 {
      RenderOne(Lit(lits[0]));
    } else {
      var init := Template(lits[..|lits| - 1]);
      var n := |lits| - 1;
      TemplateRender(lits[..|lits| - 1]);
      RenderSnoc(init, Param(n));
      RenderSnoc(init + [Param(n)], Lit(lits[n]));
    }
  }

  /** The text of a one-placeholder statement: `a $1 b`. */
  lemma TemplateText1(a: string, b: string)
    ensures TemplateText([a, b]) == a + Placeholder(1) + b
  {
    assert [a, b][..1] == [a];
  }

  /** The text of a two-placeholder statement, literal by literal. */
  lemma TemplateText2(a: string, b: string, c: string)
    ensures TemplateText([a, b, c]) == a + Placeholder(1) + b + Placeholder(2) + c
  {
    TemplateTextSnoc([a], b);
    assert [a] + [b] == [a, b];
    TemplateTextSnoc([a, b], c);
    assert [a, b] + [c] == [a, b, c];
  }

  /** The text of a six-placeholder statement whose inner literals are all
      `b` (a `VALUES ($1, ..., $6)` list). */
  lemma TemplateText6(a: string, b: string, c: string)
    ensures TemplateText([a, b, b, b, b, b, c])
      == a + Placeholder(1) + b + Placeholder(2) + b + Placeholder(3) + b
        + Placeholder(4) + b + Placeholder(5) + b + Placeholder(6) + c
  {
    var t := [a];
    TemplateTextSnoc(t, b);
    assert t + [b] == [a, b];
    TemplateTextSnoc([a, b], b);
    assert [a, b] + [b] == [a, b, b];
    TemplateTextSnoc([a, b, b], b);
    assert [a, b, b] + [b] == [a, b, b, b];
    TemplateTextSnoc([a, b, b, b], b);
    assert [a, b, b, b] + [b] == [a, b, b, b, b];
    TemplateTextSnoc([a, b, b, b, b], b);
    assert [a, b, b, b, b] + [b] == [a, b, b, b, b, b];
    TemplateTextSnoc([a, b, b, b, b, b], c);
    assert [a, b, b, b, b, b] + [c] == [a, b, b, b, b, b, c];
  }

  /** The shape of every `update`: `head column = $1 WHERE id = $2 tail`,
      pushed as `head`, `column = `, the new value, `' '`, `WHERE id = `, the
      id, `' '`, `tail`. */
  lemma UpdateShape(head: string, column: string, tail: string)
    ensures Render(UpdateFragments(head, column + " = ", tail))
      == head + column + " = " + Placeholder(1) + " WHERE id = " + Placeholder(2) + " " + tail
    ensures Params(UpdateFragments(head, column + " = ", tail)) == [1, 2]
  {
    UpdatePushes(head, column + " = ", tail);
    UpdateTextJoin(head, column, Placeholder(1), Placeholder(2), tail);
  }

  /** The update's text, push by push. */
  lemma UpdatePushes(head: string, assignment: string, tail: string)
    ensures Render(UpdateFragments(head, assignment, tail))
      == head + assignment + Placeholder(1) + " " + "WHERE id = " + Placeholder(2) + " " + tail
    ensures Params(UpdateFragments(head, assignment, tail)) == [1, 2]
  {
    var p1: seq<Fragment> := [Lit(head)];
    var p2 := p1 + [Lit(assignment)];
    var p3 := p2 + [Param(1)];
    var p4 := p3 + [Lit(" ")];
    var p5 := p4 + [Lit("WHERE id = ")];
    var p6 := p5 + [Param(2)];
    var p7 := p6 + [Lit(" ")];
    var p8 := p7 + [Lit(tail)];
    assert p8 == UpdateFragments(head, assignment, tail);
    RenderOne(Lit(head));
    RenderSnoc(p1, Lit(assignment));
    RenderSnoc(p2, Param(1));
    RenderSnoc(p3, Lit(" "));
    RenderSnoc(p4, Lit("WHERE id = "));
    RenderSnoc(p5, Param(2));
    RenderSnoc(p6, Lit(" "));
    RenderSnoc(p7, Lit(tail));
  }

  lemma UpdateTextJoin(head: string, column: string, p: string, p': string, tail: string)
    ensures head + (column + " = ") + p + " " + "WHERE id = " + p' + " " + tail
      == head + column + " = " + p + " WHERE id = " + p' + " " + tail
  {
    ConcatAssoc(head, column, " = ");
    var a := head + column + " = " + p;
    ConcatAssoc(a, " ", "WHERE id = ");
    assert " " + "WHERE id = " == " WHERE id = ";
  }

  /** The pushes of an `update`; `assignment` is the `column = ` text. */
  function UpdateFragments(head: string, assignment: string, tail: string): seq<Fragment> {
    [Lit(head), Lit(assignment), Param(1), Lit(" "), Lit("WHERE id = "), Param(2), Lit(" "), Lit(tail)]
  }

  lemma Iota2()
    ensures Iota(2) == [1, 2]
  {
    assert Range(1, 1) == [1];
  }

  /** `QueryBuilder<Postgres>`: the statement so far, kept as the fragments it
      was pushed as, and the values bound so far. */
  class QueryBuilder {
    var fragments: seq<Fragment>
    var args: seq<Value>

    /** `QueryBuilder::new(init)`: the text starts as `init`, nothing bound. */
    constructor(init: string)
      ensures fragments == [Lit(init)] && args == []
    {
      fragments := [Lit(init)];
      args := [];
    }

    /** `sql()`: the statement text. */
    function Sql(): string
      reads this
    {
      Render(fragments)
    }

    /** `build_query_as()`: the statement as it stands. */
    method Build() returns (q: Query)
      ensures q == Query(fragments, args)
    {
      q := Query(fragments, args);
    }

    /** `push(s)`: appends text. */
    method Push(s: string)
      modifies this
      ensures fragments == old(fragments) + [Lit(s)] && args == old(args)
    {
      fragments := fragments + [Lit(s)];
    }

    /** `push_bind(v)`: binds `v` as the next value and appends its
        placeholder. */
    method PushBind(v: Value)
      modifies this
      ensures fragments == old(fragments) + [Param(|old(args)| + 1)]
      ensures args == old(args) + [v]
    {
      fragments := fragments + [Param(|args| + 1)];
      args := args + [v];
    }
  }

  /** `push("WHERE id = ").push_bind(id).push(' ')`, the key condition every
      `update` ends with before its `RETURNING` list. */
  method PushWhereId(qb: QueryBuilder, id: i64)
    modifies qb
    ensures qb.fragments == old(qb.fragments) + [Lit("WHERE id = "), Param(|old(qb.args)| + 1), Lit(" ")]
    ensures qb.args == old(qb.args) + [Int8(id)]
  {
    qb.Push("WHERE id = ");
    qb.PushBind(Int8(id));
    qb.Push(" ");
  }

  /** `push("<column> = ").push_bind(value).push(' ')`, one arm of the
      `match changes` of every `update`. */
  method PushAssignment(qb: QueryBuilder, assignment: string, v: Value)
    modifies qb
    ensures qb.fragments == old(qb.fragments) + [Lit(assignment), Param(|old(qb.args)| + 1), Lit(" ")]
    ensures qb.args == old(qb.args) + [v]
  {
    qb.Push(assignment);
    qb.PushBind(v);
    qb.Push(" ");
  }

  /** `QueryBuilder::separated(separator)`: a view of the builder that puts
      `separator` before every `push` but the first. */
  class Separated {
    const builder: QueryBuilder
    const separator: string
    var pushSeparator: bool

    constructor(builder: QueryBuilder, separator: string)
      ensures this.builder == builder && this.separator == separator
      ensures !pushSeparator
    {
      this.builder := builder;
      this.separator := separator;
      pushSeparator := false;
    }

    /** `push(s)`: the separator (unless this is the first push), then `s`. */
    method Push(s: string)
      modifies this, builder
      ensures pushSeparator
      ensures builder.fragments
        == old(builder.fragments) + (if old(pushSeparator) then [Lit(separator)] else []) + [Lit(s)]
      ensures builder.args == old(builder.args)
    {
      if pushSeparator {
        builder.Push(separator);
      }
      builder.Push(s);
      pushSeparator := true;
    }

    /** `push_unseparated(s)`: `s` alone, whatever came before. */
    method PushUnseparated(s: string)
      modifies builder
      ensures builder.fragments == old(builder.fragments) + [Lit(s)]
      ensures builder.args == old(builder.args)
    {
      builder.Push(s);
    }

    /** `push_bind_unseparated(v)`: binds `v` with no separator. */
    method PushBindUnseparated(v: Value)
      modifies builder
      ensures builder.fragments == old(builder.fragments) + [Param(|old(builder.args)| + 1)]
      ensures builder.args == old(builder.args) + [v]
    {
      builder.PushBind(v);
    }
  }
}
