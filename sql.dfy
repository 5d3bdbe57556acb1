/** The structure of the relational statements the repositories assemble.

    A statement is a sequence of fragments, literal text or a numbered
    placeholder `$n`, together with its argument list; the driver binds the
    n-th argument to `$n`. What matters about the assembled statements is that
    this numbering is right: the placeholders are exactly `$1 .. $k` in order of
    appearance, where k is the number of arguments. */
module Sql {
  import opened Wrappers
  import opened Identifiers

  datatype Arg =
    | UuidArg(id: Uuid)
    | UuidListArg(ids: seq<Uuid>)
    | TextArg(text: string)
    | IntArg(n: int)
    | BoolArg(flag: bool)
    | TimeArg(at: Time)

  datatype Fragment = Text(text: string) | Param(index: nat)

  type Sql = seq<Fragment>

  datatype Statement = Statement(sql: Sql, args: seq<Arg>)

  /** The placeholder indices of a statement text, in order of appearance. */
  function Params(q: Sql): seq<nat>
    decreases |q|
  {
    if q == [] then []
    else Params(q[..|q| - 1]) + (if q[|q| - 1].Param? then [q[|q| - 1].index] else [])
  }

  lemma {:induction false} ParamsAppend(a: Sql, b: Sql)
    ensures Params(a + b) == Params(a) + Params(b)
    decreases |b|
  {
    if b == [] {
      assert a + b == a;
    } else {
      var b' := b[..|b| - 1];
      ParamsAppend(a, b');
      assert (a + b)[..|a + b| - 1] == a + b';
    }
  }

  /** lo, lo+1, ..., hi-1 */
  function Range(lo: nat, hi: nat): (r: seq<nat>)
    ensures |r| == if lo <= hi then hi - lo else 0
  {
    if hi <= lo then [] else seq(hi - lo, i requires 0 <= i < hi - lo => lo + i)
  }

  /** The placeholders are exactly $1 .. $k in order, k the number of arguments. */
  predicate WellNumbered(s: Statement) {
    Params(s.sql) == Range(1, |s.args| + 1)
  }

  /** An optional filter that is present: the clause text in front of its
      placeholder, and the one argument bound to that placeholder. */
  datatype Predicate = Predicate(clause: string, arg: Arg)

  /** The clauses of `preds`, each followed by its own placeholder, numbered
      from `first` upwards. */
  function Numbered(preds: seq<Predicate>, first: nat): Sql
    decreases |preds|
  {
    if preds == [] then []
    else Numbered(preds[..|preds| - 1], first) + [Text(preds[|preds| - 1].clause), Param(first + |preds| - 1)]
  }

  function ArgsOf(preds: seq<Predicate>): (r: seq<Arg>)
    ensures |r| == |preds|
    ensures forall i :: 0 <= i < |preds| ==> r[i] == preds[i].arg
  {
    seq(|preds|, i requires 0 <= i < |preds| => preds[i].arg)
  }

  lemma ArgsOfSnoc(preds: seq<Predicate>, p: Predicate)
    ensures ArgsOf(preds + [p]) == ArgsOf(preds) + [p.arg]
  {
  }

  /** Appending one present filter appends its clause, its placeholder and its
      argument. */
  lemma NumberedSnoc(preds: seq<Predicate>, p: Predicate, first: nat)
    ensures Numbered(preds + [p], first) == Numbered(preds, first) + [Text(p.clause), Param(first + |preds|)]
    ensures ArgsOf(preds + [p]) == ArgsOf(preds) + [p.arg]
  {
    assert (preds + [p])[..|preds|] == preds;
  }

  /** One optional filter: appended when present, skipped otherwise. */
  function Optional(preds: seq<Predicate>, p: Option<Predicate>): (r: seq<Predicate>)
    ensures |r| == |preds| + (if p.Some? then 1 else 0)
  {
    match p
    case Some(q) => preds + [q]
    case None => preds
  }

  /** The text and the arguments after one optional filter. */
  lemma NumberedOptional(head: Sql, headArgs: seq<Arg>, preds: seq<Predicate>, first: nat, p: Option<Predicate>)
    ensures head + Numbered(Optional(preds, p), first) ==
            head + Numbered(preds, first) + (if p.Some? then [Text(p.value.clause), Param(first + |preds|)] else [])
    ensures headArgs + ArgsOf(Optional(preds, p)) ==
            headArgs + ArgsOf(preds) + (if p.Some? then [p.value.arg] else [])
  {
    if p.Some? {
      NumberedSnoc(preds, p.value, first);
    }
  }

  /** k present filters take the consecutive placeholders first .. first+k-1. */
  lemma {:induction false} NumberedParams(preds: seq<Predicate>, first: nat)
    ensures Params(Numbered(preds, first)) == Range(first, first + |preds|)
    decreases |preds|
  {
    if preds != [] {
      var init := preds[..|preds| - 1];
      NumberedParams(init, first);
      var tail := [Text(preds[|preds| - 1].clause), Param(first + |preds| - 1)];
      ParamsAppend(Numbered(init, first), tail);
      assert Params(tail) == [first + |preds| - 1] by {
        var head := [Text(preds[|preds| - 1].clause)];
        assert tail[..1] == head;
        assert head[..0] == [];
        assert Params(head) == [];
      }
    }
  }

  /** Every clause of `preds` occurs in the numbered text, with its placeholder
      right after it. */
  lemma {:induction false} NumberedShape(preds: seq<Predicate>, first: nat, i: nat)
    requires i < |preds|
    ensures |Numbered(preds, first)| == 2 * |preds|
    ensures Numbered(preds, first)[2 * i] == Text(preds[i].clause)
    ensures Numbered(preds, first)[2 * i + 1] == Param(first + i)
    decreases |preds|
  {
    if i < |preds| - 1 {
      NumberedShape(preds[..|preds| - 1], first, i);
    } else if |preds| > 1 {
      NumberedShape(preds[..|preds| - 1], first, 0);
    }
  }

  /** `lo .. mid-1` followed by `mid .. hi-1` is `lo .. hi-1`. */
  lemma RangeConcat(lo: nat, mid: nat, hi: nat)
    requires lo <= mid <= hi
    ensures Range(lo, mid) + Range(mid, hi) == Range(lo, hi)
  {
    var r := Range(lo, mid) + Range(mid, hi);
    assert forall i :: 0 <= i < |r| ==> r[i] == Range(lo, hi)[i];
  }

  lemma ParamsOfText(t: string)
    ensures Params([Text(t)]) == []
  {
    assert [Text(t)][..0] == [];
  }

  lemma ParamsOfTextParam(t: string, n: nat)
    ensures Params([Text(t), Param(n)]) == [n]
  {
    var q := [Text(t), Param(n)];
    assert q[..1] == [Text(t)];
    ParamsOfText(t);
  }

  /** "... ANY(" $1 ")" has the single placeholder $1. */
  lemma ParamsOfHead(t: string, u: string)
    ensures Params([Text(t), Param(1), Text(u)]) == [1]
  {
    var q := [Text(t), Param(1), Text(u)];
    assert q[..2] == [Text(t), Param(1)];
    ParamsOfTextParam(t, 1);
  }

  /** Three consecutive runs of placeholders make one run. */
  lemma ComposedParams(head: Sql, body: Sql, tail: Sql, a: nat, b: nat, c: nat)
    requires 1 <= a <= b <= c
    requires Params(head) == Range(1, a)
    requires Params(body) == Range(a, b)
    requires Params(tail) == Range(b, c)
    ensures Params(head + body + tail) == Range(1, c)
  {
    ParamsAppend(head, body);
    ParamsAppend(head + body, tail);
    RangeConcat(1, a, b);
    RangeConcat(1, b, c);
  }

  /** The shape every assembled statement has: a head numbered 1..h, the
      present filters numbered after it, and a tail numbered after those. */
  lemma ComposedWellNumbered(head: Sql, headArgs: seq<Arg>, preds: seq<Predicate>, tail: Sql, tailArgs: seq<Arg>, h: nat, k: nat, t: nat)
    requires h == |headArgs| && k == |preds| && t == |tailArgs|
    requires Params(head) == Range(1, h + 1)
    requires Params(tail) == Range(h + 1 + k, h + 1 + k + t)
    ensures WellNumbered(Statement(head + Numbered(preds, h + 1) + tail, headArgs + ArgsOf(preds) + tailArgs))
  {
    NumberedParams(preds, h + 1);
    ComposedParams(head, Numbered(preds, h + 1), tail, h + 1, h + 1 + k, h + 1 + k + t);
    assert |headArgs + ArgsOf(preds) + tailArgs| + 1 == h + 1 + k + t;
  }

  /** The trailing "LIMIT $n OFFSET $n+1" of a page query. */
  function LimitOffset(prefix: string, n: nat): Sql {
    [Text(prefix + " LIMIT "), Param(n), Text(" OFFSET "), Param(n + 1)]
  }

  lemma LimitOffsetParams(prefix: string, n: nat)
    ensures Params(LimitOffset(prefix, n)) == Range(n, n + 2)
  {
    var q := LimitOffset(prefix, n);
    assert q[..3] == [Text(prefix + " LIMIT "), Param(n), Text(" OFFSET ")];
    assert q[..3][..2] == [Text(prefix + " LIMIT "), Param(n)];
    ParamsOfTextParam(prefix + " LIMIT ", n);
    assert Range(n, n + 2) == [n, n + 1];
  }

  // ----- rendering -----

  function Digit(d: nat): (c: char)
    requires d < 10
    ensures '0' <= c <= '9'
    ensures c as int - '0' as int == d
  {
    ('0' as int + d) as char
  }

  /** Decimal text of n, as `fmt.Sprintf("%d", n)` writes it. */
  function Decimal(n: nat): (s: string)
    ensures |s| >= 1
    ensures forall i :: 0 <= i < |s| ==> '0' <= s[i] <= '9'
  {
    if n < 10 then [Digit(n)] else Decimal(n / 10) + [Digit(n % 10)]
  }

  /** The number a run of decimal digits denotes. */
  function DecimalValue(s: string): nat
    requires forall i :: 0 <= i < |s| ==> '0' <= s[i] <= '9'
    decreases |s|
  {
    if s == [] then 0 else 10 * DecimalValue(s[..|s| - 1]) + (s[|s| - 1] as int - '0' as int)
  }

  /** The placeholder text names the index it was built from. */
  lemma {:induction false} DecimalRoundTrip(n: nat)
    ensures DecimalValue(Decimal(n)) == n
  {
    if n >= 10 {
      var q, d := n / 10, n % 10;
      DecimalRoundTrip(q);
      var s := Decimal(n);
      assert s == Decimal(q) + [Digit(d)];
      assert s[..|s| - 1] == Decimal(q);
      assert DecimalValue(s) == 10 * DecimalValue(Decimal(q)) + d;
      assert 10 * q + d == n;
    }
  }

  function Render(q: Sql): string
    decreases |q|
  {
    if q == [] then ""
    else
      Render(q[..|q| - 1]) +
      (match q[|q| - 1]
       case Text(t) => t
       case Param(n) => "$" + Decimal(n))
  }
}
