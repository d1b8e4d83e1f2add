/**
 * The line list both Markdown renderers build: a `markdown_lines` list that
 * only ever grows by `append(text)` or by the `add_empty_line` helper, which
 * appends '' only when the list is non-empty and its last line is not ''.
 *
 * A renderer's work is described by the sequence of those two calls it makes
 * (its trace); `Run` replays a trace on a starting list. The lemmas here are
 * the facts every section relies on: replaying is compositional, a trace whose
 * appended lines are non-empty never produces a leading or a doubled blank
 * line, the non-blank lines are exactly the appended texts in order, and a
 * trace that starts with an append does not depend on what came before it.
 */
module MarkdownLines {
  import opened Wrappers
  import opened Json

  /** One call on the line list: `markdown_lines.append(text)` or `add_empty_line()`. */
  datatype Op = Line(text: string) | Blank

  /** A section's trace, or the exception raised while producing it. */
  type Ops = Result<seq<Op>, FieldError>

  /** `add_empty_line()`. */
  function AddEmptyLine(lines: seq<string>): seq<string> {
    if lines != [] && lines[|lines| - 1] != "" then lines + [""] else lines
  }

  function Exec(lines: seq<string>, op: Op): seq<string> {
    match op
    case Line(t) => lines + [t]
    case Blank => AddEmptyLine(lines)
  }

  /** The list obtained by performing the first `n` calls of `ops`, in order, on `lines`. */
  function Replay(lines: seq<string>, ops: seq<Op>, n: nat): seq<string>
    requires n <= |ops|
  {
    if n == 0 then lines else Exec(Replay(lines, ops, n - 1), ops[n - 1])
  }

  /** The list obtained by performing all the calls of `ops`, in order, on `lines`. */
  function Run(lines: seq<string>, ops: seq<Op>): seq<string> {
    Replay(lines, ops, |ops|)
  }

  /** Replaying the first `n` calls only looks at those calls. */
  lemma {:induction false} ReplayPrefix(lines: seq<string>, a: seq<Op>, b: seq<Op>, n: nat)
    requires n <= |a| && n <= |b| && a[..n] == b[..n]
    ensures Replay(lines, a, n) == Replay(lines, b, n)
  {
    if n > 0 {
      assert a[n - 1] == a[..n][n - 1] && b[n - 1] == b[..n][n - 1];
      assert a[..n - 1] == a[..n][..n - 1] && b[..n - 1] == b[..n][..n - 1];
      ReplayPrefix(lines, a, b, n - 1);
    }
  }

  /** The last call is performed on the list the others produced. */
  lemma RunLast(lines: seq<string>, ops: seq<Op>)
    requires ops != []
    ensures Run(lines, ops) == Exec(Run(lines, ops[..|ops| - 1]), ops[|ops| - 1])
  {
    ReplayPrefix(lines, ops, ops[..|ops| - 1], |ops| - 1);
  }

  /** No leading blank line and no two consecutive blank lines. */
  predicate WellSpaced(lines: seq<string>) {
    (lines != [] ==> lines[0] != "") &&
    forall k :: 0 < k < |lines| && lines[k] == "" ==> lines[k - 1] != ""
  }

  /** Every `append` of the trace appends a non-empty line. */
  predicate NonEmptyLines(ops: seq<Op>) {
    forall k :: 0 <= k < |ops| && ops[k].Line? ==> ops[k].text != ""
  }

  /** The trace is empty or begins with an `append`. */
  predicate StartsWithLine(ops: seq<Op>) {
    ops == [] || ops[0].Line?
  }

  /** The texts a trace appends, in order. */
  function Texts(ops: seq<Op>): seq<string>
    decreases |ops|
  {
    if ops == [] then []
    else Texts(ops[..|ops| - 1]) + (match ops[|ops| - 1] case Line(t) => [t] case Blank => [])
  }

  /** The non-blank lines of a list, in order. */
  function NonBlankLines(lines: seq<string>): seq<string>
    decreases |lines|
  {
    if lines == [] then []
    else NonBlankLines(lines[..|lines| - 1]) + (if lines[|lines| - 1] == "" then [] else [lines[|lines| - 1]])
  }

  lemma RunSnoc(lines: seq<string>, ops: seq<Op>, op: Op)
    ensures Run(lines, ops + [op]) == Exec(Run(lines, ops), op)
  {
    assert (ops + [op])[..|ops|] == ops;
    RunLast(lines, ops + [op]);
  }

  /** Replaying `a + b` is replaying `a`, then `b` on the result. */
  lemma {:induction false} RunAppend(lines: seq<string>, a: seq<Op>, b: seq<Op>)
    ensures Run(lines, a + b) == Run(Run(lines, a), b)
    decreases |b|
  {
    if b == [] {
      assert a + b == a;
    } else {
      var init, last := b[..|b| - 1], b[|b| - 1];
      assert b == init + [last];
      assert a + b == (a + init) + [last];
      RunSnoc(lines, a + init, last);
      RunAppend(lines, a, init);
      RunSnoc(Run(lines, a), init, last);
    }
  }

  /** The list only grows. */
  lemma {:induction false} RunExtends(lines: seq<string>, ops: seq<Op>)
    ensures |Run(lines, ops)| >= |lines| && Run(lines, ops)[..|lines|] == lines
    decreases |ops|
  {
    if ops != [] {
      RunExtends(lines, ops[..|ops| - 1]);
      RunLast(lines, ops);
    }
  }

  /** The blank-line invariant: it holds of the empty list and every call keeps it. */
  lemma {:induction false} RunKeepsWellSpaced(lines: seq<string>, ops: seq<Op>)
    requires WellSpaced(lines) && NonEmptyLines(ops)
    ensures WellSpaced(Run(lines, ops))
    decreases |ops|
  {
    if ops != [] {
      var init := ops[..|ops| - 1];
      assert NonEmptyLines(init) by {
        forall k | 0 <= k < |init| && init[k].Line? ensures init[k].text != "" {
          assert init[k] == ops[k];
        }
      }
      RunKeepsWellSpaced(lines, init);
      RunLast(lines, ops);
    }
  }

  /** The non-blank lines of the result are the old ones followed by the appended texts. */
  lemma {:induction false} RunTexts(lines: seq<string>, ops: seq<Op>)
    requires NonEmptyLines(ops)
    ensures NonBlankLines(Run(lines, ops)) == NonBlankLines(lines) + Texts(ops)
    decreases |ops|
  {
    if ops != [] {
      var init, last := ops[..|ops| - 1], ops[|ops| - 1];
      assert NonEmptyLines(init) by {
        forall k | 0 <= k < |init| && init[k].Line? ensures init[k].text != "" {
          assert init[k] == ops[k];
        }
      }
      RunTexts(lines, init);
      RunLast(lines, ops);
      var prev := Run(lines, init);
      match last
      case Line(t) =>
        assert (prev + [t])[..|prev|] == prev;
      case Blank =>
        if prev != [] && prev[|prev| - 1] != "" {
          assert (prev + [""])[..|prev|] == prev;
        }
    }
  }

  /**
   * Once the list is non-empty, what the calls do depends only on its last
   * line, so any prefix in front of it is carried along unchanged.
   */
  lemma {:induction false} RunPrefix(prev: seq<string>, lines: seq<string>, ops: seq<Op>)
    requires lines != []
    ensures Run(prev + lines, ops) == prev + Run(lines, ops)
    decreases |ops|
  {
    if ops != [] {
      var init, last := ops[..|ops| - 1], ops[|ops| - 1];
      RunPrefix(prev, lines, init);
      RunExtends(lines, init);
      RunLast(prev + lines, ops);
      RunLast(lines, ops);
      var x := Run(lines, init);
      assert (prev + x)[|prev + x| - 1] == x[|x| - 1];
      match last
      case Line(t) =>
        assert (prev + x) + [t] == prev + (x + [t]);
      case Blank =>
        assert (prev + x) + [""] == prev + (x + [""]);
    }
  }

  /** A trace that starts with an `append` renders the same block after any prefix. */
  lemma RunFromLine(prev: seq<string>, ops: seq<Op>)
    requires StartsWithLine(ops)
    ensures Run(prev, ops) == prev + Run([], ops)
  {
    if ops != [] {
      var first, rest := ops[..1], ops[1..];
      assert ops == first + rest;
      RunAppend(prev, first, rest);
      RunAppend([], first, rest);
      assert Run(prev, first) == prev + [ops[0].text] by { assert first == [] + [ops[0]]; RunSnoc(prev, [], ops[0]); }
      assert Run([], first) == [ops[0].text] by { assert first == [] + [ops[0]]; RunSnoc([], [], ops[0]); }
      RunPrefix(prev, [ops[0].text], rest);
    }
  }

  /** `a; b` where either may raise: the first exception wins, otherwise the traces concatenate. */
  function Then(a: Ops, b: Ops): (r: Ops)
    ensures r.Ok? <==> a.Ok? && b.Ok?
    ensures r.Ok? ==> r.value == a.value + b.value
    ensures r.Err? ==> r == if a.Err? then a else b
  {
    if a.Err? then a else if b.Err? then b else Ok(a.value + b.value)
  }

  /** `Then` groups either way: running `a; b` then `c` is running `a` then `b; c`. */
  lemma ThenAssoc(a: Ops, b: Ops, c: Ops)
    ensures Then(Then(a, b), c) == Then(a, Then(b, c))
  {
    if a.Ok? && b.Ok? && c.Ok? {
      assert a.value + b.value + c.value == a.value + (b.value + c.value);
    }
  }

  /** The trace `head`, then `body`, then `tail`; an exception in `body` ends it. */
  function Block(head: seq<Op>, body: Ops, tail: seq<Op>): (r: Ops)
    ensures r.Err? <==> body.Err?
    ensures r.Err? ==> r.error == body.error
    ensures r.Ok? ==> r.value == head + body.value + tail
  {
    Then(Then(Ok(head), body), Ok(tail))
  }

  /** `for x in items[..n]: f(x)`, stopping at the first exception. */
  function EachUpTo(items: seq<Json>, f: Json -> Ops, n: nat): Ops
    requires n <= |items|
  {
    if n == 0 then Ok([]) else Then(EachUpTo(items, f, n - 1), f(items[n - 1]))
  }

  /** `for x in items: f(x)`, stopping at the first exception. */
  function Each(items: seq<Json>, f: Json -> Ops): Ops {
    EachUpTo(items, f, |items|)
  }

  /**
   * `if items and isinstance(items, list)`: the heading and a blank, the loop
   * over the items, then `tail`; nothing for an absent, empty or non-list value.
   */
  function Section(items: seq<Json>, heading: string, f: Json -> Ops, tail: seq<Op>): Ops {
    if items == [] then Ok([]) else Block([Line(heading), Blank], Each(items, f), tail)
  }

  lemma {:induction false} EachErrPrefix(items: seq<Json>, f: Json -> Ops, i: nat)
    requires i <= |items| && EachUpTo(items, f, i).Err?
    ensures Each(items, f) == EachUpTo(items, f, i)
    decreases |items| - i
  {
    if i < |items| {
      EachErrPrefix(items, f, i + 1);
    }
  }

  /**
   * One turn of a `for x in items` loop: when the call on `items[i]` returns
   * normally the list so far is the replay of one more item; when it raises,
   * the whole loop raises the same exception.
   */
  lemma EachStep(lines: seq<string>, items: seq<Json>, f: Json -> Ops, i: nat,
                 out: seq<string>, next: seq<string>, err: Option<FieldError>)
    requires i < |items| && EachUpTo(items, f, i).Ok? && out == Run(lines, EachUpTo(items, f, i).value)
    requires Performed(next, out, f(items[i]), err)
    ensures err.None? ==> EachUpTo(items, f, i + 1).Ok? && next == Run(lines, EachUpTo(items, f, i + 1).value)
    ensures err.Some? ==> Performed(next, lines, Each(items, f), err)
  {
    if err.None? {
      RunAppend(lines, EachUpTo(items, f, i).value, f(items[i]).value);
    } else {
      EachErrPrefix(items, f, i + 1);
    }
  }

  /** A section's heading lines followed by a body that may raise. */
  lemma PerformedAfter(lines: seq<string>, head: seq<Op>, mid: seq<string>, body: Ops,
                       next: seq<string>, err: Option<FieldError>)
    requires mid == Run(lines, head) && Performed(next, mid, body, err)
    ensures Performed(next, lines, Block(head, body, []), err)
    ensures err.None? ==> body.Ok? && next == Run(lines, head + body.value)
  {
    if body.Ok? {
      RunAppend(lines, head, body.value);
      assert head + body.value + [] == head + body.value;
    }
  }

  /** If every item's trace appends only non-empty lines, so does the loop's. */
  lemma {:induction false} EachNonEmpty(items: seq<Json>, f: Json -> Ops, n: nat)
    requires n <= |items|
    requires forall x :: f(x).Ok? ==> NonEmptyLines(f(x).value)
    ensures EachUpTo(items, f, n).Ok? ==> NonEmptyLines(EachUpTo(items, f, n).value)
  {
    if n > 0 {
      EachNonEmpty(items, f, n - 1);
    }
  }

  /** `for i, x in enumerate(items[..n], 1): f(i, x)`, stopping at the first exception. */
  function EnumerateUpTo(items: seq<Json>, f: (nat, Json) -> Ops, n: nat): Ops
    requires n <= |items|
  {
    if n == 0 then Ok([]) else Then(EnumerateUpTo(items, f, n - 1), f(n, items[n - 1]))
  }

  /** `for i, x in enumerate(items, 1): f(i, x)`, stopping at the first exception. */
  function Enumerate(items: seq<Json>, f: (nat, Json) -> Ops): Ops {
    EnumerateUpTo(items, f, |items|)
  }

  /**
   * Reference numbering, as `enumerate(items, n)` reads it: the list walked
   * front to back, its first item numbered `n`.
   */
  function EnumerateFrom(items: seq<Json>, f: (nat, Json) -> Ops, n: nat): Ops
    decreases |items|
  {
    if items == [] then Ok([]) else Then(f(n, items[0]), EnumerateFrom(items[1..], f, n + 1))
  }

  lemma {:induction false} EnumerateErrPrefix(items: seq<Json>, f: (nat, Json) -> Ops, i: nat)
    requires i <= |items| && EnumerateUpTo(items, f, i).Err?
    ensures Enumerate(items, f) == EnumerateUpTo(items, f, i)
    decreases |items| - i
  {
    if i < |items| {
      EnumerateErrPrefix(items, f, i + 1);
    }
  }

  /**
   * One turn of a `for i, x in enumerate(items, 1)` loop, as `EachStep`: the
   * call on the item at index `i` is numbered `i + 1`.
   */
  lemma EnumerateStep(lines: seq<string>, items: seq<Json>, f: (nat, Json) -> Ops, i: nat,
                      out: seq<string>, next: seq<string>, err: Option<FieldError>)
    requires i < |items| && EnumerateUpTo(items, f, i).Ok? && out == Run(lines, EnumerateUpTo(items, f, i).value)
    requires Performed(next, out, f(i + 1, items[i]), err)
    ensures err.None? ==> EnumerateUpTo(items, f, i + 1).Ok? && next == Run(lines, EnumerateUpTo(items, f, i + 1).value)
    ensures err.Some? ==> Performed(next, lines, Enumerate(items, f), err)
  {
    if err.None? {
      RunAppend(lines, EnumerateUpTo(items, f, i).value, f(i + 1, items[i]).value);
    } else {
      EnumerateErrPrefix(items, f, i + 1);
    }
  }

  /** The loop up to `m`, then the rest of the list numbered from `m + 1`, is the whole loop. */
  lemma {:induction false} EnumerateSplit(items: seq<Json>, f: (nat, Json) -> Ops, m: nat)
    requires m <= |items|
    ensures Then(EnumerateUpTo(items, f, m), EnumerateFrom(items[m..], f, m + 1)) == Enumerate(items, f)
    decreases |items| - m
  {
    if m == |items| {
      assert items[m..] == [];
      if Enumerate(items, f).Ok? {
        assert Enumerate(items, f).value + [] == Enumerate(items, f).value;
      }
    } else {
      EnumerateSplit(items, f, m + 1);
      assert items[m..][1..] == items[m + 1..];
      ThenAssoc(EnumerateUpTo(items, f, m), f(m + 1, items[m]), EnumerateFrom(items[m + 1..], f, m + 2));
    }
  }

  /** Counting from 1 at the back of the list numbers every item by its position from the front. */
  lemma EnumerateFromOne(items: seq<Json>, f: (nat, Json) -> Ops)
    ensures Enumerate(items, f) == EnumerateFrom(items, f, 1)
  {
    EnumerateSplit(items, f, 0);
    assert items[0..] == items;
    var x := EnumerateFrom(items, f, 1);
    assert Then(Ok([]), x) == x by {
      if x.Ok? {
        assert [] + x.value == x.value;
      }
    }
  }

  /** If every numbered call appends only non-empty lines, so does the loop. */
  lemma {:induction false} EnumerateNonEmpty(items: seq<Json>, f: (nat, Json) -> Ops, n: nat)
    requires n <= |items|
    requires forall i, x :: f(i, x).Ok? ==> NonEmptyLines(f(i, x).value)
    ensures EnumerateUpTo(items, f, n).Ok? ==> NonEmptyLines(EnumerateUpTo(items, f, n).value)
  {
    if n > 0 {
      EnumerateNonEmpty(items, f, n - 1);
      ThenNonEmpty(EnumerateUpTo(items, f, n - 1), f(n, items[n - 1]));
    }
  }

  /** A section that returns normally appends only non-empty lines and starts with an `append`. */
  predicate Formed(p: Ops) {
    p.Ok? ==> NonEmptyLines(p.value) && StartsWithLine(p.value)
  }

  lemma NonEmptyConcat(a: seq<Op>, b: seq<Op>)
    requires NonEmptyLines(a) && NonEmptyLines(b)
    ensures NonEmptyLines(a + b)
  {
    forall k | 0 <= k < |a + b| && (a + b)[k].Line? ensures (a + b)[k].text != "" {
      if k >= |a| {
        assert (a + b)[k] == b[k - |a|];
      }
    }
  }
  /** Two non-empty runs of calls make one. */
  lemma ThenNonEmpty(a: Ops, b: Ops)
    requires a.Ok? ==> NonEmptyLines(a.value)
    requires b.Ok? ==> NonEmptyLines(b.value)
    ensures Then(a, b).Ok? ==> NonEmptyLines(Then(a, b).value)
  {
    if a.Ok? && b.Ok? {
      NonEmptyConcat(a.value, b.value);
    }
  }


  /** A list section is formed when its heading is non-empty and each item appends only non-empty lines. */
  lemma SectionFormed(items: seq<Json>, heading: string, f: Json -> Ops, tail: seq<Op>)
    requires heading != "" && NonEmptyLines(tail)
    requires forall x :: f(x).Ok? ==> NonEmptyLines(f(x).value)
    ensures Formed(Section(items, heading, f, tail))
  {
    if items != [] {
      EachNonEmpty(items, f, |items|);
      var body := Each(items, f);
      if body.Ok? {
        NonEmptyConcat([Line(heading), Blank], body.value);
        NonEmptyConcat([Line(heading), Blank] + body.value, tail);
      }
    }
  }

  /** The sections of a document in order; the first section that raises ends it. */
  function Chain(parts: seq<Ops>): (r: Ops)
    decreases |parts|
  {
    if parts == [] then Ok([]) else Then(Chain(parts[..|parts| - 1]), parts[|parts| - 1])
  }

  lemma {:induction false} ChainErrPrefix(parts: seq<Ops>, k: nat)
    requires k <= |parts| && Chain(parts[..k]).Err?
    ensures Chain(parts) == Chain(parts[..k])
    decreases |parts| - k
  {
    if k < |parts| {
      assert parts[..k + 1][..k] == parts[..k];
      ChainErrPrefix(parts, k + 1);
    } else {
      assert parts[..k] == parts;
    }
  }

  /** If no section appends an empty line, neither does the document. */
  lemma {:induction false} ChainNonEmpty(parts: seq<Ops>)
    requires forall k :: 0 <= k < |parts| ==> Formed(parts[k])
    ensures Chain(parts).Ok? ==> NonEmptyLines(Chain(parts).value)
    decreases |parts|
  {
    if parts != [] {
      var init := parts[..|parts| - 1];
      assert forall k :: 0 <= k < |init| ==> init[k] == parts[k];
      ChainNonEmpty(init);
      if Chain(parts).Ok? {
        NonEmptyConcat(Chain(init).value, parts[|parts| - 1].value);
      }
    }
  }

  /** The calls the first `k` sections make, or the exception one of them raises. */
  function Prefix(parts: seq<Ops>, k: nat): Ops
    requires k <= |parts|
  {
    if k == 0 then Ok([]) else Then(Prefix(parts, k - 1), parts[k - 1])
  }

  lemma {:induction false} PrefixIsChain(parts: seq<Ops>, k: nat)
    requires k <= |parts|
    ensures Prefix(parts, k) == Chain(parts[..k])
  {
    if k > 0 {
      PrefixIsChain(parts, k - 1);
      assert parts[..k][..k - 1] == parts[..k - 1];
    }
  }

  /** Once a section raises, no later section runs and the whole chain raises the same. */
  lemma {:induction false} PrefixErrRest(parts: seq<Ops>, k: nat)
    requires k <= |parts| && Prefix(parts, k).Err?
    ensures Chain(parts) == Prefix(parts, k)
    decreases |parts| - k
  {
    if k < |parts| {
      PrefixErrRest(parts, k + 1);
    } else {
      PrefixIsChain(parts, k);
      assert parts[..k] == parts;
    }
  }

  /**
   * One more section run on the list the first `k` left: the list is the
   * replay of `k + 1` sections, or the whole chain raises what it raised.
   */
  lemma PrefixStep(start: seq<string>, parts: seq<Ops>, k: nat, done: seq<Op>,
                   before: seq<string>, next: seq<string>, err: Option<FieldError>)
    returns (now: seq<Op>)
    requires k < |parts| && Prefix(parts, k) == Ok(done) && before == Run(start, done)
    requires Performed(next, before, parts[k], err)
    ensures err.None? ==> Prefix(parts, k + 1) == Ok(now) && next == Run(start, now)
    ensures err.Some? ==> Chain(parts) == Err(err.value)
  {
    if err.None? {
      now := done + parts[k].value;
      RunAppend(start, done, parts[k].value);
    } else {
      now := done;
      PrefixErrRest(parts, k + 1);
    }
  }

  /** The whole chain, once every section has run. */
  lemma PrefixAll(parts: seq<Ops>)
    ensures Prefix(parts, |parts|) == Chain(parts)
  {
    PrefixIsChain(parts, |parts|);
    assert parts[..|parts|] == parts;
  }

  /** Each section rendered on its own, one after the other. */
  function Standalone(parts: seq<Ops>): seq<string>
    decreases |parts|
  {
    if parts == [] then []
    else Standalone(parts[..|parts| - 1]) + (match parts[|parts| - 1] case Ok(ops) => Run([], ops) case Err(_) => [])
  }

  /**
   * When every section starts with an `append` (or is empty), the document is
   * its sections rendered independently and concatenated in order.
   */
  lemma {:induction false} ChainRunsApart(parts: seq<Ops>)
    requires Chain(parts).Ok?
    requires forall k :: 0 <= k < |parts| ==> Formed(parts[k])
    ensures Run([], Chain(parts).value) == Standalone(parts)
    decreases |parts|
  {
    if parts != [] {
      var init, last := parts[..|parts| - 1], parts[|parts| - 1];
      assert forall k :: 0 <= k < |init| ==> init[k] == parts[k];
      ChainRunsApart(init);
      RunAppend([], Chain(init).value, last.value);
      RunFromLine(Run([], Chain(init).value), last.value);
    }
  }

  /**
   * What a method that renders part of the document promises: it returns the
   * list the section's calls produce on the list it was given, or the
   * exception the section raises.
   */
  ghost predicate Performed(now: seq<string>, before: seq<string>, spec: Ops, err: Option<FieldError>) {
    match spec
    case Ok(ops) => err == None && now == Run(before, ops)
    case Err(e) => err == Some(e)
  }

  /**
   * `markdown_lines.append(text)`. The ghost arguments carry the calls made so
   * far on the list a method started from, so that a method making several
   * calls can state its result as the replay of all of them.
   */
  method Append(lines: seq<string>, text: string, ghost start: seq<string>, ghost done: seq<Op>)
    returns (r: seq<string>, ghost now: seq<Op>)
    requires lines == Run(start, done)
    ensures r == lines + [text]
    ensures now == done + [Line(text)] && r == Run(start, now)
  {
    RunSnoc(start, done, Line(text));
    r := lines + [text];
    now := done + [Line(text)];
  }

  /** `add_empty_line()`: appends '' only when the list is non-empty and its last line is not ''. */
  method AddEmpty(lines: seq<string>, ghost start: seq<string>, ghost done: seq<Op>)
    returns (r: seq<string>, ghost now: seq<Op>)
    requires lines == Run(start, done)
    ensures lines != [] && lines[|lines| - 1] != "" ==> r == lines + [""]
    ensures lines == [] || lines[|lines| - 1] == "" ==> r == lines
    ensures now == done + [Blank] && r == Run(start, now)
  {
    RunSnoc(start, done, Blank);
    if |lines| > 0 && lines[|lines| - 1] != "" {
      r := lines + [""];
    } else {
      r := lines;
    }
    now := done + [Blank];
  }
}
