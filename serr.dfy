/** A model of package serr: an error value that carries a key-to-values
    "context" map and renders it next to the cause's message.

    A Go `Context` is a map, and a Go map is a reference: every copy of a
    `StructuredError` struct shares the one map it was built with. The model
    therefore keeps the map contents in a heap object (class `Context`) and
    `StructuredError` is a value that holds a reference to such an object.
 */
module Serr {

  datatype Option<T> = None | Some(value: T)

  /** The contents of a context: key to the sequence of values stored there. */
  type Entries<V> = map<string, seq<V>>

  /** Reading a Go map at a missing key yields the zero value, a nil slice,
      which here is the empty sequence. */
  function Lookup<V>(e: Entries<V>, k: string): seq<V>
  {
    if k in e then e[k] else []
  }

  /** The contents after `vals` are appended at `key`. */
  function Appended<V>(e: Entries<V>, key: string, vals: seq<V>): (r: Entries<V>)
    ensures r.Keys == e.Keys + {key}
    ensures r[key] == Lookup(e, key) + vals
    ensures forall k :: k != key ==> Lookup(r, k) == Lookup(e, k)
  {
    e[key := Lookup(e, key) + vals]
  }

  /** The contents after every key of `m` has had its sequence appended:
      the key set is the union and each key holds the concatenation. */
  function Merged<V>(e: Entries<V>, m: Entries<V>): (r: Entries<V>)
    ensures r.Keys == e.Keys + m.Keys
    ensures forall k :: Lookup(r, k) == Lookup(e, k) + Lookup(m, k)
  {
    map k | k in e.Keys + m.Keys :: Lookup(e, k) + Lookup(m, k)
  }

  /** Two maps agree when they hold the same sequence at every key. */
  lemma EntriesExt<V>(a: Entries<V>, b: Entries<V>)
    requires a.Keys == b.Keys
    requires forall k :: Lookup(a, k) == Lookup(b, k)
    ensures a == b
  {
    forall k | k in a ensures a[k] == b[k] {
      assert Lookup(a, k) == Lookup(b, k);
    }
  }

  /** The loop of `AddContextMap` run in one particular order of the keys
      of `m`: each visited key has its sequence appended once. */
  function MergeInOrder<V>(e: Entries<V>, m: Entries<V>, order: seq<string>): (r: Entries<V>)
    requires forall k | k in order :: k in m
    ensures r.Keys == e.Keys + (set k | k in order)
    decreases |order|
  {
    if order == [] then e
    else MergeInOrder(Appended(e, order[0], m[order[0]]), m, order[1..])
  }

  /** Visiting distinct keys in any order merges exactly the visited part of `m`. */
  lemma {:induction false} MergeInOrderMergesVisited<V>(e: Entries<V>, m: Entries<V>, order: seq<string>)
    requires forall k | k in order :: k in m
    requires forall i, j :: 0 <= i < j < |order| ==> order[i] != order[j]
    ensures MergeInOrder(e, m, order) == Merged(e, map k | k in m && k in order :: m[k])
    decreases |order|
  {
    if order == [] {
      MergedEmpty(e);
    } else {
      var k0, rest := order[0], order[1..];
      DistinctTail(order);
      MergeInOrderMergesVisited(Appended(e, k0, m[k0]), m, rest);
      VisitedCons(m, order);
      AppendedThenMerged(e, k0, m[k0], map k | k in m && k in rest :: m[k]);
    }
  }

  /** Dropping the head of a list of distinct keys leaves distinct keys,
      none of them the head. */
  lemma DistinctTail(order: seq<string>)
    requires order != []
    requires forall i, j :: 0 <= i < j < |order| ==> order[i] != order[j]
    ensures forall i, j :: 0 <= i < j < |order[1..]| ==> order[1..][i] != order[1..][j]
    ensures order[0] !in order[1..]
    ensures forall k :: k in order <==> k == order[0] || k in order[1..]
  {
    var rest := order[1..];
    assert order == [order[0]] + rest;
    forall i, j | 0 <= i < j < |rest| ensures rest[i] != rest[j] {
      assert rest[i] == order[i + 1] && rest[j] == order[j + 1];
    }
    forall j | 0 <= j < |rest| ensures rest[j] != order[0] {
      assert rest[j] == order[j + 1];
    }
  }

  /** The part of `m` at the keys of a list is the part at its tail plus its head. */
  lemma VisitedCons<V>(m: Entries<V>, order: seq<string>)
    requires order != []
    requires forall k | k in order :: k in m
    requires forall k :: k in order <==> k == order[0] || k in order[1..]
    ensures order[0] in m
    ensures (map k | k in m && k in order :: m[k]) == (map k | k in m && k in order[1..] :: m[k])[order[0] := m[order[0]]]
  {
  }

  /** Appending at a key and then merging a map without that key is merging
      the map extended with that key. */
  lemma AppendedThenMerged<V>(e: Entries<V>, key: string, vals: seq<V>, m: Entries<V>)
    requires key !in m
    ensures Merged(Appended(e, key, vals), m) == Merged(e, m[key := vals])
  {
    var left, right := Merged(Appended(e, key, vals), m), Merged(e, m[key := vals]);
    forall k ensures Lookup(left, k) == Lookup(right, k) {
      AppendedThenMergedAt(e, key, vals, m, k);
    }
    EntriesExt(left, right);
  }

  /** `AppendedThenMerged` at one key. */
  lemma AppendedThenMergedAt<V>(e: Entries<V>, key: string, vals: seq<V>, m: Entries<V>, k: string)
    requires key !in m
    ensures Lookup(Merged(Appended(e, key, vals), m), k) == Lookup(Merged(e, m[key := vals]), k)
  {
    if k == key {
      assert Lookup(Appended(e, key, vals), k) + [] == Lookup(Appended(e, key, vals), k);
    }
  }

  /** The order in which the keys of `m` are visited does not matter: any
      enumeration of its keys without repeats gives the same result. */
  lemma MergeOrderIndependent<V>(e: Entries<V>, m: Entries<V>, order: seq<string>)
    requires forall k :: k in order <==> k in m
    requires forall i, j :: 0 <= i < j < |order| ==> order[i] != order[j]
    ensures MergeInOrder(e, m, order) == Merged(e, m)
  {
    MergeInOrderMergesVisited(e, m, order);
    VisitedAll(m, order);
  }

  /** The part of `m` at all of its keys is `m`. */
  lemma VisitedAll<V>(m: Entries<V>, order: seq<string>)
    requires forall k :: k in order <==> k in m
    ensures (map k | k in m && k in order :: m[k]) == m
  {
  }

  /** Appending at one key is merging a one-key map. */
  lemma AppendedIsMergedSingleton<V>(e: Entries<V>, key: string, vals: seq<V>)
    ensures Appended(e, key, vals) == Merged(e, map[key := vals])
  {
    EntriesExt(Appended(e, key, vals), Merged(e, map[key := vals]));
  }

  /** Regrouping a concatenation of three sequences. */
  lemma ConcatAssoc<V>(x: seq<V>, y: seq<V>, z: seq<V>)
    ensures x + y + z == x + (y + z)
  {
  }

  /** Two appends at the same key concatenate in call order; nothing is
      overwritten or removed. */
  lemma AppendedTwice<V>(e: Entries<V>, key: string, a: seq<V>, b: seq<V>)
    ensures Appended(Appended(e, key, a), key, b) == Appended(e, key, a + b)
  {
    ConcatAssoc(Lookup(e, key), a, b);
  }

  /** Two merges in a row equal one merge of the two maps merged together. */
  lemma MergedTwice<V>(e: Entries<V>, a: Entries<V>, b: Entries<V>)
    ensures Merged(Merged(e, a), b) == Merged(e, Merged(a, b))
  {
    var ea, ab := Merged(e, a), Merged(a, b);
    var left, right := Merged(ea, b), Merged(e, ab);
    forall k ensures Lookup(left, k) == Lookup(right, k) {
      ConcatAssoc(Lookup(e, k), Lookup(a, k), Lookup(b, k));
    }
    assert left.Keys == right.Keys;
    EntriesExt(left, right);
  }

  /** Appending at a key that is absent stores exactly the given values. */
  lemma AppendedNewKey<V>(e: Entries<V>, key: string, vals: seq<V>)
    requires key !in e
    ensures Appended(e, key, vals) == e[key := vals]
  {
    assert [] + vals == vals;
  }

  /** Merging a map whose keys are all new is the plain union of the two. */
  lemma MergedDisjoint<V>(e: Entries<V>, m: Entries<V>)
    requires e.Keys !! m.Keys
    ensures Merged(e, m) == e + m
  {
    var left, right := Merged(e, m), e + m;
    forall k ensures Lookup(left, k) == Lookup(right, k) {
      if k in e {
        assert Lookup(left, k) == e[k] + [];
      }
    }
    assert left.Keys == right.Keys;
    EntriesExt(left, right);
  }

  /** Merging an empty map changes nothing. */
  lemma MergedEmpty<V>(e: Entries<V>)
    ensures Merged(e, map[]) == e
  {
    forall k ensures Lookup(Merged(e, map[]), k) == Lookup(e, k) {
      assert Lookup(e, k) + [] == Lookup(e, k);
    }
    EntriesExt(Merged(e, map[]), e);
  }

  /** The keys of `src` that the loop of `AddContextMap` has already visited,
      with their sequences. */
  function Visited<V>(src: Entries<V>, todo: set<string>): (d: Entries<V>)
    ensures d.Keys == src.Keys - todo
  {
    map k | k in src && k !in todo :: src[k]
  }

  /** Before the loop nothing is visited and the contents are the old ones. */
  lemma MergeStart<V>(base: Entries<V>, src: Entries<V>)
    ensures base == Merged(base, Visited(src, src.Keys))
  {
    assert Visited(src, src.Keys) == map[];
    MergedEmpty(base);
  }

  /** One turn of the loop appends one more key of `src`. */
  lemma MergeStep<V>(base: Entries<V>, src: Entries<V>, todo: set<string>, key: string)
    requires key in todo && todo <= src.Keys
    ensures Appended(Merged(base, Visited(src, todo)), key, src[key]) == Merged(base, Visited(src, todo - {key}))
  {
    var before, after := Visited(src, todo), Visited(src, todo - {key});
    assert after == before[key := src[key]];
    AppendedIsMergedSingleton(Merged(base, before), key, src[key]);
    MergedTwice(base, before, map[key := src[key]]);
    MergedDisjoint(before, map[key := src[key]]);
    assert before + map[key := src[key]] == after;
  }

  /** After the loop every key of `src` is visited. */
  lemma MergeDone<V>(base: Entries<V>, src: Entries<V>)
    ensures Merged(base, Visited(src, {})) == Merged(base, src)
  {
    assert Visited(src, {}) == src;
  }

  /** What the cause contributes: its `Error()` text, which is opaque here. */
  datatype Cause = Cause(message: string)

  /** The outcome of `encoding/json.Marshal`, which is not part of this model. */
  datatype Marshalled = Marshalled(data: string) | MarshalError

  /** A `ContextFormatter`: the JSON default, or a caller-supplied renderer. */
  datatype Formatter<!V> = JsonFormatter | Custom(render: Entries<V> -> string)

  /** `JsonFormatter.Render`: the marshalled bytes as a string; the marshal
      error is dropped, so a failed marshal renders as the empty string. */
  function JsonRender<V>(e: Entries<V>, marshal: Entries<V> -> Marshalled): (s: string)
    ensures marshal(e).Marshalled? ==> s == marshal(e).data
    ensures marshal(e).MarshalError? ==> s == ""
  {
    match marshal(e)
    case Marshalled(d) => d
    case MarshalError => ""
  }

  /** Rendering a context with a formatter. */
  function Render<V>(f: Formatter<V>, e: Entries<V>, marshal: Entries<V> -> Marshalled): (s: string)
    ensures f.JsonFormatter? ==> s == JsonRender(e, marshal)
    ensures f.Custom? ==> s == f.render(e)
  {
    match f
    case JsonFormatter => JsonRender(e, marshal)
    case Custom(render) => render(e)
  }

  /** The first supplied formatter, or the JSON default when none is given. */
  function SelectFormatter<V>(formatter: seq<Formatter<V>>): (f: Formatter<V>)
    ensures |formatter| > 0 ==> f == formatter[0]
    ensures formatter == [] ==> f.JsonFormatter?
  {
    if |formatter| > 0 then formatter[0] else JsonFormatter
  }

  const ErrorPrefix: string := "Error: "
  const ContextPrefix: string := "Context: "

  /** The two-line error text built from a message and a rendered context. */
  function ErrorText(message: string, rendered: string): string
  {
    ErrorPrefix + message + "\n" + ContextPrefix + rendered
  }

  /** The position of the first `c` in `s`, or `|s|` when there is none. */
  function IndexOf(s: string, c: char): (i: nat)
    ensures i <= |s|
    ensures i < |s| ==> s[i] == c
    ensures forall j :: 0 <= j < i ==> s[j] != c
  {
    if s == [] then 0
    else if s[0] == c then 0
    else 1 + IndexOf(s[1..], c)
  }

  /** What follows `prefix` in `s`, if `s` starts with it. */
  function StripPrefix(s: string, prefix: string): (r: Option<string>)
    ensures r.Some? <==> |prefix| <= |s| && s[..|prefix|] == prefix
    ensures r.Some? ==> s == prefix + r.value
  {
    if |prefix| <= |s| && s[..|prefix|] == prefix then
      assert s == s[..|prefix|] + s[|prefix|..];
      Some(s[|prefix|..])
    else None
  }

  /** A prefix put in front is stripped off again. */
  lemma StripPrefixOfConcat(prefix: string, t: string)
    ensures StripPrefix(prefix + t, prefix) == Some(t)
  {
    assert (prefix + t)[..|prefix|] == prefix;
  }

  /** The text before the first newline and the text after it. */
  function SplitLine(s: string): (r: Option<(string, string)>)
    ensures r.None? <==> '\n' !in s
    ensures r.Some? ==> '\n' !in r.value.0 && s == r.value.0 + "\n" + r.value.1
  {
    var i := IndexOf(s, '\n');
    if i == |s| then None
    else
      SplitAround(s, i);
      Some((s[..i], s[i + 1..]))
  }

  /** A sequence is its part before `i`, its element at `i` and the rest. */
  lemma SplitAround(s: string, i: nat)
    requires i < |s|
    ensures s == s[..i] + [s[i]] + s[i + 1..]
  {
    assert s == s[..i] + s[i..];
    assert s[i..] == [s[i]] + s[i + 1..];
  }

  /** A line without a newline is split off exactly at its end. */
  lemma {:induction false} SplitLineOfConcat(line: string, rest: string)
    requires '\n' !in line
    ensures SplitLine(line + "\n" + rest) == Some((line, rest))
  {
    var s := line + "\n" + rest;
    var i := IndexOf(s, '\n');
    assert s[|line|] == '\n';
    assert i == |line|;
    assert s[..i] == line;
    assert s[i + 1..] == rest;
  }

  /** Reads an error text back into its message (the part before the first
      newline) and its rendered context. */
  function ParseErrorText(s: string): Option<(string, string)>
  {
    match StripPrefix(s, ErrorPrefix)
    case None => None
    case Some(rest) =>
      match SplitLine(rest)
      case None => None
      case Some((line, tail)) =>
        match StripPrefix(tail, ContextPrefix)
        case None => None
        case Some(rendered) => Some((line, rendered))
  }

  /** The text keeps the cause's message intact: a message without a newline
      and the rendered context are recovered exactly from it. */
  lemma ParseErrorTextRoundTrip(message: string, rendered: string)
    requires '\n' !in message
    ensures ParseErrorText(ErrorText(message, rendered)) == Some((message, rendered))
  {
    ErrorTextRegrouped(message, rendered);
    StripPrefixOfConcat(ErrorPrefix, message + "\n" + (ContextPrefix + rendered));
    SplitLineOfConcat(message, ContextPrefix + rendered);
    StripPrefixOfConcat(ContextPrefix, rendered);
  }

  /** Conversely, whatever parses is an error text with a one-line message. */
  lemma ParseErrorTextSound(s: string, message: string, rendered: string)
    requires ParseErrorText(s) == Some((message, rendered))
    ensures '\n' !in message
    ensures s == ErrorText(message, rendered)
  {
    ErrorTextRegrouped(message, rendered);
  }

  /** The error text grouped from the right. */
  lemma ErrorTextRegrouped(message: string, rendered: string)
    ensures ErrorPrefix + (message + "\n" + (ContextPrefix + rendered)) == ErrorText(message, rendered)
  {
    var p, m, n, c, r := ErrorPrefix, message, "\n", ContextPrefix, rendered;
    ConcatAssoc(m + n, c, r);
    ConcatAssoc(p, m + n + c, r);
    ConcatAssoc(p, m + n, c);
    ConcatAssoc(p, m, n);
  }

  /** Go's `Context`: a map, shared by reference. */
  class Context<V> {
    var entries: Entries<V>

    /** A map literal, `Context{...}`. */
    constructor (entries: Entries<V>)
      ensures this.entries == entries
    {
      this.entries := entries;
    }

    /** `Context.Wrap`: binds a fresh copy of this map to a cause and the
        selected formatter. The copy is filled key by key. */
    method Wrap(err: Cause, formatter: seq<Formatter<V>>) returns (se: StructuredError<V>)
      ensures fresh(se.ctx)
      ensures se.ctx.entries == entries
      ensures se.err == err && se.fmt == SelectFormatter(formatter)
    {
      var f := SelectFormatter(formatter);
      var ctx := new Context(map[]);
      var todo := entries.Keys;
      while todo != {}
        invariant todo <= entries.Keys
        invariant ctx.entries.Keys == entries.Keys - todo
        invariant forall k | k in ctx.entries :: ctx.entries[k] == entries[k]
        decreases todo
      {
        var k :| k in todo;
        ctx.entries := ctx.entries[k := Lookup(ctx.entries, k) + entries[k]];
        todo := todo - {k};
      }
      se := StructuredError(err, ctx, f);
    }
  }

  /** Go's `StructuredError` struct. Its methods have value receivers; the
      struct is copied, the map it refers to is not. */
  datatype StructuredError<!V> = StructuredError(err: Cause, ctx: Context<V>, fmt: Formatter<V>)
  {
    /** `Error()`: the cause's message, a newline, and the rendered context,
        with no trailing newline; a one-line message is recoverable from it. */
    function Error(marshal: Entries<V> -> Marshalled): (s: string)
      reads ctx
      ensures s == ErrorText(err.message, Render(fmt, ctx.entries, marshal))
      ensures '\n' !in err.message ==>
                ParseErrorText(s) == Some((err.message, Render(fmt, ctx.entries, marshal)))
    {
      var rendered := Render(fmt, ctx.entries, marshal);
      assert '\n' !in err.message ==> ParseErrorText(ErrorText(err.message, rendered)) == Some((err.message, rendered)) by {
        if '\n' !in err.message {
          ParseErrorTextRoundTrip(err.message, rendered);
        }
      }
      ErrorText(err.message, rendered)
    }

    /** `Context()`: the live map, not a copy. */
    function Context(): (c: Context<V>)
      ensures c == ctx
    {
      ctx
    }

    /** `AddContext`: appends `vals` at `key` in the shared map, in place,
        and returns the same struct. */
    method AddContext(key: string, vals: seq<V>) returns (r: StructuredError<V>)
      modifies ctx
      ensures r == this
      ensures ctx.entries == Appended(old(ctx.entries), key, vals)
    {
      ctx.entries := ctx.entries[key := Lookup(ctx.entries, key) + vals];
      r := this;
    }

    /** `AddContextMap`: for each key of `m`, appends its sequence in the
        shared map. `m` is read while the loop runs, so when `m` is the shared
        map itself every sequence is doubled; otherwise `m` is untouched. */
    method AddContextMap(m: Context<V>) returns (r: StructuredError<V>)
      modifies ctx
      ensures r == this
      ensures ctx.entries == Merged(old(ctx.entries), old(m.entries))
      ensures m != ctx ==> m.entries == old(m.entries)
    {
      ghost var base := ctx.entries;
      ghost var src := m.entries;
      var todo := m.entries.Keys;
      MergeStart(base, src);
      while todo != {}
        invariant todo <= src.Keys
        invariant m != ctx ==> m.entries == src
        invariant forall k | k in todo :: k in m.entries && m.entries[k] == src[k]
        invariant ctx.entries == Merged(base, Visited(src, todo))
        decreases todo
      {
        var k :| k in todo;
        var v := m.entries[k];
        MergeStep(base, src, todo, k);
        ctx.entries := Appended(ctx.entries, k, v);
        todo := todo - {k};
      }
      MergeDone(base, src);
      r := this;
    }
  }

  /** `Error()` depends only on the cause, the formatter and the current
      contents of the map: equal inputs give the same text. */
  lemma ErrorDeterministic<V>(a: StructuredError<V>, b: StructuredError<V>, marshal: Entries<V> -> Marshalled)
    requires a.err == b.err && a.fmt == b.fmt && a.ctx.entries == b.ctx.entries
    ensures a.Error(marshal) == b.Error(marshal)
  {
  }

  /** Package-level `Wrap`: wrapping with a fresh empty context. */
  method Wrap<V>(err: Cause, formatter: seq<Formatter<V>>) returns (se: StructuredError<V>)
    ensures fresh(se.ctx)
    ensures se.ctx.entries == map[]
    ensures se.err == err && se.fmt == SelectFormatter(formatter)
  {
    var empty := new Context<V>(map[]);
    se := empty.Wrap(err, formatter);
  }
}
