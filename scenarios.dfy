/** Client code for package serr, following the package's own tests and the
    aliasing that the shared context map gives rise to. */
module SerrScenarios {
  import opened Serr

  /** What encoding/json produces for the contexts built below (sorted keys). */
  const WrapJson: string := "{\"multi_1\":[\"multi\",\"one\"],\"multi_2\":[\"multi\",\"two\"],\"single\":[\"single data\"]}"
  const ContextWrapJson: string := "{\"base\":[\"data\"],\"multi_1\":[\"multi\",\"one\"],\"multi_2\":[\"multi\",\"two\"],\"single\":[\"single data\"]}"

  /** The map added with `AddContextMap` in both tests, and the contents each
      test expects afterwards. */
  const Multi: Entries<string> := map["multi_1" := ["multi", "one"], "multi_2" := ["multi", "two"]]
  const WrapExpected: Entries<string> := map["single" := ["single data"], "multi_1" := ["multi", "one"], "multi_2" := ["multi", "two"]]
  const ContextWrapExpected: Entries<string> :=
    map["base" := ["data"], "single" := ["single data"], "multi_1" := ["multi", "one"], "multi_2" := ["multi", "two"]]

  lemma WrapContents()
    ensures Merged(Appended(map[], "single", ["single data"]), Multi) == WrapExpected
  {
    AppendedNewKey(map[], "single", ["single data"]);
    MergedDisjoint(map["single" := ["single data"]], Multi);
  }

  lemma ContextWrapContents()
    ensures Merged(Appended(map["base" := ["data"]], "single", ["single data"]), Multi) == ContextWrapExpected
  {
    AppendedNewKey(map["base" := ["data"]], "single", ["single data"]);
    MergedDisjoint(map["base" := ["data"], "single" := ["single data"]], Multi);
  }

  lemma BaseErrorText(rendered: string)
    ensures ErrorText("base error", rendered) == "Error: base error\nContext: " + rendered
  {
  }

  /** `Wrap` then additions whose results are thrown away: the receiver, and
      a `Context()` taken before the additions, both see them, because all of
      them share one map. */
  method WrapThenAdd(marshal: Entries<string> -> Marshalled)
    returns (earlier: Entries<string>, current: Entries<string>, text: string)
    requires marshal(WrapExpected) == Marshalled(WrapJson)
    ensures current == WrapExpected && earlier == current
    ensures text == "Error: base error\nContext: " + WrapJson
  {
    var se := Wrap<string>(Cause("base error"), []);
    var live := se.Context();
    var discarded := se.AddContext("single", ["single data"]);
    var extra := new Context(Multi);
    discarded := se.AddContextMap(extra);
    WrapContents();
    current := se.Context().entries;
    earlier := live.entries;
    text := se.Error(marshal);
    BaseErrorText(WrapJson);
  }

  /** `Context.Wrap` copies: additions on the error leave the base map as it was. */
  method ContextWrapThenAdd(marshal: Entries<string> -> Marshalled)
    returns (base: Entries<string>, current: Entries<string>, text: string)
    requires marshal(ContextWrapExpected) == Marshalled(ContextWrapJson)
    ensures current == ContextWrapExpected
    ensures base == map["base" := ["data"]]
    ensures text == "Error: base error\nContext: " + ContextWrapJson
  {
    var ectx := new Context(map["base" := ["data"]]);
    var se := ectx.Wrap(Cause("base error"), []);
    var discarded := se.AddContext("single", ["single data"]);
    var extra := new Context(Multi);
    discarded := se.AddContextMap(extra);
    ContextWrapContents();
    current := se.Context().entries;
    base := ectx.entries;
    text := se.Error(marshal);
    BaseErrorText(ContextWrapJson);
  }

  /** Two errors wrapped from one base do not see each other's additions,
      while the value returned by an addition shares the map of its receiver. */
  method TwoChainsFromOneBase<V>(err: Cause, base: Entries<V>, key: string, vals: seq<V>)
    returns (first: Entries<V>, returned: Entries<V>, second: Entries<V>, original: Entries<V>)
    ensures first == Appended(base, key, vals) && returned == first
    ensures second == base && original == base
  {
    var c := new Context(base);
    var se1 := c.Wrap(err, []);
    var se2 := c.Wrap(err, []);
    var r := se1.AddContext(key, vals);
    first, returned, second, original := se1.ctx.entries, r.ctx.entries, se2.ctx.entries, c.entries;
  }

  /** Two additions at one key keep both, in call order. */
  method AddTwice<V>(err: Cause, key: string, a: seq<V>, b: seq<V>) returns (got: seq<V>)
    ensures got == a + b
  {
    var se := Wrap<V>(err, []);
    var r := se.AddContext(key, a);
    r := se.AddContext(key, b);
    got := se.ctx.entries[key];
  }

  /** Merging an error's own map into it doubles every sequence, since the
      loop reads each key's sequence before writing it. */
  method MergeIntoItself<V>(err: Cause, base: Entries<V>) returns (after: Entries<V>)
    ensures after.Keys == base.Keys
    ensures forall k | k in base :: after[k] == base[k] + base[k]
  {
    var c := new Context(base);
    var se := c.Wrap(err, []);
    var r := se.AddContextMap(se.Context());
    after := se.ctx.entries;
  }

  /** A custom formatter given at wrap time is the one that renders, and the
      text is the same on every call. */
  method CustomFormatter<V>(message: string, render: Entries<V> -> string, marshal: Entries<V> -> Marshalled)
    returns (text1: string, text2: string)
    ensures text1 == text2 == ErrorText(message, render(map[]))
  {
    var se := Wrap(Cause(message), [Custom(render)]);
    text1 := se.Error(marshal);
    text2 := se.Error(marshal);
  }

  /** A marshal failure, such as a stored value that cannot be serialised,
      is dropped: the context part of the text is empty. */
  method MarshalFailure<V>(message: string, key: string, vals: seq<V>, marshal: Entries<V> -> Marshalled)
    returns (text: string)
    requires marshal(map[key := vals]) == MarshalError
    ensures text == ErrorText(message, "")
  {
    var se := Wrap<V>(Cause(message), []);
    var r := se.AddContext(key, vals);
    AppendedNewKey(map[], key, vals);
    text := se.Error(marshal);
  }
}
