/**
  What the filter compiler promises: which query pairs reach the filter, how a
  prefixed key is dispatched, how operators on one field accumulate, and that
  processing a key once per matching pattern is the same as processing it once.
*/
module FilterProperties {
  import opened FilterCompiler

  /** The shape of every compiled entry: a string or Date literal, or an
      operator object whose `$in` operand is a one-element array, whose `$regex`
      operand is a compiled pattern and whose `$exists` operand is `true`. */
  predicate WellFormed(filter: Filter)
  {
    forall x :: x in filter ==> EntryShape(filter[x])
  }

  predicate EntryShape(e: Value)
  {
    e.Str? || e.Date? || (e.Obj? && OpsShape(e.ops))
  }

  predicate OpsShape(ops: map<Op, Value>)
  {
    && (In in ops ==> ops[In].List? && |ops[In].items| == 1)
    && (Regex in ops ==> ops[Regex].RegExp?)
    && (Exists in ops ==> ops[Exists] == Bool(true))
  }

  /** Each prefix, followed by any field, selects exactly its own operator and
      gives back that field: `$lte_x` is `x.$lte`, never `x.$lt`, and
      `$regexi_x` is a case-insensitive `x.$regex`. */
  lemma ClassifyRoundTrip(i: nat, field: string)
    requires i < |Rules|
    ensures Classify(Rules[i].prefix + field) == Prefixed(field, Rules[i].op, Rules[i].ignoreCase)
  {
    var k := Rules[i].prefix + field;
    assert Rules[i].prefix <= k;
    ClassifyAt(k, i);
    assert k[|Rules[i].prefix|..] == field;
  }

  /** The two prefix pairs that share a beginning are told apart. */
  lemma LongerPrefixesWin(field: string)
    ensures Classify("$lte_" + field) == Prefixed(field, Lte, false)
    ensures Classify("$gte_" + field) == Prefixed(field, Gte, false)
    ensures Classify("$regexi_" + field) == Prefixed(field, Regex, true)
  {
    ClassifyRoundTrip(1, field);
    ClassifyRoundTrip(3, field);
    ClassifyRoundTrip(7, field);
  }

  /** A second `addToFilter` on the same field and operator overwrites the
      slot the first one set. */
  lemma AddToFilterLastWins(filter: Filter, prop: string, key: Op, a: Value, b: Value)
    ensures AddToFilter(AddToFilter(filter, prop, key, a), prop, key, b) == AddToFilter(filter, prop, key, b)
  {
    if prop !in filter {
      AddTwiceToAbsent(filter, prop, key, a, b);
    } else if filter[prop].Obj? {
      AddTwiceToObject(filter, prop, key, a, b);
    }
  }

  lemma AddTwiceToAbsent(filter: Filter, prop: string, key: Op, a: Value, b: Value)
    requires prop !in filter
    ensures AddToFilter(AddToFilter(filter, prop, key, a), prop, key, b) == AddToFilter(filter, prop, key, b)
  {
    var a', b' := Wrap(key, a), Wrap(key, b);
    AddToAbsent(filter, prop, key, a);
    AddToAbsent(filter, prop, key, b);
    AddToObject(filter[prop := Obj(map[key := a'])], prop, key, b);
    assert map[key := a'][key := b'] == map[key := b'];
  }

  lemma AddTwiceToObject(filter: Filter, prop: string, key: Op, a: Value, b: Value)
    requires prop in filter && filter[prop].Obj?
    ensures AddToFilter(AddToFilter(filter, prop, key, a), prop, key, b) == AddToFilter(filter, prop, key, b)
  {
    var ops, a', b' := filter[prop].ops, Wrap(key, a), Wrap(key, b);
    AddToObject(filter, prop, key, a);
    AddToObject(filter, prop, key, b);
    AddToObject(filter[prop := Obj(ops[key := a'])], prop, key, b);
    assert ops[key := a'][key := b'] == ops[key := b'];
  }

  /** A second dispatch of the same key overwrites what the first one wrote,
      and nothing else: the same operator slot, or the same plain field. With
      equal values this is idempotence. */
  lemma ApplyLastWins(filter: Filter, k: string, v: Value, w: Value)
    ensures Apply(Apply(filter, k, v), k, w) == Apply(filter, k, w)
  {
    match Classify(k)
    case Plain =>
      assert filter[k := v][k := w] == filter[k := w];
    case Prefixed(field, op, ignoreCase) =>
      AddToFilterLastWins(filter, field, op,
        if op == Regex then RegExp(v, ignoreCase) else v,
        if op == Regex then RegExp(w, ignoreCase) else w);
  }

  /** A key that matches several patterns is dispatched once per match, which
      comes to the same filter as one dispatch; a key that matches none is
      skipped. */
  lemma {:induction false} ProcessKeyOnce(filter: Filter, k: string, v: Value, patterns: seq<string>, matches: Matcher)
    ensures ProcessKey(filter, k, v, patterns, matches)
      == if AnyMatch(k, patterns, matches) then Apply(filter, k, v) else filter
    decreases |patterns|
  {
    if patterns != [] {
      var n := |patterns| - 1;
      var init := patterns[..n];
      ProcessKeyOnce(filter, k, v, init, matches);
      if AnyMatch(k, init, matches) {
        var i :| 0 <= i < |init| && matches(k, init[i]);
        assert patterns[i] == init[i];
        ApplyLastWins(filter, k, v, v);
      }
      if matches(k, patterns[n]) {
        assert AnyMatch(k, patterns, matches);
      } else if AnyMatch(k, patterns, matches) {
        var i :| 0 <= i < |patterns| && matches(k, patterns[i]);
        assert init[i] == patterns[i];
      }
    }
  }

  /** The compiled filter holds exactly the fields targeted by query pairs whose
      value is a non-empty string or a Date and whose raw key, prefix and all,
      matches a permitted pattern. */
  lemma {:induction false} CompileDomain(patterns: seq<string>, query: Query, matches: Matcher)
    ensures forall x :: x in Compile(patterns, query, matches) <==>
      exists i :: 0 <= i < |query| && Contributes(query[i], patterns, matches) && Target(query[i].0) == x
    decreases |query|
  {
    if query != [] {
      var n := |query| - 1;
      var init := query[..n];
      CompileDomain(patterns, init, matches);
      var (k, raw) := query[n];
      if Admissible(raw) {
        ProcessKeyOnce(Compile(patterns, init, matches), k, Operand(raw), patterns, matches);
      }
      forall x
        ensures x in Compile(patterns, query, matches) <==>
          exists i :: 0 <= i < |query| && Contributes(query[i], patterns, matches) && Target(query[i].0) == x
      {
        if x in Compile(patterns, query, matches) {
          if x in Compile(patterns, init, matches) {
            var i :| 0 <= i < |init| && Contributes(init[i], patterns, matches) && Target(init[i].0) == x;
            assert query[i] == init[i];
          } else {
            assert Contributes(query[n], patterns, matches) && Target(query[n].0) == x;
          }
        }
        if exists i :: 0 <= i < |query| && Contributes(query[i], patterns, matches) && Target(query[i].0) == x {
          var i :| 0 <= i < |query| && Contributes(query[i], patterns, matches) && Target(query[i].0) == x;
          if i < n {
            assert init[i] == query[i];
          }
        }
      }
    }
  }

  /** Without permitted patterns the filter is empty. */
  lemma {:induction false} NoPatternsNoFilter(query: Query, matches: Matcher)
    ensures Compile([], query, matches) == map[]
  {
    CompileDomain([], query, matches);
    assert Compile([], query, matches).Keys == {};
  }

  /** Appending one pair to the query dispatches it once if it takes part and
      leaves the filter alone otherwise. */
  lemma CompileSnoc(patterns: seq<string>, query: Query, k: string, v: QueryValue, matches: Matcher)
    ensures Compile(patterns, query + [(k, v)], matches) ==
      if Contributes((k, v), patterns, matches)
      then Apply(Compile(patterns, query, matches), k, Operand(v))
      else Compile(patterns, query, matches)
  {
    var q := query + [(k, v)];
    assert q[..|q| - 1] == query;
    if Admissible(v) {
      ProcessKeyOnce(Compile(patterns, query, matches), k, Operand(v), patterns, matches);
    }
  }

  /** A one-pair query. */
  lemma CompileSingle(patterns: seq<string>, a: (string, QueryValue), matches: Matcher)
    ensures Compile(patterns, [a], matches) ==
      if Contributes(a, patterns, matches) then Apply(map[], a.0, Operand(a.1)) else map[]
  {
    assert [a] == [] + [a];
    CompileSnoc(patterns, [], a.0, a.1, matches);
  }

  /** A two-pair query. */
  lemma CompilePair(patterns: seq<string>, a: (string, QueryValue), b: (string, QueryValue), matches: Matcher)
    ensures Compile(patterns, [a, b], matches) ==
      if Contributes(b, patterns, matches)
      then Apply(Compile(patterns, [a], matches), b.0, Operand(b.1))
      else Compile(patterns, [a], matches)
  {
    assert [a, b] == [a] + [b];
    CompileSnoc(patterns, [a], b.0, b.1, matches);
  }

  /** The dispatch of a key made of the prefix of `Rules[i]` and a field. */
  lemma ApplyPrefixed(filter: Filter, i: nat, field: string, v: Value)
    requires i < |Rules|
    ensures Apply(filter, Rules[i].prefix + field, v) ==
      AddToFilter(filter, field, Rules[i].op, if Rules[i].op == Regex then RegExp(v, Rules[i].ignoreCase) else v)
  {
    ClassifyRoundTrip(i, field);
  }

  /** `addToFilter` on a field that holds an operator object sets one slot. */
  lemma AddToObject(filter: Filter, prop: string, key: Op, val: Value)
    requires prop in filter && filter[prop].Obj?
    ensures AddToFilter(filter, prop, key, val) == filter[prop := Obj(filter[prop].ops[key := Wrap(key, val)])]
  {
  }

  /** `addToFilter` on an absent field creates a one-slot operator object. */
  lemma AddToAbsent(filter: Filter, prop: string, key: Op, val: Value)
    requires prop !in filter
    ensures AddToFilter(filter, prop, key, val) == filter[prop := Obj(map[key := Wrap(key, val)])]
  {
  }

  /** Every compiled filter has the shape of `WellFormed`; in particular every
      `$in` operand is an array, even though query values are never arrays. */
  lemma {:induction false} CompileWellFormed(patterns: seq<string>, query: Query, matches: Matcher)
    ensures WellFormed(Compile(patterns, query, matches))
    decreases |query|
  {
    if query != [] {
      var n := |query| - 1;
      var init := query[..n];
      CompileWellFormed(patterns, init, matches);
      var (k, raw) := query[n];
      if Admissible(raw) {
        var before := Compile(patterns, init, matches);
        ProcessKeyOnce(before, k, Operand(raw), patterns, matches);
        ApplyKeepsShape(before, k, Operand(raw));
      }
    }
  }

  /** A pair that does not take part (an empty string, a value that is neither
      string nor Date, or a raw key no pattern matches) leaves the filter as it
      was. */
  lemma DroppedPairChangesNothing(patterns: seq<string>, query: Query, k: string, v: QueryValue, matches: Matcher)
    requires !Contributes((k, v), patterns, matches)
    ensures Compile(patterns, query + [(k, v)], matches) == Compile(patterns, query, matches)
  {
    CompileSnoc(patterns, query, k, v, matches);
  }

  /** A pair that does not take part can be removed from anywhere in the
      query, not only from its end. */
  lemma {:induction false} DroppedPairAnywhere(patterns: seq<string>, before: Query, k: string, v: QueryValue, after: Query, matches: Matcher)
    requires !Contributes((k, v), patterns, matches)
    ensures Compile(patterns, before + [(k, v)] + after, matches) == Compile(patterns, before + after, matches)
    decreases |after|
  {
    if after == [] {
      assert before + [(k, v)] + after == before + [(k, v)];
      assert before + after == before;
      DroppedPairChangesNothing(patterns, before, k, v, matches);
    } else {
      var rest, last := after[..|after| - 1], after[|after| - 1];
      assert before + [(k, v)] + after == (before + [(k, v)] + rest) + [last];
      assert before + after == (before + rest) + [last];
      DroppedPairAnywhere(patterns, before, k, v, rest, matches);
      CompileSnoc(patterns, before + [(k, v)] + rest, last.0, last.1, matches);
      CompileSnoc(patterns, before + rest, last.0, last.1, matches);
    }
  }

  /** One dispatch of a substituted query value keeps the entry shapes. */
  lemma ApplyKeepsShape(filter: Filter, k: string, v: Value)
    requires WellFormed(filter)
    requires v.Str? || v.Date? || v == ExistsCheck
    ensures WellFormed(Apply(filter, k, v))
  {
    var d := Classify(k);
    if d.Plain? {
      assert EntryShape(v);
    } else {
      ClassifyOps(k);
      var field, op := d.field, d.op;
      var w := if op == Regex then RegExp(v, d.ignoreCase) else v;
      var r := AddToFilter(filter, field, op, w);
      assert r == Apply(filter, k, v);
      if field !in filter || filter[field].Obj? {
        assert r[field] == Obj(OpsAt(filter, field)[op := Wrap(op, w)]);
        SetSlotKeepsShape(OpsAt(filter, field), op, w);
      }
    }
  }

  /** Setting one operator slot, other than `$exists`, to a scalar (a compiled
      pattern under `$regex`) keeps an operator object's shape. */
  lemma SetSlotKeepsShape(ops: map<Op, Value>, op: Op, w: Value)
    requires OpsShape(ops) && op != Exists
    requires !w.List? && (op == Regex ==> w.RegExp?)
    ensures OpsShape(ops[op := Wrap(op, w)])
  {
  }

  /** A two-pair query both of whose pairs take part is two dispatches. */
  lemma CompileTwo(patterns: seq<string>, a: (string, QueryValue), b: (string, QueryValue), matches: Matcher)
    requires Contributes(a, patterns, matches) && Contributes(b, patterns, matches)
    ensures Compile(patterns, [a, b], matches) == Apply(Apply(map[], a.0, Operand(a.1)), b.0, Operand(b.1))
  {
    CompilePair(patterns, a, b, matches);
    CompileSingle(patterns, a, matches);
  }

  /** `$gte_f` on an empty filter creates the operator object of `f`. */
  lemma LowerBoundOnEmpty(field: string, lo: Value)
    ensures Apply(map[], "$gte_" + field, lo) == map[field := Obj(map[Gte := Wrap(Gte, lo)])]
  {
    ApplyPrefixed(map[], 3, field, lo);
    AddToAbsent(map[], field, Gte, lo);
  }

  /** `$gte_f` then `$lte_f` on an empty filter build one object with both bounds. */
  lemma RangeBounds(field: string, lo: Value, hi: Value)
    ensures Apply(Apply(map[], "$gte_" + field, lo), "$lte_" + field, hi)
      == map[field := Obj(map[Gte := Wrap(Gte, lo), Lte := Wrap(Lte, hi)])]
  {
    var first := map[field := Obj(map[Gte := Wrap(Gte, lo)])];
    LowerBoundOnEmpty(field, lo);
    ApplyPrefixed(first, 1, field, hi);
    AddToObject(first, field, Lte, hi);
    assert map[Gte := Wrap(Gte, lo)][Lte := Wrap(Lte, hi)] == map[Gte := Wrap(Gte, lo), Lte := Wrap(Lte, hi)];
  }

  /** An unprefixed key that takes part stores its value under the whole key,
      replacing whatever was there. */
  lemma PlainKeyReplaces(patterns: seq<string>, query: Query, k: string, v: QueryValue, matches: Matcher)
    requires Classify(k) == Plain && Admissible(v) && AnyMatch(k, patterns, matches)
    ensures Compile(patterns, query + [(k, v)], matches) == Compile(patterns, query, matches)[k := Operand(v)]
  {
    CompileSnoc(patterns, query, k, v, matches);
  }

  /** `$gte_f=lo` followed by `$lte_f=hi` gives one operator object holding both
      bounds, provided both raw keys are permitted. */
  lemma RangeOnOneField(patterns: seq<string>, field: string, lo: string, hi: string, matches: Matcher)
    requires AnyMatch("$gte_" + field, patterns, matches) && AnyMatch("$lte_" + field, patterns, matches)
    requires lo != "" && lo != "$exists" && hi != "" && hi != "$exists"
    ensures Compile(patterns, [("$gte_" + field, QText(lo)), ("$lte_" + field, QText(hi))], matches)
      == map[field := Obj(map[Gte := Str(lo), Lte := Str(hi)])]
  {
    CompileTwo(patterns, ("$gte_" + field, QText(lo)), ("$lte_" + field, QText(hi)), matches);
    RangeBounds(field, Str(lo), Str(hi));
  }

  /** An operator on a field that already holds a string literal is dropped
      (assigning a property to a string primitive does nothing). */
  lemma OperatorAfterStringLiteral(patterns: seq<string>, field: string, a: string, b: string, matches: Matcher)
    requires Classify(field) == Plain
    requires AnyMatch(field, patterns, matches) && AnyMatch("$gt_" + field, patterns, matches)
    requires a != "" && a != "$exists" && b != ""
    ensures Compile(patterns, [(field, QText(a)), ("$gt_" + field, QText(b))], matches) == map[field := Str(a)]
  {
    var p, q := (field, QText(a)), ("$gt_" + field, QText(b));
    assert [p, q] == [] + [p] + [q];
    CompileSnoc(patterns, [], p.0, p.1, matches);
    CompileSnoc(patterns, [p], q.0, q.1, matches);
    ApplyPrefixed(map[field := Str(a)], 2, field, Operand(QText(b)));
  }

  /** A `$gt_f` dispatch on a field holding the `$exists` object adds `$gt`
      next to `$exists`. */
  lemma GtNextToExists(field: string, v: Value)
    ensures Apply(map[field := ExistsCheck], "$gt_" + field, v)
      == map[field := Obj(map[Exists := Bool(true), Gt := Wrap(Gt, v)])]
  {
    ApplyPrefixed(map[field := ExistsCheck], 2, field, v);
    AddToObject(map[field := ExistsCheck], field, Gt, v);
    assert map[Exists := Bool(true)][Gt := Wrap(Gt, v)] == map[Exists := Bool(true), Gt := Wrap(Gt, v)];
  }

  /** The object stored for `'$exists'` is an object, so a later operator on
      the same field is added next to `$exists`. */
  lemma OperatorAfterExists(patterns: seq<string>, field: string, b: string, matches: Matcher)
    requires Classify(field) == Plain
    requires AnyMatch(field, patterns, matches) && AnyMatch("$gt_" + field, patterns, matches)
    requires b != "" && b != "$exists"
    ensures Compile(patterns, [(field, QText("$exists")), ("$gt_" + field, QText(b))], matches)
      == map[field := Obj(map[Exists := Bool(true), Gt := Str(b)])]
  {
    CompileTwo(patterns, (field, QText("$exists")), ("$gt_" + field, QText(b)), matches);
    GtNextToExists(field, Str(b));
  }

  /** A permitted `$in_f` pair alone gives `f` an operator object whose `$in`
      operand is the one-element array of the substituted value. */
  lemma InWrapsOperand(patterns: seq<string>, field: string, v: QueryValue, matches: Matcher)
    requires Admissible(v) && AnyMatch("$in_" + field, patterns, matches)
    ensures Compile(patterns, [("$in_" + field, v)], matches)
      == map[field := Obj(map[In := List([Operand(v)])])]
  {
    CompileSingle(patterns, ("$in_" + field, v), matches);
    ApplyPrefixed(map[], 4, field, Operand(v));
    AddToAbsent(map[], field, In, Operand(v));
  }

  /** `'$exists'` under `$in_` is wrapped like any other scalar. */
  lemma ExistsUnderIn(patterns: seq<string>, field: string, matches: Matcher)
    requires AnyMatch("$in_" + field, patterns, matches)
    ensures Compile(patterns, [("$in_" + field, QText("$exists"))], matches)
      == map[field := Obj(map[In := List([ExistsCheck])])]
  {
    InWrapsOperand(patterns, field, QText("$exists"), matches);
  }

  /** Glob matching taken as plain equality, for the worked examples. */
  function Exact(k: string, pattern: string): bool
  {
    k == pattern
  }

  /** Patterns are matched against the raw key: `age` does not admit `$in_age`,
      the pattern `$in_age` does, and the scalar is wrapped into an array. */
  lemma RawKeyIsMatched()
    ensures Compile(["age"], [("$in_age", QText("5"))], Exact) == map[]
    ensures Compile(["$in_age"], [("$in_age", QText("5"))], Exact)
      == map["age" := Obj(map[In := List([Str("5")])])]
  {
    UnprefixedPatternRefuses();
    PrefixedPatternAdmits();
  }

  lemma UnprefixedPatternRefuses()
    ensures Compile(["age"], [("$in_age", QText("5"))], Exact) == map[]
  {
    var p := ("$in_age", QText("5"));
    assert [p] == [] + [p];
    assert !AnyMatch("$in_age", ["age"], Exact) by {
      assert "$in_age" != "age";
    }
    CompileSnoc(["age"], [], p.0, p.1, Exact);
  }

  lemma PrefixedPatternAdmits()
    ensures Compile(["$in_age"], [("$in_age", QText("5"))], Exact)
      == map["age" := Obj(map[In := List([Str("5")])])]
  {
    assert "$in_" + "age" == "$in_age";
    assert AnyMatch("$in_age", ["$in_age"], Exact) by {
      assert Exact("$in_age", ["$in_age"][0]);
    }
    InWrapsOperand(["$in_age"], "age", QText("5"), Exact);
  }
}
