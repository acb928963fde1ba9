/**
  The query-string filter compiler of an endpoint (`$$constructFilterFromRequest`
  and its helper `addToFilter`, lib/endpoint.js:402-455).

  The permitted patterns (`options.queryParams`) decide which query keys may take
  part; a key's operator prefix decides where its value lands in the Mongo-style
  filter. Glob matching is a parameter (`Matcher`), a compiled regular
  expression is the opaque value `RegExp(source, ignoreCase)`.
*/
module FilterCompiler {

  /** The Mongo query operators the compiler can place under a field. */
  datatype Op = Lt | Lte | Gt | Gte | In | Ne | Regex | Exists

  /** A value stored in a filter, either as a field's literal or as an operand. */
  datatype Value =
    | Str(s: string)
    | Date(ms: int)
    | Bool(b: bool)
    | List(items: seq<Value>)
    | RegExp(source: Value, ignoreCase: bool)
    | Obj(ops: map<Op, Value>)

  /** A value of the parsed query string: a string, a Date, or anything else
      (arrays and nested objects produced by the query parser). */
  datatype QueryValue = QText(text: string) | QDate(ms: int) | QOther

  /** The filter object: field path to literal or operator object. */
  type Filter = map<string, Value>

  /** The query pairs in the order a `for..in` loop visits them. */
  type Query = seq<(string, QueryValue)>

  /** `minimatch(key, pattern)`. */
  type Matcher = (string, string) -> bool

  /** The object `{$exists: true}` that replaces the raw value `'$exists'`. */
  const ExistsCheck: Value := Obj(map[Exists := Bool(true)])

  /** One operator prefix: the key prefix, the operator it selects and, for
      `$regexi_`, that the pattern is compiled case-insensitively. */
  datatype Rule = Rule(prefix: string, op: Op, ignoreCase: bool)

  /** The prefixes in the order the source tests them. */
  const Rules: seq<Rule> := [
    Rule("$lt_", Lt, false),
    Rule("$lte_", Lte, false),
    Rule("$gt_", Gt, false),
    Rule("$gte_", Gte, false),
    Rule("$in_", In, false),
    Rule("$ne_", Ne, false),
    Rule("$regex_", Regex, false),
    Rule("$regexi_", Regex, true)
  ]

  /** How a key is dispatched: a direct equality, or an operator on a field. */
  datatype Dispatch = Plain | Prefixed(field: string, op: Op, ignoreCase: bool)

  /** The first rule of `rules` whose prefix starts `k`; the field is `k` with
      that prefix removed. */
  function FirstRule(k: string, rules: seq<Rule>): Dispatch
  {
    if rules == [] then Plain
    else if rules[0].prefix <= k then Prefixed(k[|rules[0].prefix|..], rules[0].op, rules[0].ignoreCase)
    else FirstRule(k, rules[1..])
  }

  /** `FirstRule` is plain exactly when no prefix starts the key, and otherwise
      comes from the earliest rule whose prefix does. */
  lemma {:induction false} FirstRuleFinds(k: string, rules: seq<Rule>)
    ensures FirstRule(k, rules).Plain? <==> forall i :: 0 <= i < |rules| ==> !(rules[i].prefix <= k)
    ensures FirstRule(k, rules).Prefixed? ==>
      exists i :: 0 <= i < |rules| && rules[i].prefix <= k
        && FirstRule(k, rules) == Prefixed(k[|rules[i].prefix|..], rules[i].op, rules[i].ignoreCase)
        && forall j :: 0 <= j < i ==> !(rules[j].prefix <= k)
  {
    if rules != [] && !(rules[0].prefix <= k) {
      var d := FirstRule(k, rules[1..]);
      FirstRuleFinds(k, rules[1..]);
      assert forall i :: 1 <= i < |rules| ==> rules[i] == rules[1..][i - 1];
      if d.Prefixed? {
        var i :| 0 <= i < |rules[1..]| && rules[1..][i].prefix <= k
          && d == Prefixed(k[|rules[1..][i].prefix|..], rules[1..][i].op, rules[1..][i].ignoreCase)
          && forall j :: 0 <= j < i ==> !(rules[1..][j].prefix <= k);
        assert rules[i + 1] == rules[1..][i];
      }
    }
  }

  /** The prefix dispatch of a raw query key. */
  function Classify(k: string): Dispatch
  {
    FirstRule(k, Rules)
  }

  /** The field a key writes: the key itself, or the key without its prefix. */
  function Target(k: string): string
  {
    match Classify(k)
    case Plain => k
    case Prefixed(field, _, _) => field
  }

  /** `v && (_.isString(v) || v instanceof Date)`: a non-empty string or a Date. */
  predicate Admissible(v: QueryValue)
  {
    (v.QText? && v.text != "") || v.QDate?
  }

  /** The query value as a stored value. */
  function ToValue(v: QueryValue): Value
    requires !v.QOther?
  {
    match v
    case QText(s) => Str(s)
    case QDate(ms) => Date(ms)
  }

  /** The value after the `'$exists'` substitution. */
  function Operand(v: QueryValue): (r: Value)
    requires Admissible(v)
    ensures r == ExistsCheck <==> v == QText("$exists")
    ensures r != ExistsCheck ==> r == ToValue(v)
  {
    if ToValue(v) == Str("$exists") then ExistsCheck else ToValue(v)
  }

  /** The operand actually stored under `key`: `$in` wraps a non-array. */
  function Wrap(key: Op, val: Value): Value
  {
    if key == In && !val.List? then List([val]) else val
  }

  /** The operator object currently stored at `prop`, or none. */
  function OpsAt(filter: Filter, prop: string): map<Op, Value>
  {
    if prop in filter && filter[prop].Obj? then filter[prop].ops else map[]
  }

  /** `addToFilter(filter, prop, key, val)`: sets one operator slot of `prop`,
      creating the operator object when the field is absent. A field holding a
      string or Date literal is left as it is. */
  function AddToFilter(filter: Filter, prop: string, key: Op, val: Value): (r: Filter)
    ensures r.Keys == filter.Keys + {prop}
    ensures forall x :: x in filter && x != prop ==> r[x] == filter[x]
    ensures prop in filter && !filter[prop].Obj? ==> r[prop] == filter[prop]
    ensures prop !in filter || filter[prop].Obj? ==>
      && r[prop].Obj?
      && r[prop].ops.Keys == OpsAt(filter, prop).Keys + {key}
      && r[prop].ops[key] == Wrap(key, val)
      && forall o :: o in OpsAt(filter, prop) && o != key ==> r[prop].ops[o] == OpsAt(filter, prop)[o]
  {
    var v := Wrap(key, val);
    if prop in filter then
      match filter[prop]
      case Obj(ops) => filter[prop := Obj(ops[key := v])]
      case _ => filter
    else
      filter[prop := Obj(map[key := v])]
  }

  /** One pass of the dispatch for a key that matched a pattern, with the value
      already substituted. */
  function Apply(filter: Filter, k: string, v: Value): (r: Filter)
    ensures r.Keys == filter.Keys + {Target(k)}
    ensures forall x :: x in filter && x != Target(k) ==> r[x] == filter[x]
  {
    match Classify(k)
    case Plain => filter[k := v]
    case Prefixed(field, op, ignoreCase) =>
      AddToFilter(filter, field, op, if op == Regex then RegExp(v, ignoreCase) else v)
  }

  /** Some permitted pattern matches the raw key. */
  predicate AnyMatch(k: string, patterns: seq<string>, matches: Matcher)
  {
    exists i :: 0 <= i < |patterns| && matches(k, patterns[i])
  }

  /** The inner loop: one `Apply` per pattern that matches `k`, in order. */
  function ProcessKey(filter: Filter, k: string, v: Value, patterns: seq<string>, matches: Matcher): Filter
    decreases |patterns|
  {
    if patterns == [] then filter
    else
      var before := ProcessKey(filter, k, v, patterns[..|patterns| - 1], matches);
      if matches(k, patterns[|patterns| - 1]) then Apply(before, k, v) else before
  }

  /** A query pair takes part in the filter. */
  predicate Contributes(pair: (string, QueryValue), patterns: seq<string>, matches: Matcher)
  {
    Admissible(pair.1) && AnyMatch(pair.0, patterns, matches)
  }

  /** The filter compiled from the query pairs, visited in order. */
  function Compile(patterns: seq<string>, query: Query, matches: Matcher): Filter
    decreases |query|
  {
    if query == [] then map[]
    else
      var before := Compile(patterns, query[..|query| - 1], matches);
      var (k, raw) := query[|query| - 1];
      if Admissible(raw) then ProcessKey(before, k, Operand(raw), patterns, matches) else before
  }

  /** The field `k` designates when `prefix` starts it. */
  lemma ClassifyAt(k: string, i: nat)
    requires i < |Rules| && Rules[i].prefix <= k
    ensures Classify(k) == Prefixed(k[|Rules[i].prefix|..], Rules[i].op, Rules[i].ignoreCase)
  {
    var d := Classify(k);
    FirstRuleFinds(k, Rules);
    assert d.Prefixed?;
    var j :| 0 <= j < |Rules| && Rules[j].prefix <= k
      && d == Prefixed(k[|Rules[j].prefix|..], Rules[j].op, Rules[j].ignoreCase)
      && forall j' :: 0 <= j' < j ==> !(Rules[j'].prefix <= k);
    PrefixesDisjoint(i, j, k);
  }

  /** The operators a prefix can select: never `$exists`, and `$regex` only
      through the two regex prefixes, which compile the value. */
  lemma ClassifyOps(k: string)
    ensures Classify(k).Prefixed? ==> Classify(k).op != Exists
  {
    var d := Classify(k);
    FirstRuleFinds(k, Rules);
    if d.Prefixed? {
      var i :| 0 <= i < |Rules| && Rules[i].prefix <= k
        && d == Prefixed(k[|Rules[i].prefix|..], Rules[i].op, Rules[i].ignoreCase);
      assert i == 0 || i == 1 || i == 2 || i == 3 || i == 4 || i == 5 || i == 6 || i == 7;
    }
  }

  /** Every prefix ends in its only underscore. */
  lemma RuleShape(i: nat)
    requires i < |Rules|
    ensures |Rules[i].prefix| >= 4 && Rules[i].prefix[|Rules[i].prefix| - 1] == '_'
    ensures forall t :: 0 <= t < |Rules[i].prefix| - 1 ==> Rules[i].prefix[t] != '_'
    ensures RuleIndex(Rules[i].prefix) == i
  {
  }

  /** The position of a prefix in `Rules` (8 for any other string). */
  function RuleIndex(p: string): nat
  {
    if p == "$lt_" then 0 else if p == "$lte_" then 1
    else if p == "$gt_" then 2 else if p == "$gte_" then 3
    else if p == "$in_" then 4 else if p == "$ne_" then 5
    else if p == "$regex_" then 6 else if p == "$regexi_" then 7
    else 8
  }

  /** A prefix that starts another prefix is that prefix. */
  lemma PrefixOfPrefix(i: nat, j: nat)
    requires i < |Rules| && j < |Rules|
    requires Rules[i].prefix <= Rules[j].prefix
    ensures i == j
  {
    var p, q := Rules[i].prefix, Rules[j].prefix;
    RuleShape(i);
    RuleShape(j);
    assert q[|p| - 1] == p[|p| - 1] == '_';
    assert |p| == |q|;
  }

  /** No rule's prefix starts another's, so two prefixes of one key are the same rule. */
  lemma PrefixesDisjoint(i: nat, j: nat, k: string)
    requires i < |Rules| && j < |Rules|
    requires Rules[i].prefix <= k && Rules[j].prefix <= k
    ensures i == j
  {
    var p, q := Rules[i].prefix, Rules[j].prefix;
    if |p| <= |q| {
      assert p == k[..|p|] == q[..|p|];
      PrefixOfPrefix(i, j);
    } else {
      assert q == k[..|q|] == p[..|q|];
      PrefixOfPrefix(j, i);
    }
  }

  /** A key that starts with none of the prefixes is a direct equality. */
  lemma ClassifyPlain(k: string)
    requires !("$lt_" <= k) && !("$lte_" <= k) && !("$gt_" <= k) && !("$gte_" <= k)
    requires !("$in_" <= k) && !("$ne_" <= k) && !("$regex_" <= k) && !("$regexi_" <= k)
    ensures Classify(k) == Plain
  {
    FirstRuleFinds(k, Rules);
    forall i | 0 <= i < |Rules|
      ensures !(Rules[i].prefix <= k)
    {
      assert i == 0 || i == 1 || i == 2 || i == 3 || i == 4 || i == 5 || i == 6 || i == 7;
    }
  }

  /** The dispatch of a key that starts with the prefix of `Rules[i]`. */
  lemma ApplyAt(filter: Filter, k: string, v: Value, i: nat)
    requires i < |Rules| && Rules[i].prefix <= k
    ensures Apply(filter, k, v) == AddToFilter(filter, k[|Rules[i].prefix|..], Rules[i].op,
      if Rules[i].op == Regex then RegExp(v, Rules[i].ignoreCase) else v)
  {
    ClassifyAt(k, i);
  }

  /**
    The prefix chain of the inner loop body (lib/endpoint.js:430-448): the
    prefixes are compared in the source's order by exact leading substring, the
    prefix is cut off to give the field, and a key without a known prefix is a
    direct assignment that replaces whatever the field held.
  */
  method DispatchKey(filter: Filter, k: string, v: Value) returns (r: Filter)
    ensures r == Apply(filter, k, v)
  {
    if "$lt_" <= k {
      ApplyAt(filter, k, v, 0);
      r := AddToFilter(filter, k[4..], Lt, v);
    } else if "$lte_" <= k {
      ApplyAt(filter, k, v, 1);
      r := AddToFilter(filter, k[5..], Lte, v);
    } else if "$gt_" <= k {
      ApplyAt(filter, k, v, 2);
      r := AddToFilter(filter, k[4..], Gt, v);
    } else if "$gte_" <= k {
      ApplyAt(filter, k, v, 3);
      r := AddToFilter(filter, k[5..], Gte, v);
    } else if "$in_" <= k {
      ApplyAt(filter, k, v, 4);
      r := AddToFilter(filter, k[4..], In, v);
    } else if "$ne_" <= k {
      ApplyAt(filter, k, v, 5);
      r := AddToFilter(filter, k[4..], Ne, v);
    } else if "$regex_" <= k {
      ApplyAt(filter, k, v, 6);
      r := AddToFilter(filter, k[7..], Regex, RegExp(v, false));
    } else if "$regexi_" <= k {
      ApplyAt(filter, k, v, 7);
      r := AddToFilter(filter, k[8..], Regex, RegExp(v, true));
    } else {
      ClassifyPlain(k);
      assert Apply(filter, k, v) == filter[k := v];
      r := filter[k := v];
    }
  }

  /**
    `$$constructFilterFromRequest`: the outer loop visits the query pairs, the
    inner loop the permitted patterns; every pattern that matches the raw key
    sends the (substituted) value through the prefix chain once more.
  */
  method ConstructFilterFromRequest(patterns: seq<string>, query: Query, matches: Matcher)
    returns (filter: Filter)
    ensures filter == Compile(patterns, query, matches)
  {
    filter := map[];
    var i := 0;
    while i < |query|
      invariant 0 <= i <= |query|
      invariant filter == Compile(patterns, query[..i], matches)
    {
      var (k, raw) := query[i];
      assert query[..i + 1][..i] == query[..i];
      if Admissible(raw) {
        ghost var before := filter;
        var v := ToValue(raw);
        var j := 0;
        while j < |patterns|
          invariant 0 <= j <= |patterns|
          invariant v == ToValue(raw) || v == Operand(raw)
          invariant filter == ProcessKey(before, k, Operand(raw), patterns[..j], matches)
        {
          assert patterns[..j + 1][..j] == patterns[..j];
          if matches(k, patterns[j]) {
            if v == Str("$exists") {
              v := ExistsCheck;
            }
            assert v == Operand(raw);
            filter := DispatchKey(filter, k, v);
          }
          j := j + 1;
        }
        assert patterns[..|patterns|] == patterns;
      }
      i := i + 1;
    }
    assert query[..|query|] == query;
  }
}
