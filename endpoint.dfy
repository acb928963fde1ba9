/**
  The configuration tables of an endpoint: the hook taps, the per-verb
  Express middleware lists, the permitted query patterns, the populate list
  and the option flags, each updated in place by the builder methods of
  lib/endpoint.js.
*/
module Endpoints {
  import opened Wrappers
  import FilterCompiler
  import FilterProperties

  /** A function stored in a table. Functions are opaque to the model; only the
      two the endpoint installs itself are told apart from those its callers
      supply. */
  datatype Handler =
    | ConstructFilter       // `$$constructFilterFromRequest`, the default list filter tap
    | TrackingMiddleware    // the closure `$$trackingMiddleware(this)`
    | Supplied(id: nat)     // any function handed in by a caller

  /** An `addMiddleware` argument: one function, or an array of arguments,
      nested to any depth. */
  datatype MiddlewareArg = Fn(handler: Handler) | Many(items: seq<MiddlewareArg>)

  /** One element of `options.populate`: a path, or a `[path, fields]` pair. */
  datatype PopulateEntry = Path(field: string) | WithFields(field: string, fields: string)

  /** The first argument of `populate`: one path, or an array whose elements are
      pushed as they are. */
  datatype PopulateArg = Field(name: string) | Entries(entries: seq<PopulateEntry>)

  /** The argument of `allowQueryParam`: one glob, or an array of globs. */
  datatype PatternArg = Pattern(glob: string) | Patterns(globs: seq<string>)

  /** `options.cascade`. */
  datatype CascadeOptions = CascadeOptions(allowedRelations: seq<string>, filter: Option<Handler>)

  /** The six verbs that own a middleware list. */
  datatype Verb = Fetch | List | Post | Put | BulkPost | Delete

  /** The key of each verb in `$$middleware`. */
  function VerbName(v: Verb): string
  {
    match v
    case Fetch => "fetch"
    case List => "list"
    case Post => "post"
    case Put => "put"
    case BulkPost => "bulkpost"
    case Delete => "delete"
  }

  /** The verb whose list `$$middleware[name]` is, if any: every other name,
      `Object.prototype` members included, has no list with a `push`. */
  function ParseVerb(name: string): (r: Option<Verb>)
    ensures r.Some? ==> VerbName(r.value) == name
    ensures forall v :: name == VerbName(v) ==> r == Some(v)
  {
    if name == "fetch" then Some(Fetch)
    else if name == "list" then Some(List)
    else if name == "post" then Some(Post)
    else if name == "put" then Some(Put)
    else if name == "bulkpost" then Some(BulkPost)
    else if name == "delete" then Some(Delete)
    else None
  }

  /** The verbs `'all'` and `'*'` fan out to, in order; `bulkpost` is added
      only when bulk posting is already enabled. */
  const FanOutVerbs: seq<Verb> := [List, Fetch, Post, Put, Delete]

  predicate IsFanOut(verb: string)
  {
    verb == "all" || verb == "*"
  }

  /** The fan-out verbs are distinct, and `bulkpost` is not among them. */
  lemma FanOutVerbsDistinct(i: nat)
    requires i < |FanOutVerbs|
    ensures FanOutVerbs[i] !in FanOutVerbs[..i]
    ensures FanOutVerbs[..i + 1] == FanOutVerbs[..i] + [FanOutVerbs[i]]
    ensures BulkPost !in FanOutVerbs
  {
  }

  /** The fan-out verbs are all verbs but `bulkpost`. */
  lemma FanOutCovers()
    ensures forall v :: v in FanOutVerbs <==> v != BulkPost
  {
  }

  /** The middleware lists a call of `addMiddleware` appends to: none for a
      name that is neither a verb nor a fan-out. */
  function Targets(verb: string, allowBulkPost: bool): (r: seq<Verb>)
    ensures IsFanOut(verb) ==> (BulkPost in r <==> allowBulkPost) && forall v :: v != BulkPost ==> v in r
    ensures !IsFanOut(verb) ==> forall v :: v in r <==> ParseVerb(verb) == Some(v)
  {
    if IsFanOut(verb) then FanOutCovers(); FanOutVerbs + (if allowBulkPost then [BulkPost] else [])
    else match ParseVerb(verb) case Some(v) => [v] case None => []
  }

  /** The methods `tap` appends to: the wildcard stands for exactly these five. */
  function TapMethods(verb: string): (r: seq<string>)
    ensures verb == "*" ==> forall m :: m in r <==> m in {"fetch", "list", "create", "update", "delete"}
    ensures verb != "*" ==> r == [verb]
    ensures forall i, j :: 0 <= i < j < |r| ==> r[i] != r[j]
  {
    if verb == "*" then ["fetch", "list", "create", "update", "delete"] else [verb]
  }

  /** The functions tapped onto `hook` for `verb`; a missing entry reads as none. */
  function Lookup(taps: map<string, map<string, seq<Handler>>>, hook: string, verb: string): seq<Handler>
  {
    if hook in taps && verb in taps[hook] then taps[hook][verb] else []
  }

  /** The inner map of `hook`; a missing hook reads as empty. */
  function Inner(taps: map<string, map<string, seq<Handler>>>, hook: string): map<string, seq<Handler>>
  {
    if hook in taps then taps[hook] else map[]
  }

  /** The functions of an `addMiddleware` argument in the order they are pushed. */
  function Flatten(arg: MiddlewareArg): seq<Handler>
    decreases arg
  {
    match arg
    case Fn(h) => [h]
    case Many(items) => FlattenSeq(items)
  }

  function FlattenSeq(items: seq<MiddlewareArg>): seq<Handler>
    decreases items
  {
    if items == [] then [] else Flatten(items[0]) + FlattenSeq(items[1..])
  }

  /** Flattening an array is flattening its prefix and then its next element. */
  lemma {:induction false} FlattenSeqSnoc(items: seq<MiddlewareArg>, j: nat)
    requires j < |items|
    ensures FlattenSeq(items[..j + 1]) == FlattenSeq(items[..j]) + Flatten(items[j])
    decreases j
  {
    if j > 0 {
      FlattenSeqSnoc(items[1..], j - 1);
      assert items[1..][..j] == items[..j + 1][1..];
      assert items[1..][..j - 1] == items[..j][1..];
      assert items[1..][j - 1] == items[j];
    } else {
      assert items[..1][1..] == [];
    }
  }

  /** The table `mw` after `hs` has been appended to the list of each verb in
      `targets`. */
  function Appended(mw: map<Verb, seq<Handler>>, targets: seq<Verb>, hs: seq<Handler>): map<Verb, seq<Handler>>
  {
    map v | v in mw :: mw[v] + (if v in targets then hs else [])
  }

  /** The table `mw` after one single-verb push of `hs` per element of
      `targets`, taken in order; a verb with no list is skipped. */
  function Pushes(mw: map<Verb, seq<Handler>>, targets: seq<Verb>, hs: seq<Handler>): map<Verb, seq<Handler>>
    decreases |targets|
  {
    if targets == [] then mw
    else
      var p := Pushes(mw, targets[..|targets| - 1], hs);
      var t := targets[|targets| - 1];
      if t in p then p[t := p[t] + hs] else p
  }

  /** Appending to a list of distinct verbs that all have lists is pushing to
      each of them in turn, as the fan-out of `addMiddleware` does. */
  lemma {:induction false} AppendedIsPushes(mw: map<Verb, seq<Handler>>, targets: seq<Verb>, hs: seq<Handler>)
    requires forall i :: 0 <= i < |targets| ==> targets[i] in mw
    requires forall i, j :: 0 <= i < j < |targets| ==> targets[i] != targets[j]
    ensures Appended(mw, targets, hs) == Pushes(mw, targets, hs)
  {
    if targets == [] {
      AppendedNowhere(mw, hs);
    } else {
      var init, t := targets[..|targets| - 1], targets[|targets| - 1];
      assert init + [t] == targets;
      assert t !in init by {
        forall i | 0 <= i < |init|
          ensures init[i] != t
        {
          assert init[i] == targets[i];
        }
      }
      AppendedIsPushes(mw, init, hs);
      assert t in Appended(mw, init, hs);
      AppendedSnoc(mw, init, t, hs);
    }
  }

  /** Appending keeps every list starting with the tracking middleware. */
  lemma AppendedKeepsShape(mw: map<Verb, seq<Handler>>, targets: seq<Verb>, hs: seq<Handler>)
    requires MiddlewareShape(mw)
    ensures MiddlewareShape(Appended(mw, targets, hs))
  {
  }

  /** With no targets, or nothing to append, the table is unchanged. */
  lemma AppendedNowhere(mw: map<Verb, seq<Handler>>, hs: seq<Handler>)
    ensures Appended(mw, [], hs) == mw
  {
    assert forall v :: v in mw ==> Appended(mw, [], hs)[v] == mw[v];
  }

  lemma AppendedNothing(mw: map<Verb, seq<Handler>>, targets: seq<Verb>)
    ensures Appended(mw, targets, []) == mw
  {
    assert forall v :: v in mw ==> Appended(mw, targets, [])[v] == mw[v];
  }

  /** Appending to one more verb's list, not yet among the targets, extends
      the targets by that verb. */
  lemma AppendedSnoc(mw: map<Verb, seq<Handler>>, targets: seq<Verb>, t: Verb, hs: seq<Handler>)
    requires t in mw && t !in targets
    ensures Appended(mw, targets, hs)[t := Appended(mw, targets, hs)[t] + hs] == Appended(mw, targets + [t], hs)
  {
    var r := Appended(mw, targets, hs);
    forall v | v in mw
      ensures r[t := r[t] + hs][v] == Appended(mw, targets + [t], hs)[v]
    {
      assert v in targets + [t] <==> v in targets || v == t;
    }
  }

  /** Adding an array of two arguments to the same lists is adding the first
      and then the second. */
  lemma ArrayIsSequence(mw: map<Verb, seq<Handler>>, targets: seq<Verb>, a: MiddlewareArg, b: MiddlewareArg)
    ensures Appended(Appended(mw, targets, Flatten(a)), targets, Flatten(b)) == Appended(mw, targets, Flatten(Many([a, b])))
  {
    assert [a, b][1..] == [b];
    assert [b][1..] == [];
    assert FlattenSeq([b]) == Flatten(b) + FlattenSeq([]);
    assert FlattenSeq([a, b]) == Flatten(a) + FlattenSeq([b]);
    assert Flatten(Many([a, b])) == Flatten(a) + Flatten(b);
    var r := Appended(Appended(mw, targets, Flatten(a)), targets, Flatten(b));
    forall v | v in mw
      ensures r[v] == Appended(mw, targets, Flatten(Many([a, b])))[v]
    {
      if v in targets {
        assert r[v] == mw[v] + Flatten(a) + Flatten(b);
      }
    }
  }

  /** Every verb has a list, and each starts with the tracking middleware. */
  predicate MiddlewareShape(middleware: map<Verb, seq<Handler>>)
  {
    forall v: Verb :: v in middleware && |middleware[v]| > 0 && middleware[v][0] == TrackingMiddleware
  }

  /** No tap list is empty. */
  predicate TapsShape(taps: map<string, map<string, seq<Handler>>>)
  {
    forall h, m :: h in taps && m in taps[h] ==> |taps[h][m]| > 0
  }

  /** One push of `func` onto the list of (`hook`, `m`), creating what is
      missing, changes that list alone and keeps every list non-empty. */
  lemma PushTap(taps: map<string, map<string, seq<Handler>>>, hook: string, m: string, func: Handler,
                r: map<string, map<string, seq<Handler>>>)
    requires TapsShape(taps)
    requires r == taps[hook := Inner(taps, hook)[m := Lookup(taps, hook, m) + [func]]]
    ensures TapsShape(r)
    ensures r.Keys == taps.Keys + {hook}
    ensures forall m' :: m' in r[hook] <==> m' in Inner(taps, hook) || m' == m
    ensures forall h, m' ::
      Lookup(r, h, m') == Lookup(taps, h, m') + (if h == hook && m' == m then [func] else [])
  {
  }

  /** Pushes onto the lists of distinct methods of one hook add up: after
      those of `done` and then one of `m`, each list of `done + [m]` has gained
      `func` once. */
  lemma PushesAccumulate(t0: map<string, map<string, seq<Handler>>>, t1: map<string, map<string, seq<Handler>>>,
                         t2: map<string, map<string, seq<Handler>>>, hook: string, func: Handler,
                         done: seq<string>, m: string)
    requires m !in done
    requires forall h, x :: Lookup(t1, h, x) == Lookup(t0, h, x) + (if h == hook && x in done then [func] else [])
    requires forall h, x :: Lookup(t2, h, x) == Lookup(t1, h, x) + (if h == hook && x == m then [func] else [])
    ensures forall h, x :: Lookup(t2, h, x) == Lookup(t0, h, x) + (if h == hook && x in done + [m] then [func] else [])
  {
  }

  /** The value an `Endpoint` is built from when `opts` is absent. */
  class Endpoint {
    const path: string
    const perPage: nat
    const sortField: string

    /** `$taps`: hook, then method, then the tapped functions in order. */
    var taps: map<string, map<string, seq<Handler>>>
    /** `$$middleware`: verb to its Express middleware list. */
    var middleware: map<Verb, seq<Handler>>
    /** `options.queryParams`: the permitted glob patterns. */
    var queryParams: seq<string>
    /** `options.populate`. */
    var populate: seq<PopulateEntry>
    /** `options.limitFields`. */
    var limitFields: Option<seq<string>>
    /** `options.allowBulkPost`. */
    var allowBulkPost: bool
    /** `options.cascade`. */
    var cascade: Option<CascadeOptions>

    /** The middleware table has exactly the six verbs, and each list still
        starts with the tracking middleware the constructor put there; no tap
        list is ever empty. */
    predicate Valid()
      reads this`middleware, this`taps
    {
      MiddlewareShape(middleware) && TapsShape(taps)
    }

    /** `new Endpoint(path, modelId)` without `opts`. */
    constructor (path: string)
      ensures Valid()
      ensures this.path == path && perPage == 50 && sortField == "_id"
      ensures forall v: Verb :: v in middleware && middleware[v] == [TrackingMiddleware]
      ensures forall h, m :: Lookup(taps, h, m) == if h == "pre_filter" && m == "list" then [ConstructFilter] else []
      ensures queryParams == [] && populate == []
      ensures limitFields == None && !allowBulkPost && cascade == None
    {
      this.path := path;
      perPage := 50;
      sortField := "_id";
      taps := map[];
      queryParams := [];
      populate := [];
      limitFields := None;
      allowBulkPost := false;
      cascade := None;
      middleware := map[Fetch := [TrackingMiddleware], List := [TrackingMiddleware],
                        Post := [TrackingMiddleware], Put := [TrackingMiddleware],
                        BulkPost := [TrackingMiddleware], Delete := [TrackingMiddleware]];
      new;
      forall v: Verb
        ensures v in middleware && middleware[v] == [TrackingMiddleware]
      {
        match v
        case Fetch => case List => case Post => case Put => case BulkPost => case Delete =>
      }
      Tap("pre_filter", "list", ConstructFilter);
    }

    /** `populate(field, fields)`: an array's elements are appended in order;
        otherwise the pair `[field, fields]` when `fields` is a non-empty string,
        or the bare path. */
    method Populate(arg: PopulateArg, fields: Option<string>)
      modifies this`populate
      ensures arg.Entries? ==> populate == old(populate) + arg.entries
      ensures arg.Field? && fields.Some? && fields.value != "" ==> populate == old(populate) + [WithFields(arg.name, fields.value)]
      ensures arg.Field? && (fields.None? || fields.value == "") ==> populate == old(populate) + [Path(arg.name)]
    {
      match arg
      case Entries(entries) =>
        for i := 0 to |entries|
          invariant populate == old(populate) + entries[..i]
        {
          populate := populate + [entries[i]];
        }
        assert entries[..|entries|] == entries;
      case Field(name) =>
        if fields.Some? && fields.value != "" {
          populate := populate + [WithFields(name, fields.value)];
        } else {
          populate := populate + [Path(name)];
        }
    }

    /** `allowQueryParam(param)`: the glob, or each glob of an array in order,
        is appended to the permitted patterns. */
    method AllowQueryParam(param: PatternArg)
      modifies this`queryParams
      ensures param.Patterns? ==> queryParams == old(queryParams) + param.globs
      ensures param.Pattern? ==> queryParams == old(queryParams) + [param.glob]
    {
      match param
      case Patterns(globs) =>
        for i := 0 to |globs|
          invariant queryParams == old(queryParams) + globs[..i]
        {
          queryParams := queryParams + [globs[i]];
        }
        assert globs[..|globs|] == globs;
      case Pattern(glob) =>
        queryParams := queryParams + [glob];
    }

    /** The list filter `$$constructFilterFromRequest` builds for a request
        to this endpoint: it reads the permitted patterns from the endpoint's
        options when the request arrives, so a pattern allowed after
        registration already counts. With no permitted pattern the filter is
        empty. */
    method RequestFilter(query: FilterCompiler.Query, matches: FilterCompiler.Matcher)
      returns (filter: FilterCompiler.Filter)
      ensures filter == FilterCompiler.Compile(queryParams, query, matches)
      ensures queryParams == [] ==> filter == map[]
    {
      filter := FilterCompiler.ConstructFilterFromRequest(queryParams, query, matches);
      if queryParams == [] {
        FilterProperties.NoPatternsNoFilter(query, matches);
      }
    }

    /** `limitFields(fields)`. */
    method LimitFields(fields: seq<string>)
      modifies this`limitFields
      ensures limitFields == Some(fields)
    {
      limitFields := Some(fields);
    }

    /** `cascade(allowed, filter)`. */
    method Cascade(allowed: seq<string>, filter: Option<Handler>)
      modifies this`cascade
      ensures cascade == Some(CascadeOptions(allowed, filter))
    {
      cascade := Some(CascadeOptions(allowed, filter));
    }

    /** `allowBulkPost()`. */
    method AllowBulkPost()
      modifies this`allowBulkPost
      ensures allowBulkPost
    {
      allowBulkPost := true;
    }

    /** `tap(hook, verb, func)`: `func` goes to the end of the list of each
        method `verb` names, the hook's map and the lists being created when
        missing; every other list is left as it was. */
    method Tap(hook: string, verb: string, func: Handler)
      requires Valid()
      modifies this`taps
      ensures Valid()
      ensures taps.Keys == old(taps).Keys + {hook}
      ensures forall m :: m in taps[hook] <==> m in Inner(old(taps), hook) || m in TapMethods(verb)
      ensures forall h, m ::
        Lookup(taps, h, m) == Lookup(old(taps), h, m) + (if h == hook && m in TapMethods(verb) then [func] else [])
    {
      var methods := TapMethods(verb);
      var t := taps;
      if hook !in t {
        t := t[hook := map[]];
      }
      var i := 0;
      while i < |methods|
        invariant 0 <= i <= |methods|
        invariant TapsShape(t)
        invariant t.Keys == old(taps).Keys + {hook}
        invariant forall m :: m in t[hook] <==> m in Inner(old(taps), hook) || m in methods[..i]
        invariant forall h, m ::
          Lookup(t, h, m) == Lookup(old(taps), h, m) + (if h == hook && m in methods[..i] then [func] else [])
      {
        var m := methods[i];
        assert m !in methods[..i];
        assert methods[..i + 1] == methods[..i] + [m];
        var inner := t[hook];
        if m !in inner {
          inner := inner[m := []];
        }
        assert inner[m := inner[m] + [func]] == Inner(t, hook)[m := Lookup(t, hook, m) + [func]];
        PushTap(t, hook, m, func, t[hook := inner[m := inner[m] + [func]]]);
        ghost var before := t;
        t := t[hook := inner[m := inner[m] + [func]]];
        PushesAccumulate(old(taps), before, t, hook, func, methods[..i], m);
        i := i + 1;
      }
      assert methods[..i] == methods;
      taps := t;
    }

    /** `addMiddleware(verb, arg)`: the flattened argument is appended, in
        order, to the list of `verb`, or of every fan-out verb for `'all'` and
        `'*'` (with `bulkpost` only if bulk posting is enabled at the time of
        the call). A name with no list makes the first push throw, so `ok` is
        false, and nothing changes, exactly when such a name is given something
        to push. */
    method AddMiddleware(verb: string, arg: MiddlewareArg) returns (ok: bool)
      requires Valid()
      modifies this`middleware
      ensures Valid()
      ensures ok <==> IsFanOut(verb) || ParseVerb(verb).Some? || Flatten(arg) == []
      ensures ok ==> middleware == Appended(old(middleware), Targets(verb, allowBulkPost), Flatten(arg))
      ensures !ok ==> middleware == old(middleware)
    {
      if IsFanOut(verb) {
        FanOut(arg);
        ok := true;
      } else {
        match ParseVerb(verb)
        case Some(v) =>
          PushMiddleware(v, arg);
          AppendedNowhere(old(middleware), Flatten(arg));
          AppendedSnoc(old(middleware), [], v, Flatten(arg));
          assert [] + [v] == [v];
          ok := true;
        case None =>
          ok := Flatten(arg) == [];
          AppendedNothing(old(middleware), []);
      }
    }

    /** The branch of `addMiddleware` for `'all'` and `'*'`: the argument goes
        to each fan-out verb in turn, then to `bulkpost` if bulk posting is
        enabled now. */
    method FanOut(arg: MiddlewareArg)
      requires Valid()
      modifies this`middleware
      ensures Valid()
      ensures middleware == Appended(old(middleware), FanOutVerbs + (if allowBulkPost then [BulkPost] else []), Flatten(arg))
    {
      var i := 0;
      AppendedNowhere(middleware, Flatten(arg));
      while i < |FanOutVerbs|
        invariant 0 <= i <= |FanOutVerbs|
        invariant middleware == Appended(old(middleware), FanOutVerbs[..i], Flatten(arg))
      {
        AppendedKeepsShape(old(middleware), FanOutVerbs[..i], Flatten(arg));
        FanOutVerbsDistinct(i);
        AppendedSnoc(old(middleware), FanOutVerbs[..i], FanOutVerbs[i], Flatten(arg));
        PushMiddleware(FanOutVerbs[i], arg);
        i := i + 1;
      }
      AppendedKeepsShape(old(middleware), FanOutVerbs, Flatten(arg));
      assert FanOutVerbs[..i] == FanOutVerbs;
      if allowBulkPost {
        AppendedSnoc(old(middleware), FanOutVerbs, BulkPost, Flatten(arg));
        PushMiddleware(BulkPost, arg);
      } else {
        assert FanOutVerbs + [] == FanOutVerbs;
      }
    }

    /** The branch of `addMiddleware` for one verb: an array argument recurses
        on each element in order and a function is pushed onto the verb's
        list. */
    method PushMiddleware(verb: Verb, arg: MiddlewareArg)
      requires Valid()
      modifies this`middleware
      ensures Valid()
      ensures middleware == old(middleware)[verb := old(middleware)[verb] + Flatten(arg)]
      decreases arg
    {
      match arg
      case Fn(h) =>
        middleware := middleware[verb := middleware[verb] + [h]];
      case Many(items) =>
        var j := 0;
        assert items[..0] == [];
        assert old(middleware)[verb] + [] == old(middleware)[verb];
        assert old(middleware)[verb := old(middleware)[verb]] == old(middleware);
        while j < |items|
          invariant 0 <= j <= |items|
          invariant Valid()
          invariant middleware == old(middleware)[verb := old(middleware)[verb] + FlattenSeq(items[..j])]
        {
          PushMiddleware(verb, items[j]);
          FlattenSeqSnoc(items, j);
          assert old(middleware)[verb] + FlattenSeq(items[..j]) + Flatten(items[j])
            == old(middleware)[verb] + FlattenSeq(items[..j + 1]);
          j := j + 1;
        }
        assert items[..j] == items;
    }
  }

  /** Middleware added with `'all'` before `allowBulkPost()` never reaches
      `bulkpost`: the fan-out reads the flag at call time. */
  method BulkPostAfterFanOut() returns (e: Endpoint)
    ensures e.Valid() && e.allowBulkPost
    ensures e.middleware[List] == [TrackingMiddleware, Supplied(1)]
    ensures e.middleware[BulkPost] == [TrackingMiddleware]
  {
    e := new Endpoint("/posts");
    var pushed := e.AddMiddleware("all", Fn(Supplied(1)));
    e.AllowBulkPost();
  }
}
