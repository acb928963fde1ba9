# mongoose-rest-endpoints: the `Endpoint` core in Dafny

This project models the core of `lib/endpoint.js` in mongoose-rest-endpoints. That file defines the `Endpoint` class, which exposes a Mongoose model as a REST resource. The model covers two parts and proves properties of both.

**The list filter compiler** is `$$constructFilterFromRequest` with its helper `addToFilter`, in `filter.dfy` and `filter_properties.dfy`.
- Input: the permitted glob patterns (`options.queryParams`) and the parsed query string.
- Output: a Mongo-style filter.
- A query pair takes part only if:
  - its value is a non-empty string or a Date;
  - its raw key matches a permitted pattern.
- Its key's prefix then decides where the value lands. `$lt_`, `$lte_`, `$gt_`, `$gte_`, `$in_`, `$ne_`, `$regex_` and `$regexi_` are checked in that order. A key with none of them is stored as a plain field.
- `ConstructFilterFromRequest` keeps the source's nested loops and its if-chain (`DispatchKey`). It is proved equal to the specification function `Compile`, and the properties are proved about `Compile`.

**The configuration tables of an endpoint** are in `endpoint.dfy`. They are the fields of the class `Endpoint`, which its builder methods update in place:
- the hook taps `$taps`, maintained by `tap`;
- the per-verb Express middleware lists `$$middleware`, maintained by `addMiddleware`;
- the permitted patterns, maintained by `allowQueryParam`;
- the populate list, maintained by `populate`;
- the option setters `limitFields`, `cascade` and `allowBulkPost`.

The class invariant `Valid` says two things. Every verb keeps its list, and that list still starts with the tracking middleware the constructor installed. No tap list is ever empty.

**Two pure decisions** are in `tracking.dfy`. One is the success/error classification the tracking middleware reports. The other is the error status that `register` sends.

**Abstractions:**
- Glob matching (`minimatch`) is the function parameter `Matcher`.
- A compiled regular expression is the opaque value `RegExp(source, ignoreCase)`.
- Functions stored in the tables are the opaque values `Handler`.
- The query is a sequence of pairs in the order `for..in` visits them. Each value is `QText`, `QDate` or `QOther`: arrays and nested objects are `QOther`, and the compiler skips them.
- The middleware table is keyed by the enumeration `Verb`. `ParseVerb` maps a JavaScript property name to the verb that owns a list under that name.

**Behaviour of the code that its own doc comments do not show:**
- Patterns are matched against the raw key, prefix included (lib/endpoint.js:424). A pattern `age` does not admit `$in_age`; see `RawKeyIsMatched`.
- The doc comment of `tap` names the methods fetch, list, post, put and delete (lib/endpoint.js:168). The wildcard expands to exactly `fetch, list, create, update, delete` (lib/endpoint.js:178). It never reaches `post`, `put` or `bulkpost`, whether or not bulk posting is enabled.
- An array argument of `addMiddleware` is flattened recursively, to any depth (lib/endpoint.js:222-226).
- The doc comment of `addMiddleware` says that `'all'` applies to all five methods (lib/endpoint.js:201-202). The code also adds to `bulkpost` when `allowBulkPost()` was called before (lib/endpoint.js:218-219). Middleware added earlier never reaches `bulkpost`; see `BulkPostAfterFanOut`.

## Model

| member | source | states |
|---|---|---|
| FilterCompiler.FirstRuleFinds | lib/endpoint.js:430-448 | the dispatch is plain exactly when none of the prefixes starts the key; otherwise it comes from the earliest rule, in the source's order, whose prefix starts the key, and the field is the key without that prefix |
| FilterCompiler.ClassifyAt | lib/endpoint.js:430-445 | a key that starts with the prefix of rule i is dispatched by rule i, even when an earlier prefix shares its beginning |
| FilterCompiler.ClassifyPlain | lib/endpoint.js:446-448 | a key that starts with none of the eight prefixes is a plain field |
| FilterCompiler.Operand | lib/endpoint.js:425-429 | the value is replaced by the `{$exists: true}` object exactly when it is the string `'$exists'`, and is otherwise the query value itself |
| FilterCompiler.AddToFilter | lib/endpoint.js:404-414 | `addToFilter` adds `prop` to the filter and changes no other field; an absent field or an operator object gets the slot `key` set to the operand (wrapped in an array for `$in`) with every other slot kept; a string or Date literal is left unchanged |
| FilterCompiler.Apply | lib/endpoint.js:430-448 | one dispatch adds the key's target field and changes no other field |
| FilterCompiler.DispatchKey | lib/endpoint.js:430-448 | the source's if-chain of prefix tests computes the dispatch of the rule table (`Apply`) |
| FilterCompiler.ConstructFilterFromRequest | lib/endpoint.js:402-455 | the nested loop over query pairs and permitted patterns, with the `'$exists'` substitution, computes `Compile` |
| FilterProperties.ClassifyRoundTrip | lib/endpoint.js:430-445 | a prefix followed by any field gives back that field under that prefix's operator and case flag |
| FilterProperties.LongerPrefixesWin | lib/endpoint.js:430-445 | `$lte_x` is `x.$lte` and not `x.$lt`; `$gte_x` is `x.$gte`; `$regexi_x` is a case-insensitive `x.$regex` |
| FilterProperties.AddToFilterLastWins | lib/endpoint.js:404-414 | a second `addToFilter` on the same field and operator overwrites the slot the first one set and leaves the rest as one call would |
| FilterProperties.ApplyLastWins | lib/endpoint.js:404-448 | a second dispatch of a key overwrites only what the first wrote: the same operator slot or the same plain field; with equal values the dispatch is idempotent |
| FilterProperties.ProcessKeyOnce | lib/endpoint.js:421-451 | a key that matches several patterns is dispatched once per match, which equals a single dispatch; a key that matches none is skipped |
| FilterProperties.CompileDomain | lib/endpoint.js:416-424 | a field is in the filter exactly when some query pair targets it, has a non-empty string or Date value, and has a raw key that matches a permitted pattern |
| FilterProperties.NoPatternsNoFilter | lib/endpoint.js:421-424 | with no permitted patterns the filter is empty |
| FilterProperties.CompileSnoc | lib/endpoint.js:418-452 | one more query pair is dispatched once if it takes part, and leaves the filter as it was otherwise |
| FilterProperties.DroppedPairChangesNothing | lib/endpoint.js:420-424 | an empty string, a value that is neither string nor Date, or a raw key no pattern matches changes nothing |
| FilterProperties.DroppedPairAnywhere | lib/endpoint.js:418-424 | such a pair can be removed from any position of the query without changing the filter |
| FilterProperties.CompileWellFormed | lib/endpoint.js:404-448 | every compiled entry is a literal or an operator object whose `$in` operand is a one-element array, whose `$regex` operand is a compiled pattern and whose `$exists` operand is `true` |
| FilterProperties.ApplyKeepsShape | lib/endpoint.js:404-448 | one dispatch of a substituted query value keeps those entry shapes |
| FilterProperties.PlainKeyReplaces | lib/endpoint.js:446-448 | an unprefixed key that takes part stores its value under the whole key and replaces what was there |
| FilterProperties.RangeBounds | lib/endpoint.js:408-413 | `$gte_f` then `$lte_f` build one operator object on `f` that holds both bounds |
| FilterProperties.RangeOnOneField | lib/endpoint.js:402-455 | the query `$gte_f=lo&$lte_f=hi`, both keys permitted, compiles to `{f: {$gte: lo, $lte: hi}}` |
| FilterProperties.OperatorAfterStringLiteral | lib/endpoint.js:408-409 | an operator on a field that already holds a string literal is dropped |
| FilterProperties.GtNextToExists | lib/endpoint.js:425-434 | a `$gt_f` dispatch on a field that holds the `$exists` object adds `$gt` next to `$exists` |
| FilterProperties.OperatorAfterExists | lib/endpoint.js:425-434 | `f=$exists&$gt_f=b` compiles to `{f: {$exists: true, $gt: b}}` |
| FilterProperties.InWrapsOperand | lib/endpoint.js:405-413 | a permitted `$in_f` pair alone gives `f` an operator object whose `$in` operand is the one-element array of the value |
| FilterProperties.ExistsUnderIn | lib/endpoint.js:425-439 | `$in_f=$exists` wraps the `$exists` object into a one-element `$in` array |
| FilterProperties.RawKeyIsMatched | lib/endpoint.js:424 | the pattern `age` does not admit `$in_age`; the pattern `$in_age` does, and the scalar is wrapped into an array |
| Endpoints.ParseVerb | lib/endpoint.js:58-65 | a name has a middleware list exactly when it is one of the six verb keys |
| Endpoints.Targets | lib/endpoint.js:211-229 | `'all'` and `'*'` reach every verb but `bulkpost`, and reach `bulkpost` exactly when bulk posting is enabled; any other name reaches only its own verb, or nothing |
| Endpoints.TapMethods | lib/endpoint.js:177-181 | the tap wildcard stands for exactly `fetch, list, create, update, delete`; other methods, distinct, stand for themselves |
| Endpoints.FlattenSeqSnoc | lib/endpoint.js:222-226 | flattening an array is flattening its prefix and then its next element |
| Endpoints.AppendedIsPushes | lib/endpoint.js:212-220 | appending to a list of distinct verbs that all have lists equals one single-verb push per verb, in the fan-out's order |
| Endpoints.AppendedKeepsShape | lib/endpoint.js:58-65 | appending keeps every list starting with the tracking middleware |
| Endpoints.ArrayIsSequence | lib/endpoint.js:222-226 | adding an array of two arguments is adding the first and then the second |
| Endpoints.PushTap | lib/endpoint.js:183-190 | one push, creating the hook map and the list when missing, changes only that list |
| Endpoints.PushesAccumulate | lib/endpoint.js:185-191 | pushes onto the lists of distinct methods of one hook add up |
| Endpoints.Endpoint.constructor | lib/endpoint.js:37-67 | defaults: 50 per page, sort on `_id`, no patterns, no populate; every verb's list is the tracking middleware; the only tap is the filter compiler on `pre_filter`/`list` |
| Endpoints.Endpoint.Populate | lib/endpoint.js:77-93 | an array's elements are appended in order; otherwise `[field, fields]` when `fields` is a non-empty string, or the bare field |
| Endpoints.Endpoint.AllowQueryParam | lib/endpoint.js:103-114 | the pattern, or each pattern of an array in order, is appended |
| Endpoints.Endpoint.RequestFilter | lib/endpoint.js:416-424 | the list filter for a request is compiled from the endpoint's permitted patterns as they stand when the request arrives; with none, the filter is empty |
| Endpoints.Endpoint.LimitFields | lib/endpoint.js:123-126 | sets `limitFields` alone |
| Endpoints.Endpoint.Cascade | lib/endpoint.js:137-143 | sets `cascade` to the allowed relations and filter alone |
| Endpoints.Endpoint.AllowBulkPost | lib/endpoint.js:239-242 | sets the bulk-post flag alone |
| Endpoints.Endpoint.Tap | lib/endpoint.js:173-198 | the function is appended to the end of the list of each method named, creating what is missing; every other list is unchanged; the class invariant is kept |
| Endpoints.Endpoint.AddMiddleware | lib/endpoint.js:210-233 | the flattened argument is appended in order to the target lists; a name with no list fails, leaving all lists unchanged, exactly when there is something to push; index 0 of every list stays the tracking middleware |
| Endpoints.Endpoint.FanOut | lib/endpoint.js:211-220 | `'all'`/`'*'` appends to list, fetch, post, put, delete, and to bulkpost only when the flag is set at call time |
| Endpoints.Endpoint.PushMiddleware | lib/endpoint.js:221-230 | for one verb, an array recurses on its elements in order and a function is pushed; the verb's list grows by the flattened argument and no other list changes |
| Endpoints.BulkPostAfterFanOut | lib/endpoint.js:211-220 | middleware added with `'all'` before `allowBulkPost()` is on `list` but never on `bulkpost` |
| Tracking.Track | lib/endpoint.js:296-301 | no response is both a success and an error; a code below 200 is neither; from 400 on it is not a success and the error is the body; success exactly for 200 ≤ code < 400, an error exactly for code ≥ 400 with a body |
| Tracking.ErrorStatus | lib/endpoint.js:326-330 | the status sent is never 0: it is the error's code when that is truthy, and 500 otherwise |

## Left out

- Express registration in `register` (lib/endpoint.js:316-400) is I/O glue: route binding and the `res.status().send()` calls. Only the status choice is kept, as `ErrorStatus`.
- The `$fetch`, `$list`, `$post`, `$put` and `$delete` delegates (lib/endpoint.js:250-268) and the hook execution are left out. They live in `./request`, which is not part of this model, and they run asynchronously.
- The constructor's `mongoose.model` lookup and the `_.extend` merge of `opts` (lib/endpoint.js:40-57) are foreign library calls. The model builds the endpoint with the default options only. `modelId` is not kept.
- Inside the tracking middleware (lib/endpoint.js:270-307), the copying of the `hooks` mixin, the `moment` timestamps, the parsing of `X-Request-Start` and `tracker.track` are clock and side-effect I/O. Only the classification is kept, as `Track`.
- Glob semantics of `minimatch` and regular-expression compilation are foreign. They are a parameter and an opaque value.
- `log` calls and the colour decoration of strings are logging only.
- The `untap` closure in `tap` (lib/endpoint.js:192-196) is never returned or stored, so it cannot be called.
- Chaining: every builder method returns `this`. The model's methods return nothing, or the failure flag of `AddMiddleware`.
- FilterCompiler.AddToFilter: on a Date literal the source attaches an own property to the Date object. The model leaves the entry unchanged and does not represent that property.
- FilterCompiler.ConstructFilterFromRequest: query keys are taken in the given order. Two engine effects are not modelled: `for..in` visits integer-like keys first, and keys that name `Object.prototype` members read inherited values.
- FilterCompiler.ConstructFilterFromRequest: a `$regex_` or `$regexi_` value that is not a valid regular expression (for example `(`) makes `new RegExp` throw a `SyntaxError` (lib/endpoint.js:443, 445). The request then fails and no filter is built. The model has no failure path here; it stores the opaque value `RegExp(source, ignoreCase)` for every pattern.
- FilterCompiler.ConstructFilterFromRequest: a prefixed key whose field is `__proto__` (such as `$lt___proto__`, admitted by a pattern like `$lt_*`) makes `filter[prop]` find `Object.prototype` (lib/endpoint.js:408-409). `addToFilter` then writes the operator slot onto the prototype shared by every object of the process, and the filter gets no own field. The model treats `__proto__` as an ordinary field name.
- Endpoints.Endpoint.Tap: hook or method names that are `Object.prototype` members (`constructor`, `__proto__`, …) find an inherited value where the model finds nothing.
- Endpoints.Endpoint.AddMiddleware: for a name with no list, the source throws a `TypeError` at the first function it tries to push. The model returns `ok == false` with the table unchanged. It does not walk the array for such a name; because nothing is ever pushed to such a name, the outcome is the same.
- Endpoints.Endpoint.Populate: an array element is pushed as it is. The model admits only a path or a `[path, fields]` pair as an element. `fields` is truthy only as a non-empty string; other truthy values are not modelled.
- Endpoints.Endpoint.AllowQueryParam: array elements that are not strings are not modelled.
- Tracking.ErrorStatus: `NaN` and non-numeric truthy codes are not modelled.
