/** The `sanitize` middleware: every string anywhere in the request's body,
    query and route parameters is passed through the `xss` filter, which is
    a parameter here and about whose output nothing is assumed. */
module SanitizeMiddleware {
  import opened JsValue

  /** `sanitizeValue(value)` */
  function SanitizeValue(xss: string -> string, v: Json): (r: Json)
    ensures v.Str? ==> r == Str(xss(v.s))
    ensures r.Arr? <==> v.Arr?
    ensures r.Obj? <==> v.Obj?
    ensures v.Arr? ==> |r.elems| == |v.elems|
    ensures v.Obj? ==> |r.entries| == |v.entries| && forall i :: 0 <= i < |v.entries| ==> r.entries[i].key == v.entries[i].key
    ensures !v.Str? && !v.Arr? && !v.Obj? ==> r == v
    decreases v
  {
    match v
    case Str(s) => Str(xss(s))
    case Arr(es) => Arr(seq(|es|, i requires 0 <= i < |es| => SanitizeValue(xss, es[i])))
    case Obj(es) => Obj(seq(|es|, i requires 0 <= i < |es| => Entry(es[i].key, SanitizeValue(xss, es[i].val))))
    case _ => v
  }

  /** `v` with every string emptied: what is left is its shape. */
  function Skeleton(v: Json): Json
    decreases v
  {
    match v
    case Str(_) => Str("")
    case Arr(es) => Arr(seq(|es|, i requires 0 <= i < |es| => Skeleton(es[i])))
    case Obj(es) => Obj(seq(|es|, i requires 0 <= i < |es| => Entry(es[i].key, Skeleton(es[i].val))))
    case _ => v
  }

  /** Sanitising changes strings only: arrays keep their length and order,
      objects their keys and key order, everything else stays as it is. */
  lemma {:induction false} SanitizeKeepsShape(xss: string -> string, v: Json)
    ensures Skeleton(SanitizeValue(xss, v)) == Skeleton(v)
    decreases v
  {
    match v
    case Arr(es) =>
      forall i | 0 <= i < |es| ensures Skeleton(SanitizeValue(xss, es[i])) == Skeleton(es[i]) {
        SanitizeKeepsShape(xss, es[i]);
      }
    case Obj(es) =>
      forall i | 0 <= i < |es| ensures Skeleton(SanitizeValue(xss, es[i].val)) == Skeleton(es[i].val) {
        SanitizeKeepsShape(xss, es[i].val);
      }
    case _ =>
  }

  /** The strings of `v` (not the object keys), left to right at every depth. */
  function Strings(v: Json): seq<string>
    decreases v
  {
    match v
    case Str(s) => [s]
    case Arr(es) => Flatten(seq(|es|, i requires 0 <= i < |es| => Strings(es[i])))
    case Obj(es) => Flatten(seq(|es|, i requires 0 <= i < |es| => Strings(es[i].val)))
    case _ => []
  }

  function Flatten(ss: seq<seq<string>>): seq<string> {
    if ss == [] then [] else ss[0] + Flatten(ss[1..])
  }

  /** `xss` applied to each string of `ss`. */
  function Filtered(xss: string -> string, ss: seq<string>): (r: seq<string>)
    ensures |r| == |ss| && forall i :: 0 <= i < |ss| ==> r[i] == xss(ss[i])
  {
    seq(|ss|, i requires 0 <= i < |ss| => xss(ss[i]))
  }

  lemma {:induction false} FlattenFiltered(xss: string -> string, ss: seq<seq<string>>, fs: seq<seq<string>>)
    requires |fs| == |ss| && forall i :: 0 <= i < |ss| ==> fs[i] == Filtered(xss, ss[i])
    ensures Flatten(fs) == Filtered(xss, Flatten(ss))
  {
    if ss != [] {
      FlattenFiltered(xss, ss[1..], fs[1..]);
      assert Filtered(xss, ss[0] + Flatten(ss[1..])) == Filtered(xss, ss[0]) + Filtered(xss, Flatten(ss[1..]));
    }
  }

  /** Every string of the value, at every depth, is replaced by `xss` of it,
      in place: with `SanitizeKeepsShape` this fixes the sanitised value. */
  lemma {:induction false} SanitizeFiltersEveryString(xss: string -> string, v: Json)
    ensures Strings(SanitizeValue(xss, v)) == Filtered(xss, Strings(v))
    decreases v
  {
    match v
    case Str(s) =>
    case Arr(es) =>
      var r := SanitizeValue(xss, v);
      forall i | 0 <= i < |es| ensures Strings(r.elems[i]) == Filtered(xss, Strings(es[i])) {
        SanitizeFiltersEveryString(xss, es[i]);
      }
      FlattenFiltered(xss, seq(|es|, i requires 0 <= i < |es| => Strings(es[i])),
                           seq(|es|, i requires 0 <= i < |es| => Strings(r.elems[i])));
    case Obj(es) =>
      var r := SanitizeValue(xss, v);
      forall i | 0 <= i < |es| ensures Strings(r.entries[i].val) == Filtered(xss, Strings(es[i].val)) {
        SanitizeFiltersEveryString(xss, es[i].val);
      }
      FlattenFiltered(xss, seq(|es|, i requires 0 <= i < |es| => Strings(es[i].val)),
                           seq(|es|, i requires 0 <= i < |es| => Strings(r.entries[i].val)));
    case _ =>
  }

  lemma {:induction false} FlattenSplit(ss: seq<seq<string>>, ts: seq<seq<string>>)
    requires |ss| == |ts| && forall i :: 0 <= i < |ss| ==> |ss[i]| == |ts[i]|
    ensures |Flatten(ss)| == |Flatten(ts)|
    ensures Flatten(ss) == Flatten(ts) ==> ss == ts
  {
    if ss != [] {
      FlattenSplit(ss[1..], ts[1..]);
      if Flatten(ss) == Flatten(ts) {
        assert ss[0] == Flatten(ss)[..|ss[0]|];
        assert ts[0] == Flatten(ts)[..|ts[0]|];
        assert Flatten(ss[1..]) == Flatten(ss)[|ss[0]|..];
        assert Flatten(ts[1..]) == Flatten(ts)[|ts[0]|..];
        assert ss == [ss[0]] + ss[1..] && ts == [ts[0]] + ts[1..];
      }
    }
  }

  /** A value is determined by its shape and its strings. */
  lemma {:induction false} ShapeAndStringsDetermine(a: Json, b: Json)
    requires Skeleton(a) == Skeleton(b)
    ensures |Strings(a)| == |Strings(b)|
    ensures Strings(a) == Strings(b) ==> a == b
    decreases a
  {
    match a
    case Arr(ea) =>
      var eb := b.elems;
      assert |ea| == |eb| by { assert |Skeleton(a).elems| == |Skeleton(b).elems|; }
      forall i | 0 <= i < |ea| ensures Skeleton(ea[i]) == Skeleton(eb[i]) {
        assert Skeleton(a).elems[i] == Skeleton(b).elems[i];
      }
      forall i | 0 <= i < |ea|
        ensures |Strings(ea[i])| == |Strings(eb[i])|
        ensures Strings(ea[i]) == Strings(eb[i]) ==> ea[i] == eb[i]
      {
        ShapeAndStringsDetermine(ea[i], eb[i]);
      }
      var sa := seq(|ea|, i requires 0 <= i < |ea| => Strings(ea[i]));
      var sb := seq(|eb|, i requires 0 <= i < |eb| => Strings(eb[i]));
      FlattenSplit(sa, sb);
      if Strings(a) == Strings(b) {
        assert sa == sb;
        assert forall i :: 0 <= i < |ea| ==> ea[i] == eb[i] by {
          forall i | 0 <= i < |ea| ensures ea[i] == eb[i] { assert sa[i] == sb[i]; }
        }
        assert ea == eb;
      }
    case Obj(ea) =>
      var eb := b.entries;
      assert |ea| == |eb| by { assert |Skeleton(a).entries| == |Skeleton(b).entries|; }
      forall i | 0 <= i < |ea| ensures ea[i].key == eb[i].key && Skeleton(ea[i].val) == Skeleton(eb[i].val) {
        assert Skeleton(a).entries[i] == Skeleton(b).entries[i];
      }
      forall i | 0 <= i < |ea|
        ensures |Strings(ea[i].val)| == |Strings(eb[i].val)|
        ensures Strings(ea[i].val) == Strings(eb[i].val) ==> ea[i].val == eb[i].val
      {
        ShapeAndStringsDetermine(ea[i].val, eb[i].val);
      }
      var sa := seq(|ea|, i requires 0 <= i < |ea| => Strings(ea[i].val));
      var sb := seq(|eb|, i requires 0 <= i < |eb| => Strings(eb[i].val));
      FlattenSplit(sa, sb);
      if Strings(a) == Strings(b) {
        assert sa == sb;
        assert forall i :: 0 <= i < |ea| ==> ea[i] == eb[i] by {
          forall i | 0 <= i < |ea| ensures ea[i] == eb[i] { assert sa[i] == sb[i]; }
        }
        assert ea == eb;
      }
    case Str(_) =>
    case _ =>
  }

  /** So the sanitised value is the one with `v`'s shape whose strings are
      `v`'s strings filtered: any value with both properties is it. */
  lemma SanitizeDetermined(xss: string -> string, v: Json, w: Json)
    requires Skeleton(w) == Skeleton(v)
    requires Strings(w) == Filtered(xss, Strings(v))
    ensures w == SanitizeValue(xss, v)
  {
    SanitizeKeepsShape(xss, v);
    SanitizeFiltersEveryString(xss, v);
    ShapeAndStringsDetermine(w, SanitizeValue(xss, v));
  }

  /** With a filter that changes no string, nothing changes. */
  lemma {:induction false} SanitizeIdentity(xss: string -> string, v: Json)
    requires forall s :: xss(s) == s
    ensures SanitizeValue(xss, v) == v
    decreases v
  {
    match v
    case Arr(es) =>
      forall i | 0 <= i < |es| ensures SanitizeValue(xss, es[i]) == es[i] {
        SanitizeIdentity(xss, es[i]);
      }
    case Obj(es) =>
      forall i | 0 <= i < |es| ensures SanitizeValue(xss, es[i].val) == es[i].val {
        SanitizeIdentity(xss, es[i].val);
      }
    case _ =>
  }

  /** Sanitising with `f` and then with `g` is sanitising once with the
      composed filter `h`. */
  lemma {:induction false} SanitizeCompose(f: string -> string, g: string -> string, h: string -> string, v: Json)
    requires forall s :: h(s) == g(f(s))
    ensures SanitizeValue(g, SanitizeValue(f, v)) == SanitizeValue(h, v)
    decreases v
  {
    match v
    case Arr(es) =>
      forall i | 0 <= i < |es| ensures SanitizeValue(g, SanitizeValue(f, es[i])) == SanitizeValue(h, es[i]) {
        SanitizeCompose(f, g, h, es[i]);
      }
    case Obj(es) =>
      forall i | 0 <= i < |es| ensures SanitizeValue(g, SanitizeValue(f, es[i].val)) == SanitizeValue(h, es[i].val) {
        SanitizeCompose(f, g, h, es[i].val);
      }
    case _ =>
  }

  /** When the filter is idempotent, so is sanitising. */
  lemma SanitizeIdempotent(xss: string -> string, v: Json)
    requires forall s :: xss(xss(s)) == xss(s)
    ensures SanitizeValue(xss, SanitizeValue(xss, v)) == SanitizeValue(xss, v)
  {
    SanitizeCompose(xss, xss, xss, v);
  }

  /** The parts of an incoming request the middleware sees; `Undefined`
      stands for a missing part. */
  class Request {
    var body: Json
    var query: Json
    var params: Json
    var headers: Json

    constructor (body: Json, query: Json, params: Json, headers: Json)
      ensures this.body == body && this.query == query && this.params == params && this.headers == headers
    {
      this.body := body;
      this.query := query;
      this.params := params;
      this.headers := headers;
    }
  }

  /** The `next` callback, observed by how often it was called. */
  class Next {
    var calls: nat

    constructor ()
      ensures calls == 0
    {
      calls := 0;
    }

    method Call()
      modifies this
      ensures calls == old(calls) + 1
    {
      calls := calls + 1;
    }
  }

  /** A request part after `if (part) part = sanitizeValue(part)`. */
  function SanitizedPart(xss: string -> string, part: Json): (r: Json)
    ensures !Truthy(part) ==> r == part
    ensures Truthy(part) ==> r == SanitizeValue(xss, part)
  {
    if Truthy(part) then SanitizeValue(xss, part) else part
  }

  /** `sanitize(req, res, next)`: body, query and params are replaced by
      their sanitised values when present, the rest of the request is left
      alone, and `next` is called once. */
  method Sanitize(xss: string -> string, req: Request, next: Next)
    modifies req, next
    ensures req.body == SanitizedPart(xss, old(req.body))
    ensures req.query == SanitizedPart(xss, old(req.query))
    ensures req.params == SanitizedPart(xss, old(req.params))
    ensures req.headers == old(req.headers)
    ensures next.calls == old(next.calls) + 1
  {
    if Truthy(req.body) { req.body := SanitizeValue(xss, req.body); }
    if Truthy(req.query) { req.query := SanitizeValue(xss, req.query); }
    if Truthy(req.params) { req.params := SanitizeValue(xss, req.params); }
    next.Call();
  }
}
