/**
  JavaScript values as they occur in the portfolio's JSON content documents,
  and the handful of JavaScript operations the renderers apply to them:
  truthiness, property reads, `String(v)` (template-literal interpolation),
  `Array.prototype.join`, `includes`, and `String.prototype.replace` with a
  one-character pattern.
*/
module Json {

  /** A parsed JSON value, plus `undefined`, which is what a missing property reads as. */
  datatype Value =
    | Undefined
    | Null
    | Bool(b: bool)
    | Num(n: int)
    | Str(s: string)
    | Arr(items: seq<Value>)
    | Obj(fields: map<string, Value>)

  /** The result of evaluating an expression that may throw a TypeError. */
  datatype Completion<T> = Normal(value: T) | Thrown

  /** The outcome of one `fetch`: the decoded body, or a network error / non-ok status. */
  datatype Fetched<T> = Ok(body: T) | Failed

  datatype Option<T> = None | Some(value: T)

  predicate Nullish(v: Value) {
    v.Undefined? || v.Null?
  }

  /** JavaScript truthiness: `false`, `0`, `""`, `null` and `undefined` are falsy; arrays and objects never are. */
  predicate Truthy(v: Value) {
    match v
    case Undefined => false
    case Null => false
    case Bool(b) => b
    case Num(n) => n != 0
    case Str(s) => s != ""
    case Arr(_) => true
    case Obj(_) => true
  }

  /** `a || b`: the first operand if it is truthy, otherwise the second. */
  function Or(a: Value, b: Value): (r: Value)
    ensures Truthy(r) <==> Truthy(a) || Truthy(b)
    ensures Truthy(a) ==> r == a
    ensures !Truthy(a) ==> r == b
  {
    if Truthy(a) then a else b
  }

  /**
    `v?.key`: reading a property, where a null or undefined base gives `undefined`.
    Strings and arrays have a `length`; numbers and booleans have no own
    properties that a document field could name.
  */
  function Member(v: Value, key: string): Value {
    match v
    case Undefined => Undefined
    case Null => Undefined
    case Bool(_) => Undefined
    case Num(_) => Undefined
    case Str(s) => if key == "length" then Num(|s|) else Undefined
    case Arr(a) => if key == "length" then Num(|a|) else Undefined
    case Obj(m) => if key in m then m[key] else Undefined
  }

  /** `v.key`: reading a property of null or undefined throws a TypeError. */
  function Get(v: Value, key: string): (r: Completion<Value>)
    ensures r.Thrown? <==> Nullish(v)
    ensures r.Normal? ==> r.value == Member(v, key)
  {
    if Nullish(v) then Thrown else Normal(Member(v, key))
  }

  /** The receiver of `.map`, `.forEach` or `.join`: only arrays have these methods. */
  function Elements(v: Value): (r: Completion<seq<Value>>)
    ensures r.Normal? <==> v.Arr?
  {
    if v.Arr? then Normal(v.items) else Thrown
  }

  /** `v.includes(needle)`: element membership for arrays, substring search for strings. */
  function Includes(v: Value, needle: string): (r: Completion<bool>)
    ensures r.Thrown? <==> !(v.Arr? || v.Str?)
    ensures v.Arr? ==> r == Normal(Str(needle) in v.items)
    ensures v.Str? ==> r == Normal(Contains(v.s, needle))
  {
    match v
    case Arr(a) => Normal(Str(needle) in a)
    case Str(s) => Normal(Contains(s, needle))
    case _ => Thrown
  }

  /**
    `n > 0` where `n` is a `length` read from a value: numbers compare
    numerically, booleans as 0 or 1, null and undefined are never positive.
  */
  predicate Positive(n: Value) {
    match n
    case Num(k) => k > 0
    case Bool(b) => b
    case _ => false
  }

  /**
    On strings and arrays, the two emptiness tests the renderers use agree:
    `v.length` is truthy exactly when `v.length > 0`, exactly when `v` has
    an element or a character.
  */
  lemma LengthTestsAgree(v: Value)
    requires v.Str? || v.Arr?
    ensures Truthy(Member(v, "length")) <==> Positive(Member(v, "length"))
    ensures Positive(Member(v, "length")) <==> (if v.Str? then |v.s| > 0 else |v.items| > 0)
  {
  }

  /** `s.includes(t)` on strings: `t` occurs in `s` as a contiguous substring. */
  predicate Contains(s: string, t: string)
    decreases |s|
  {
    t <= s || (|s| > 0 && Contains(s[1..], t))
  }

  lemma {:induction false} ContainsInfix(pre: string, t: string, post: string)
    ensures Contains(pre + t + post, t)
    decreases |pre|
  {
    if pre == [] {
      assert pre + t + post == t + post;
      assert t <= t + post;
    } else {
      assert (pre + t + post)[1..] == pre[1..] + t + post;
      ContainsInfix(pre[1..], t, post);
    }
  }

  /** An occurrence survives appending text after it. */
  lemma {:induction false} ContainsExtended(s: string, t: string, u: string)
    requires Contains(s, t)
    ensures Contains(s + u, t)
    decreases |s|
  {
    if t <= s {
      assert t <= s + u by {
        assert (s + u)[..|t|] == s[..|t|];
      }
    } else {
      assert (s + u)[1..] == s[1..] + u;
      ContainsExtended(s[1..], t, u);
    }
  }

  /** An occurrence survives prepending text before it. */
  lemma {:induction false} ContainsPrefixed(u: string, s: string, t: string)
    requires Contains(s, t)
    ensures Contains(u + s, t)
    decreases |u|
  {
    if u != [] {
      assert (u + s)[1..] == u[1..] + s;
      ContainsPrefixed(u[1..], s, t);
    } else {
      assert u + s == s;
    }
  }

  /** A string contains its own beginning. */
  lemma ContainsStart(t: string, post: string)
    ensures Contains(t + post, t)
  {
    assert t <= t + post;
  }

  /** A string contains its own end. */
  lemma ContainsEnd(pre: string, t: string)
    ensures Contains(pre + t, t)
  {
    ContainsInfix(pre, t, "");
    assert pre + t + "" == pre + t;
  }

  /** An occurrence inside an occurrence is an occurrence. */
  lemma {:induction false} ContainsTrans(s: string, t: string, u: string)
    requires Contains(s, t) && Contains(t, u)
    ensures Contains(s, u)
    decreases |s|
  {
    if t <= s {
      assert s == t + s[|t|..];
      ContainsExtended(t, u, s[|t|..]);
    } else {
      ContainsTrans(s[1..], t, u);
    }
  }

  /** `t` occurs in `s` starting at index `i`. */
  predicate OccursAt(s: string, t: string, i: nat) {
    i + |t| <= |s| && s[i..i + |t|] == t
  }

  /** An occurrence found by `Contains` has an index. */
  lemma {:induction false} ContainsHasIndex(s: string, t: string) returns (i: nat)
    requires Contains(s, t)
    ensures OccursAt(s, t, i)
    decreases |s|
  {
    if t <= s {
      i := 0;
    } else {
      var j := ContainsHasIndex(s[1..], t);
      assert s[1..][j..j + |t|] == s[j + 1..j + 1 + |t|];
      i := j + 1;
    }
  }

  /** An occurrence at an index is found by `Contains`. */
  lemma {:induction false} IndexGivesContains(s: string, t: string, i: nat)
    requires OccursAt(s, t, i)
    ensures Contains(s, t)
    decreases i
  {
    if i == 0 {
      assert s[..|t|] == t;
    } else {
      assert s[1..][i - 1..i - 1 + |t|] == s[i..i + |t|];
      IndexGivesContains(s[1..], t, i - 1);
    }
  }

  /** `Contains` holds exactly when `t` occurs at some index of `s`. */
  lemma ContainsIffOccurs(s: string, t: string)
    ensures Contains(s, t) <==> exists i: nat :: OccursAt(s, t, i)
  {
    if Contains(s, t) {
      var i := ContainsHasIndex(s, t);
    }
    if exists i: nat :: OccursAt(s, t, i) {
      var i: nat :| OccursAt(s, t, i);
      IndexGivesContains(s, t, i);
    }
  }

  function DigitChar(d: nat): char
    requires d < 10
  {
    "0123456789"[d]
  }

  /** Decimal notation of a natural number, as `String(n)` prints it. */
  function NatToString(n: nat): (s: string)
    ensures |s| >= 1
    ensures forall i :: 0 <= i < |s| ==> '0' <= s[i] <= '9'
    ensures |s| > 1 ==> s[0] != '0'
    decreases n
  {
    if n < 10 then [DigitChar(n)] else NatToString(n / 10) + [DigitChar(n % 10)]
  }

  /** The number a string of decimal digits denotes. */
  function DecimalValue(s: string): nat
    requires forall i :: 0 <= i < |s| ==> '0' <= s[i] <= '9'
  {
    if |s| == 0 then 0 else DecimalValue(s[..|s| - 1]) * 10 + (s[|s| - 1] as int - '0' as int)
  }

  /** Reading back the decimal notation gives the number printed. */
  lemma {:induction false} DecimalRoundTrip(n: nat)
    ensures DecimalValue(NatToString(n)) == n
    decreases n
  {
    var s := NatToString(n);
    if n >= 10 {
      DecimalRoundTrip(n / 10);
      assert s[..|s| - 1] == NatToString(n / 10);
    }
  }

  function IntToString(n: int): (s: string)
    ensures |s| >= 1
    ensures s[0] == '-' <==> n < 0
  {
    if n < 0 then "-" + NatToString(-n) else NatToString(n)
  }

  /** `parts.join(sep)`. */
  function Join(parts: seq<string>, sep: string): (r: string)
    ensures |parts| == 1 ==> r == parts[0]
    ensures |parts| == 0 ==> r == ""
  {
    if |parts| == 0 then ""
    else if |parts| == 1 then parts[0]
    else parts[0] + sep + Join(parts[1..], sep)
  }

  /** Joining two non-empty lists is joining each and putting one separator between them. */
  lemma {:induction false} JoinAppend(a: seq<string>, b: seq<string>, sep: string)
    requires |a| > 0 && |b| > 0
    ensures Join(a + b, sep) == Join(a, sep) + sep + Join(b, sep)
    decreases |a|
  {
    assert (a + b)[0] == a[0];
    assert (a + b)[1..] == a[1..] + b;
    if |a| > 1 {
      JoinAppend(a[1..], b, sep);
      assert a[0] + sep + (Join(a[1..], sep) + sep + Join(b, sep))
          == (a[0] + sep + Join(a[1..], sep)) + sep + Join(b, sep);
    }
  }

  /** `parts.join('')`. */
  function Concat(parts: seq<string>): string {
    if |parts| == 0 then "" else parts[0] + Concat(parts[1..])
  }

  /** `xs.map(f).join('')`. */
  function ConcatMap<T>(f: T -> string, xs: seq<T>): string {
    if |xs| == 0 then "" else f(xs[0]) + ConcatMap(f, xs[1..])
  }

  /** Mapping and joining preserves order: `(xs ++ ys).map(f).join('')` is the two joins side by side. */
  lemma {:induction false} ConcatMapAppend<T>(f: T -> string, xs: seq<T>, ys: seq<T>)
    ensures ConcatMap(f, xs + ys) == ConcatMap(f, xs) + ConcatMap(f, ys)
    decreases |xs|
  {
    if xs == [] {
      assert xs + ys == ys;
    } else {
      assert (xs + ys)[1..] == xs[1..] + ys;
      ConcatMapAppend(f, xs[1..], ys);
    }
  }

  /** The markup of every item occurs in the joined markup. */
  lemma {:induction false} ConcatMapShowsEach<T>(f: T -> string, xs: seq<T>, i: nat)
    requires i < |xs|
    ensures Contains(ConcatMap(f, xs), f(xs[i]))
    decreases i
  {
    if i == 0 {
      ContainsStart(f(xs[0]), ConcatMap(f, xs[1..]));
    } else {
      assert xs[1..][i - 1] == xs[i];
      ConcatMapShowsEach(f, xs[1..], i - 1);
      ContainsPrefixed(f(xs[0]), ConcatMap(f, xs[1..]), f(xs[i]));
    }
  }

  /** `xs.map(f).join('')` where `f` may throw: the first throw aborts the whole expression. */
  function ConcatMapOrThrow<T>(f: T -> Completion<string>, xs: seq<T>): (r: Completion<string>)
    ensures r.Normal? <==> forall i :: 0 <= i < |xs| ==> f(xs[i]).Normal?
    ensures r.Normal? && |xs| > 0 ==> Contains(r.value, f(xs[0]).value)
  {
    if |xs| == 0 then Normal("")
    else match f(xs[0])
      case Thrown => Thrown
      case Normal(head) =>
        match ConcatMapOrThrow(f, xs[1..])
        case Thrown => Thrown
        case Normal(tail) => ContainsInfix("", head, tail); assert "" + head + tail == head + tail; Normal(head + tail)
  }

  /** Ordering for the throwing form: on success, the items of `xs ++ ys` render as those of `xs` then those of `ys`. */
  lemma {:induction false} ConcatMapOrThrowAppend<T>(f: T -> Completion<string>, xs: seq<T>, ys: seq<T>)
    requires ConcatMapOrThrow(f, xs + ys).Normal?
    ensures ConcatMapOrThrow(f, xs).Normal? && ConcatMapOrThrow(f, ys).Normal?
    ensures ConcatMapOrThrow(f, xs + ys).value == ConcatMapOrThrow(f, xs).value + ConcatMapOrThrow(f, ys).value
    decreases |xs|
  {
    if xs == [] {
      assert xs + ys == ys;
    } else {
      assert (xs + ys)[1..] == xs[1..] + ys;
      assert (xs + ys)[0] == xs[0];
      ConcatMapOrThrowAppend(f, xs[1..], ys);
    }
  }

  /** On success, the markup of every item occurs in the joined markup. */
  lemma {:induction false} ConcatMapOrThrowShowsEach<T>(f: T -> Completion<string>, xs: seq<T>, i: nat)
    requires ConcatMapOrThrow(f, xs).Normal?
    requires i < |xs|
    ensures f(xs[i]).Normal? && Contains(ConcatMapOrThrow(f, xs).value, f(xs[i]).value)
    decreases i
  {
    if i > 0 {
      assert xs[1..][i - 1] == xs[i];
      ConcatMapOrThrowShowsEach(f, xs[1..], i - 1);
      ContainsPrefixed(f(xs[0]).value, ConcatMapOrThrow(f, xs[1..]).value, f(xs[i]).value);
    }
  }

  /** The text an array element contributes to `join`: null and undefined contribute nothing. */
  function ElementText(v: Value): string
    decreases v, 1
  {
    if Nullish(v) then "" else ToStr(v)
  }

  /** `String(v)`, which is also what `${v}` in a template literal produces. */
  function ToStr(v: Value): string
    decreases v, 0
  {
    match v
    case Undefined => "undefined"
    case Null => "null"
    case Bool(b) => if b then "true" else "false"
    case Num(n) => IntToString(n)
    case Str(s) => s
    case Arr(a) => Join(seq(|a|, i requires 0 <= i < |a| => ElementText(a[i])), ",")
    case Obj(_) => "[object Object]"
  }

  /** `a.join(sep)` on an array of values. */
  function ArrayJoin(a: seq<Value>, sep: string): (r: string)
    ensures |a| == 1 && a[0].Str? ==> r == a[0].s
  {
    var parts := seq(|a|, i requires 0 <= i < |a| => ElementText(a[i]));
    assert |a| == 1 ==> parts[0] == ElementText(a[0]);
    Join(parts, sep)
  }

  /** `String(a)` of an array is `a.join(',')`, and `String(s)` of a string is the string itself. */
  lemma ToStrOfArrayIsJoin(a: seq<Value>, s: string)
    ensures ToStr(Arr(a)) == ArrayJoin(a, ",")
    ensures ToStr(Str(s)) == s
  {
  }

  /** What assigning `v` to `textContent` stores: null and undefined clear the text. */
  function TextContentOf(v: Value): (r: string)
    ensures v.Str? ==> r == v.s
    ensures Nullish(v) ==> r == ""
  {
    if Nullish(v) then "" else ToStr(v)
  }

  /** `s.replace(c, '')` with a one-character pattern. */
  function RemoveFirst(s: string, c: char): string {
    if |s| == 0 then s
    else if s[0] == c then s[1..]
    else [s[0]] + RemoveFirst(s[1..], c)
  }

  /** `replace` removes the first occurrence of `c`, if there is one, and keeps every other character. */
  lemma {:induction false} RemoveFirstRemovesOne(s: string, c: char)
    ensures c !in s ==> RemoveFirst(s, c) == s
    ensures c in s ==> |RemoveFirst(s, c)| == |s| - 1
    ensures multiset(RemoveFirst(s, c)) + (if c in s then multiset{c} else multiset{}) == multiset(s)
    ensures |s| > 0 && s[0] == c ==> RemoveFirst(s, c) == s[1..]
  {
    if |s| > 0 {
      assert s == [s[0]] + s[1..];
      if s[0] != c {
        RemoveFirstRemovesOne(s[1..], c);
        assert c in s ==> c in s[1..];
      }
    }
  }
}
